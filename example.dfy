/** The example program of the library (ImkoExample.kt): a car whose colour and
    engine can be replaced, an engine with a fixed baseline power and cylinder
    count and a replaceable tuning kit, the car's power formula, and the
    scenario that buys a car, repaints it and tunes it twice. */
module ImkoExample {
  import opened Imko

  // ---------------------------------------------------------------------------
  // Kotlin Int arithmetic

  const Modulus := 0x1_0000_0000
  const HalfModulus := 0x8000_0000

  predicate IsInt32(x: int) {
    -HalfModulus <= x < HalfModulus
  }

  /** Two's-complement wrap-around of a mathematical integer to a Kotlin Int. */
  function Wrap32(x: int): int {
    (x + HalfModulus) % Modulus - HalfModulus
  }

  /** Kotlin `a + b` on Int. */
  function Add32(a: int, b: int): int {
    Wrap32(a + b)
  }

  /** Kotlin `a * b` on Int. */
  function Mul32(a: int, b: int): int {
    Wrap32(a * b)
  }

  lemma WrapInRange(x: int)
    ensures IsInt32(Wrap32(x))
    ensures IsInt32(x) ==> Wrap32(x) == x
  {
  }

  /** Adding a multiple of 2^32 does not change the wrapped value. */
  lemma WrapShift(x: int, k: int)
    ensures Wrap32(x + k * Modulus) == Wrap32(x)
  {
    var y := x + HalfModulus;
    var q, r := y / Modulus, y % Modulus;
    assert y + k * Modulus == (q + k) * Modulus + r;
  }

  /** Wrapping an intermediate sum before multiplying gives the same Int as
      wrapping only the exact product. */
  lemma MulOfWrapped(c: int, x: int)
    ensures Wrap32(c * Wrap32(x)) == Wrap32(c * x)
  {
    var y := x + HalfModulus;
    var q := y / Modulus;
    assert Wrap32(x) == x - q * Modulus;
    assert c * Wrap32(x) == c * x + (-(c * q)) * Modulus;
    WrapShift(c * x, -(c * q));
  }

  // ---------------------------------------------------------------------------
  // Reading the example's slots

  /** The instance a slot refers to, or null when it holds anything else. */
  function SlotObject(o: Immutable?, index: int): Immutable?
    reads o
  {
    if o == null then null
    else var v := Val(o, index).Get(); if v.Ref? then v.obj else null
  }

  /** `engine()` of a car. */
  function EngineOf(car: Immutable): Immutable?
    reads car
  {
    SlotObject(car, CarEngine)
  }

  /** `tuningKit()` of an engine. */
  function KitOf(engine: Immutable?): Immutable?
    reads engine
  {
    SlotObject(engine, EngineTuningKit)
  }

  /** A TuningKit as its constructor lays it out; Kotlin lets `set(null)`
      store null in boostPerCylinder. */
  predicate IsTuningKit(k: Immutable)
    reads k
  {
    var boost := Val(k, BoostPerCylinder).Get();
    k.kind == TuningKitType && Shaped(k) && (boost.Num? || boost.Null?)
  }

  /** An Engine whose Int slots hold Ints and whose tuningKit slot holds null
      or a TuningKit: the engines `power()` reads without a
      NullPointerException or ClassCastException. */
  predicate IsEngine(e: Immutable)
    reads e, KitOf(e)
  {
    var kit := Val(e, EngineTuningKit).Get();
    && e.kind == EngineType && Shaped(e)
    && Val(e, EngineBaselinePower).Get().Num? && Val(e, EngineCylinders).Get().Num?
    && (kit.Null? || (kit.Ref? && IsTuningKit(kit.obj)))
  }

  /** A Car in its layout whose engine slot holds an Engine: the cars
      `power()` reads without a NullPointerException, since `set(null)` on
      the engine slot would store null there. The model number and the colour
      are not read by `power()` and may be anything. */
  predicate IsCar(car: Immutable)
    reads car, EngineOf(car), KitOf(EngineOf(car))
  {
    && car.kind == CarType && Shaped(car)
    && EngineOf(car) != null && IsEngine(EngineOf(car))
  }

  /** The colour slot holds a colour rather than the null `set(null)` stores. */
  predicate Painted(car: Immutable)
    reads car
  {
    Val(car, CarColor).Get().Paint?
  }

  /** `color()` of a car. */
  function Colour(car: Immutable): Color
    requires Painted(car)
    reads car
  {
    Val(car, CarColor).Get().color
  }

  function Cylinders(e: Immutable): int
    requires IsEngine(e)
    reads e, KitOf(e)
  {
    Val(e, EngineCylinders).Get().n
  }

  function BaselinePower(e: Immutable): int
    requires IsEngine(e)
    reads e, KitOf(e)
  {
    Val(e, EngineBaselinePower).Get().n
  }

  /** `tuningKit()?.boostPerCylinder?.get() ?: 0`. */
  function TuningBoost(e: Immutable): int
    requires IsEngine(e)
    reads e, KitOf(e)
  {
    var kit := KitOf(e);
    if kit == null then 0
    else var boost := Val(kit, BoostPerCylinder).Get(); if boost.Num? then boost.n else 0
  }

  /** `power()`: cylinders * (baselinePower + tuningBoost) in Kotlin Int
      arithmetic, which is the exact value wrapped once to 32 bits. */
  function Power(car: Immutable): (r: int)
    requires IsCar(car)
    reads car, EngineOf(car), KitOf(EngineOf(car))
    ensures IsInt32(r)
    ensures var e := EngineOf(car); r == Wrap32(Cylinders(e) * (BaselinePower(e) + TuningBoost(e)))
  {
    var e := EngineOf(car);
    var cylinders := Cylinders(e);
    var baselinePower := BaselinePower(e);
    var tuningBoost := TuningBoost(e);
    MulOfWrapped(cylinders, baselinePower + tuningBoost);
    Mul32(cylinders, Add32(baselinePower, tuningBoost))
  }

  /** `Car(modelNumber)` is a car of colour BLUE with a 6-cylinder engine of
      baseline power 25 and no tuning kit. */
  lemma NewCarIsCar(car: Immutable, modelNumber: int)
    requires car.kind == CarType && Shaped(car)
    requires car.references == map[CarModelNumber := Num(modelNumber), CarColor := Paint(Blue), CarEngine := car.references[CarEngine]]
    requires car.references[CarEngine].Ref?
    requires var e := car.references[CarEngine].obj;
      && e.kind == EngineType && Shaped(e)
      && e.references == map[EngineBaselinePower := Num(25), EngineCylinders := Num(6), EngineTuningKit := Null]
    ensures IsCar(car) && Painted(car) && Colour(car) == Blue
    ensures Cylinders(EngineOf(car)) == 6 && BaselinePower(EngineOf(car)) == 25 && TuningBoost(EngineOf(car)) == 0
    ensures Power(car) == 150
  {
  }

  // ---------------------------------------------------------------------------
  // The scenario's steps. `x { body }` on a value evaluates `body` with `x` as
  // receiver; `slot { block }` is the slot's `mutate`, which calls the block
  // twice; a block that builds objects builds them on each call.

  /** `car.color { c }`: repaint. Throws when the car already has that colour. */
  method Repaint(car: Immutable, c: Color) returns (r: Outcome<Immutable>)
    requires IsCar(car)
    ensures r.Thrown? <==> Val(car, CarColor).Get() == Paint(c)
    ensures r.Thrown? ==> r.message == SameInstanceMessage
    ensures r.Produced? ==>
      && fresh(r.value) && IsCar(r.value) && Painted(r.value) && Colour(r.value) == c
      && r.value.references == car.references[CarColor := Paint(c)]
      && EngineOf(r.value) == EngineOf(car) && Power(r.value) == Power(car)
  {
    r := Var(car, CarColor).Mutate(_ => Paint(c));
    if r.Produced? {
      ReplacementOfShaped(r.value, car, CarColor, Paint(c));
    }
  }

  /** The engine block `{ tuningKit { TuningKit(boost) } }`: a new engine
      with a new tuning kit. It never throws, since the kit it installs is new. */
  method InstallKit(engine: Immutable, boost: int) returns (r: Outcome<Value>)
    requires IsEngine(engine)
    ensures r.Produced? && r.value.Ref? && fresh(r.value.obj)
    ensures var e := r.value.obj;
      && IsEngine(e) && e.references == engine.references[EngineTuningKit := e.references[EngineTuningKit]]
      && KitOf(e) != null && fresh(KitOf(e)) && KitOf(e).references == map[BoostPerCylinder := Num(boost)]
      && Cylinders(e) == Cylinders(engine) && BaselinePower(e) == BaselinePower(engine) && TuningBoost(e) == boost
  {
    var first := new Immutable.TuningKit(boost);
    var second := new Immutable.TuningKit(boost);
    var m := Var(engine, EngineTuningKit).MutateWith(Ref(first), Ref(second));
    ReplacementOfShaped(m.value, engine, EngineTuningKit, Ref(second));
    r := Produced(Ref(m.value));
  }

  /** `car { engine { tuningKit { TuningKit(boost) } } }`: a car whose engine
      now carries a kit of the given boost; its power rises accordingly. */
  method TuneCar(car: Immutable, boost: int) returns (r: Outcome<Immutable>)
    requires IsCar(car)
    ensures r.Produced? && fresh(r.value) && IsCar(r.value)
    ensures r.value.references == car.references[CarEngine := r.value.references[CarEngine]]
    ensures Val(r.value, CarColor).Get() == Val(car, CarColor).Get()
    ensures var e, e' := EngineOf(car), EngineOf(r.value);
      && fresh(e') && Cylinders(e') == Cylinders(e) && BaselinePower(e') == BaselinePower(e)
      && KitOf(e') != null && fresh(KitOf(e')) && KitBoostIsInt(e') && TuningBoost(e') == boost
    ensures Power(r.value) == Mul32(Cylinders(EngineOf(car)), Add32(BaselinePower(EngineOf(car)), boost))
  {
    var engine := EngineOf(car);
    var first := InstallKit(engine, boost);
    var second := InstallKit(engine, boost);
    var m := Var(car, CarEngine).MutateWith(first.value, second.value);
    ReplacementOfShaped(m.value, car, CarEngine, second.value);
    r := m;
    MulOfWrapped(Cylinders(engine), BaselinePower(engine) + boost);
  }

  /** The kit block `{ this?.boostPerCylinder?.mutate { cylinders() * this } }`
      evaluated inside an engine block: null stays null; a kit gets its boost
      multiplied by the enclosing engine's cylinder count. */
  method ScaleKit(engine: Immutable, kit: Value) returns (r: Outcome<Value>)
    requires IsEngine(engine)
    requires kit.Null? || (kit.Ref? && kit.obj.kind == TuningKitType && Shaped(kit.obj)
                           && Val(kit.obj, BoostPerCylinder).Get().Num?)
    ensures kit.Null? ==> r == Produced(Null)
    ensures kit.Ref? ==>
      var boost := Val(kit.obj, BoostPerCylinder).Get().n;
      && (r.Thrown? <==> Mul32(Cylinders(engine), boost) == boost)
      && (r.Thrown? ==> r.message == SameInstanceMessage)
      && (r.Produced? ==>
            && r.value.Ref? && fresh(r.value.obj) && r.value.obj.kind == TuningKitType && Shaped(r.value.obj)
            && r.value.obj.references == map[BoostPerCylinder := Num(Mul32(Cylinders(engine), boost))])
  {
    if kit.Null? {
      return Produced(Null);
    }
    var cylinders := Val(engine, EngineCylinders).Get().n;
    var m := Var(kit.obj, BoostPerCylinder).Mutate((b: Value) requires b.Num? => Num(Mul32(cylinders, b.n)));
    if m.Produced? {
      ReplacementOfShaped(m.value, kit.obj, BoostPerCylinder, Num(Mul32(cylinders, Val(kit.obj, BoostPerCylinder).Get().n)));
      assert Declare(map[], 0, [kit.obj.references[BoostPerCylinder]]) == map[0 := kit.obj.references[BoostPerCylinder]];
      r := Produced(Ref(m.value));
    } else {
      r := Thrown(m.message);
    }
  }

  /** The boost the kit block multiplies must be an Int: `cylinders() * this`
      on a null boost is a NullPointerException. */
  predicate KitBoostIsInt(e: Immutable)
    reads e, KitOf(e)
  {
    KitOf(e) == null || Val(KitOf(e), BoostPerCylinder).Get().Num?
  }

  /** The engine block `{ tuningKit { <kit block of ScaleKit> } }`. On an
      engine without a kit the kit block returns null, the very value the slot
      holds, so the tuningKit slot's mutate throws. */
  method ScaleEngine(engine: Immutable) returns (r: Outcome<Value>)
    requires IsEngine(engine) && KitBoostIsInt(engine)
    ensures KitOf(engine) == null ==> r == Thrown(SameInstanceMessage)
    ensures KitOf(engine) != null ==>
      var c, boost := Cylinders(engine), TuningBoost(engine);
      && (r.Thrown? <==> Mul32(c, boost) == boost)
      && (r.Thrown? ==> r.message == SameInstanceMessage)
      && (r.Produced? ==>
            && r.value.Ref? && fresh(r.value.obj)
            && var e := r.value.obj;
            && IsEngine(e) && KitOf(e) != null && fresh(KitOf(e))
            && e.references == engine.references[EngineTuningKit := e.references[EngineTuningKit]]
            && Cylinders(e) == c && BaselinePower(e) == BaselinePower(engine)
            && TuningBoost(e) == Mul32(c, boost))
  {
    var kitSlot := Var(engine, EngineTuningKit);
    var first := ScaleKit(engine, kitSlot.Get());
    if first.Thrown? {
      return first;
    }
    var second := ScaleKit(engine, kitSlot.Get());
    var m := kitSlot.MutateWith(first.value, second.value);
    if m.Produced? {
      ReplacementOfShaped(m.value, engine, EngineTuningKit, second.value);
      r := Produced(Ref(m.value));
    } else {
      r := Thrown(m.message);
    }
  }

  /** `car { engine { tuningKit { this?.boostPerCylinder?.mutate { cylinders() * this } } } }`:
      a car whose kit's boost is multiplied by the cylinder count. */
  method ScaleCar(car: Immutable) returns (r: Outcome<Immutable>)
    requires IsCar(car) && KitBoostIsInt(EngineOf(car))
    ensures KitOf(EngineOf(car)) == null ==> r == Thrown(SameInstanceMessage)
    ensures KitOf(EngineOf(car)) != null ==>
      var e := EngineOf(car);
      var c, boost := Cylinders(e), TuningBoost(e);
      && (r.Thrown? <==> Mul32(c, boost) == boost)
      && (r.Thrown? ==> r.message == SameInstanceMessage)
      && (r.Produced? ==>
            && fresh(r.value) && IsCar(r.value) && Val(r.value, CarColor).Get() == Val(car, CarColor).Get()
            && r.value.references == car.references[CarEngine := r.value.references[CarEngine]]
            && var e' := EngineOf(r.value);
            && fresh(e') && Cylinders(e') == c && BaselinePower(e') == BaselinePower(e)
            && TuningBoost(e') == Mul32(c, boost)
            && Power(r.value) == Mul32(c, Add32(BaselinePower(e), Mul32(c, boost))))
  {
    var engine := EngineOf(car);
    var first := ScaleEngine(engine);
    if first.Thrown? {
      return Thrown(first.message);
    }
    var second := ScaleEngine(engine);
    var m := Var(car, CarEngine).MutateWith(first.value, second.value);
    ReplacementOfShaped(m.value, car, CarEngine, second.value);
    r := m;
    MulOfWrapped(Cylinders(engine), BaselinePower(engine) + Mul32(Cylinders(engine), TuningBoost(engine)));
  }

  /** What the prints of `aliG()` show, in order. */
  datatype Report = Report(
    firstPower: int, firstColor: Color,
    firstColorAfterRepaint: Color, yellowColor: Color,
    yellowPower: int, tunedPower: int,
    tunedPowerAfterScaling: int, monsterBoost: int, monsterPower: int)

  /** `aliG()`: a new car has power 150 and is BLUE; its yellow copy is YELLOW
      while the first car stays BLUE; the tuned copy has power 240 while the
      yellow car keeps 150; the scaled copy has boost 90 and power 690 while
      the tuned car keeps 240. */
  method AliG() returns (report: Report)
    ensures report == Report(150, Blue, Blue, Yellow, 150, 240, 240, 90, 690)
  {
    var firstCar := new Immutable.Car(1);
    NewCarIsCar(firstCar, 1);
    var firstPower, firstColor := Power(firstCar), Colour(firstCar);
    assert firstPower == 150 && firstColor == Blue;

    var yellow := Repaint(firstCar, Yellow);
    var yellowCar := yellow.value;
    var firstColorAfterRepaint, yellowColor := Colour(firstCar), Colour(yellowCar);
    assert Power(yellowCar) == 150;

    var tuned := TuneCar(yellowCar, 15);
    var tunedYellowCar := tuned.value;
    var yellowPower, tunedPower := Power(yellowCar), Power(tunedYellowCar);
    WrapInRange(25 + 15);
    WrapInRange(6 * 40);
    assert yellowPower == 150 && tunedPower == 240;
    ghost var tunedEngine := EngineOf(tunedYellowCar);
    assert Cylinders(tunedEngine) == 6 && BaselinePower(tunedEngine) == 25 && TuningBoost(tunedEngine) == 15;

    var monster := ScaleCar(tunedYellowCar);
    WrapInRange(6 * 15);
    WrapInRange(25 + 90);
    WrapInRange(6 * 115);
    var monsterCar := monster.value;
    var tunedPowerAfterScaling := Power(tunedYellowCar);
    var monsterBoost, monsterPower := TuningBoost(EngineOf(monsterCar)), Power(monsterCar);
    assert tunedPowerAfterScaling == 240 && monsterBoost == 90 && monsterPower == 690;
    report := Report(firstPower, firstColor, firstColorAfterRepaint, yellowColor,
                     yellowPower, tunedPower, tunedPowerAfterScaling, monsterBoost, monsterPower);
  }
}

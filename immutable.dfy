/** Copy-on-write value objects over a slot table (io.sellmair.imko.Immutable).

    An instance owns a table from slot index to value and a counter of declared
    slots. Constructors declare slots in a fixed order (`Ival`, `Ivar`); a mutable
    slot's accessor never changes its instance but builds a fresh instance of the
    same concrete type, copies the whole table into it and overwrites one index.

    The model uses one class `Immutable` with a `Kind` tag in place of
    subclasses: the concrete value types are named constructors of it, and
    the reflective "create an instance of the same runtime class" becomes
    `CreateInstance`. */
module Imko {

  /** The two java.awt.Color constants the value types use. */
  datatype Color = Blue | Yellow

  /** The concrete subclasses of Immutable in the program: the runtime class
      that reflection reads to build a sibling instance. */
  datatype Kind = TuningKitType | EngineType | CarType | TestImmType

  /** A slot value: Kotlin `Any?` as it is stored in the table. */
  datatype Value =
    | Null
    | Num(n: int)
    | Paint(color: Color)
    | Text(s: string)
    | Ref(obj: Immutable)

  /** Kotlin `===`. A `Ref` is identical to another exactly when both name the
      same object; boxed numbers, colours and string constants are taken to be
      identical when their values are equal. */
  predicate Identical(a: Value, b: Value) {
    a == b
  }

  /** A call that returns a value or throws an exception with a message. */
  datatype Outcome<T> = Produced(value: T) | Thrown(message: string)

  /** Message of the IllegalStateException thrown by `mutate`. */
  const SameInstanceMessage := "Mutation returned same instance"

  /** Slot layouts of the concrete types: the index each declaration receives. */
  const BoostPerCylinder := 0
  const EngineBaselinePower := 0
  const EngineCylinders := 1
  const EngineTuningKit := 2
  const CarModelNumber := 0
  const CarColor := 1
  const CarEngine := 2
  const TestAString := 0
  const TestAnotherString := 1

  /** Number of slots the constructor of each concrete type declares. */
  function SlotCount(k: Kind): nat {
    match k
    case TuningKitType => 1
    case EngineType => 3
    case CarType => 3
    case TestImmType => 2
  }

  // ---------------------------------------------------------------------------
  // The slot table as a value

  /** Kotlin `map[i]`: the stored value, or null when the key is absent. */
  function Lookup(m: map<int, Value>, i: int): Value {
    if i in m then m[i] else Null
  }

  /** The indices lo until hi. */
  function Range(lo: int, hi: int): set<int>
    decreases hi - lo
  {
    if hi <= lo then {} else Range(lo, hi - 1) + {hi - 1}
  }

  /** The indices 0 until n. */
  function Indices(n: int): set<int> {
    Range(0, n)
  }

  lemma {:induction false} RangeMembers(lo: int, hi: int)
    ensures forall j :: j in Range(lo, hi) <==> lo <= j < hi
    decreases hi - lo
  {
    if lo < hi {
      RangeMembers(lo, hi - 1);
    }
  }

  lemma {:induction false} IndicesSize(n: nat)
    ensures |Indices(n)| == n
  {
    if n > 0 {
      IndicesSize(n - 1);
      RangeMembers(0, n - 1);
      assert n - 1 !in Indices(n - 1);
    }
  }

  /** The table after declaring `values` one after another, the first at index
      `counter`: what a run of `Ival`/`Ivar` calls does to the table. */
  function Declare(m: map<int, Value>, counter: int, values: seq<Value>): map<int, Value>
  {
    if values == [] then m
    else Declare(m, counter, values[..|values| - 1])[counter + |values| - 1 := values[|values| - 1]]
  }

  /** Successive declarations receive the indices counter, counter + 1, ... in
      declaration order, each holding its initial value, and leave earlier
      entries alone. */
  lemma {:induction false} DeclareInOrder(m: map<int, Value>, counter: int, values: seq<Value>)
    ensures Declare(m, counter, values).Keys == m.Keys + Range(counter, counter + |values|)
    ensures forall i :: 0 <= i < |values| ==>
      counter + i in Declare(m, counter, values) && Declare(m, counter, values)[counter + i] == values[i]
    ensures forall k :: k in m && !(counter <= k < counter + |values|) ==> Declare(m, counter, values)[k] == m[k]
  {
    if values != [] {
      var front := values[..|values| - 1];
      DeclareInOrder(m, counter, front);
      RangeMembers(counter, counter + |front|);
      forall i | 0 <= i < |front|
        ensures values[i] == front[i]
      {
      }
    }
  }

  /** A constructor that declares `values`, starting from the base's empty
      table and zero counter, ends with exactly the indices 0 until |values|,
      index i holding the i-th declared value. */
  lemma DeclaredTable(values: seq<Value>)
    ensures Declare(map[], 0, values).Keys == Indices(|values|)
    ensures |Declare(map[], 0, values)| == |values|
    ensures forall i :: 0 <= i < |values| ==> i in Declare(map[], 0, values) && Declare(map[], 0, values)[i] == values[i]
  {
    DeclareInOrder(map[], 0, values);
    IndicesSize(|values|);
    forall i | 0 <= i < |values|
      ensures i in Declare(map[], 0, values) && Declare(map[], 0, values)[i] == values[i]
    {
      assert 0 + i in Declare(map[], 0, values) && Declare(map[], 0, values)[0 + i] == values[i];
    }
  }

  /** Two or three declarations from the base's empty table: the slots sit at
      indices 0, 1, 2 in declaration order. */
  lemma LayoutOfTwo(a: Value, b: Value)
    ensures Declare(map[], 0, [a, b]) == map[0 := a, 1 := b]
  {
    DeclaredTable([a, b]);
    RangeMembers(0, 2);
  }

  lemma LayoutOfThree(a: Value, b: Value, c: Value)
    ensures Declare(map[], 0, [a, b, c]) == map[0 := a, 1 := b, 2 := c]
  {
    DeclaredTable([a, b, c]);
    RangeMembers(0, 3);
  }

  /** The table of `dst` after the copy loop wrote indices 0 until n from `src`. */
  function Copied(src: map<int, Value>, dst: map<int, Value>, n: nat): map<int, Value> {
    if n == 0 then dst else Copied(src, dst, n - 1)[n - 1 := Lookup(src, n - 1)]
  }

  /** The copy loop sets every index below n to the source's value (null where
      the source has none) and keeps the destination's entries elsewhere. */
  lemma {:induction false} CopiedAt(src: map<int, Value>, dst: map<int, Value>, n: nat)
    ensures Copied(src, dst, n).Keys == dst.Keys + Indices(n)
    ensures forall j :: 0 <= j < n ==> j in Copied(src, dst, n) && Copied(src, dst, n)[j] == Lookup(src, j)
    ensures forall j :: j in dst && !(0 <= j < n) ==> Copied(src, dst, n)[j] == dst[j]
  {
    if n > 0 {
      CopiedAt(src, dst, n - 1);
    }
  }

  /** The table `set` builds: the fresh instance's table `dst`, overwritten by
      the source table at every index below its size, then `t` at `index`. */
  function Replaced(src: map<int, Value>, dst: map<int, Value>, index: int, t: Value): map<int, Value> {
    Copied(src, dst, |src|)[index := t]
  }

  /** What a replace promises about its result `r`, built from `src` by writing
      `t` at `index`: same concrete type, the default layout's counter, `t` at
      the index, the source's value at every other index below the source's size,
      and no keys besides those and the default layout's. */
  ghost predicate IsReplacement(r: Immutable, src: Immutable, index: int, t: Value)
    reads r, src
  {
    && r.kind == src.kind
    && r.referenceCounter == SlotCount(src.kind)
    && r.references.Keys == Indices(SlotCount(src.kind)) + Indices(|src.references|) + {index}
    && r.references[index] == t
    && forall j :: 0 <= j < |src.references| && j != index ==>
         j in r.references && r.references[j] == Lookup(src.references, j)
  }

  /** The table of `set`'s result meets IsReplacement whenever the fresh
      instance had its type's default layout. */
  lemma ReplacedMeetsReplacement(r: Immutable, src: Immutable, dst: map<int, Value>, index: int, t: Value)
    requires r.kind == src.kind && r.referenceCounter == SlotCount(src.kind)
    requires dst.Keys == Indices(SlotCount(src.kind))
    requires r.references == Replaced(src.references, dst, index, t)
    ensures IsReplacement(r, src, index, t)
  {
    CopiedAt(src.references, dst, |src.references|);
  }

  /** An instance whose table has exactly its type's layout of indices. */
  predicate Shaped(o: Immutable)
    reads o
  {
    o.referenceCounter == SlotCount(o.kind) && o.references.Keys == Indices(SlotCount(o.kind))
  }

  /** When the source has its type's layout and the index is one of its slots,
      the replacement's table is the source's table with only that index
      changed: the same size, and nothing reset to the constructor's defaults. */
  lemma ReplacementOfShaped(r: Immutable, src: Immutable, index: int, t: Value)
    requires IsReplacement(r, src, index, t)
    requires Shaped(src) && 0 <= index < SlotCount(src.kind)
    ensures r.references == src.references[index := t]
    ensures |r.references| == |src.references|
    ensures Shaped(r)
  {
    var n := SlotCount(src.kind);
    IndicesSize(n);
    RangeMembers(0, n);
    assert r.references.Keys == src.references.Keys;
    forall j | j in r.references
      ensures r.references[j] == src.references[index := t][j]
    {
      if j != index {
        assert 0 <= j < |src.references|;
      }
    }
  }

  /** Two replacements of the same slot, made independently from one source
      with its type's layout, differ from each other only at that slot. */
  lemma SiblingsDifferOnlyThere(r1: Immutable, r2: Immutable, src: Immutable, index: int, x: Value, y: Value)
    requires IsReplacement(r1, src, index, x) && IsReplacement(r2, src, index, y)
    requires Shaped(src) && 0 <= index < SlotCount(src.kind)
    ensures r1.references[index := y] == r2.references
  {
    ReplacementOfShaped(r1, src, index, x);
    ReplacementOfShaped(r2, src, index, y);
  }

  /** Reading a replacement: `get()` of the replaced slot returns the new
      value, and `get()` of every other slot returns what it returns on the
      source (null for an index neither declares). */
  lemma ReadAfterReplace(r: Immutable, src: Immutable, index: int, t: Value, j: int)
    requires IsReplacement(r, src, index, t)
    requires Shaped(src) && 0 <= index < SlotCount(src.kind)
    ensures Val(r, index).Get() == t
    ensures j != index ==> Val(r, j).Get() == Val(src, j).Get()
  {
    ReplacementOfShaped(r, src, index, t);
  }

  // ---------------------------------------------------------------------------
  // Instances

  class Immutable {
    /** The concrete runtime class of the instance. */
    const kind: Kind
    /** Slot index to stored value (`references`). */
    var references: map<int, Value>
    /** The next index to assign (`referenceCounter`). */
    var referenceCounter: int

    /** The `init` block of Val: store the initial value at the accessor's index. */
    method Bind(index: int, value: Value)
      modifies this
      ensures references == old(references)[index := value]
      ensures referenceCounter == old(referenceCounter)
    {
      references := references[index := value];
    }

    /** `ival(t)`: a read-only accessor bound to the current counter, which it
        then raises by one; the slot holds `t`. */
    method Ival(t: Value) returns (v: Val)
      modifies this
      ensures v == Val(this, old(referenceCounter))
      ensures referenceCounter == old(referenceCounter) + 1
      ensures references == old(references)[old(referenceCounter) := t]
      ensures v.Get() == t
    {
      Bind(referenceCounter, t);
      v := Val(this, referenceCounter);
      referenceCounter := referenceCounter + 1;
    }

    /** `ivar(t)`: like `ival`, but the accessor can also replace the slot. */
    method Ivar(t: Value) returns (v: Var)
      modifies this
      ensures v == Var(this, old(referenceCounter))
      ensures referenceCounter == old(referenceCounter) + 1
      ensures references == old(references)[old(referenceCounter) := t]
      ensures v.Get() == t
    {
      Bind(referenceCounter, t);
      v := Var(this, referenceCounter);
      referenceCounter := referenceCounter + 1;
    }

    // Each constructor starts, as the abstract base does, from an empty table
    // and a zero counter, then declares the type's slots in source order.

    /** `TuningKit(boost)`: boostPerCylinder (mutable). */
    constructor TuningKit(boost: int)
      ensures kind == TuningKitType && referenceCounter == 1
      ensures references == Declare(map[], 0, [Num(boost)])
      ensures references == map[BoostPerCylinder := Num(boost)]
      ensures Shaped(this)
    {
      kind := TuningKitType;
      references := map[];
      referenceCounter := 0;
      new;
      var boostPerCylinder := Ivar(Num(boost));
      assert [Num(boost)][..0] == [];
      assert boostPerCylinder.index == BoostPerCylinder;
      assert Declare(map[], 0, [Num(boost)]) == map[0 := Num(boost)];
      DeclaredTable([Num(boost)]);
    }

    /** `Engine(cylinders)`: baselinePower = 25 and cylinders (read-only), then
        tuningKit = null (mutable). */
    constructor Engine(cylinders: int)
      ensures kind == EngineType && referenceCounter == 3
      ensures references == Declare(map[], 0, [Num(25), Num(cylinders), Null])
      ensures references == map[EngineBaselinePower := Num(25), EngineCylinders := Num(cylinders), EngineTuningKit := Null]
      ensures Shaped(this)
    {
      kind := EngineType;
      references := map[];
      referenceCounter := 0;
      new;
      ghost var declared: seq<Value> := [];
      var baselinePower := Ival(Num(25));
      declared := declared + [Num(25)];
      assert references == Declare(map[], 0, declared);
      var cylindersSlot := Ival(Num(cylinders));
      declared := declared + [Num(cylinders)];
      assert references == Declare(map[], 0, declared);
      var tuningKit := Ivar(Null);
      declared := declared + [Null];
      assert references == Declare(map[], 0, declared);
      assert declared == [Num(25), Num(cylinders), Null];
      assert baselinePower.index == EngineBaselinePower && cylindersSlot.index == EngineCylinders;
      assert tuningKit.index == EngineTuningKit;
      LayoutOfThree(Num(25), Num(cylinders), Null);
      DeclaredTable(declared);
    }

    /** `Car(modelNumber)`: modelNumber (read-only), then color = BLUE and a
        freshly built 6-cylinder engine (both mutable). */
    constructor Car(modelNumber: int)
      ensures kind == CarType && referenceCounter == 3
      ensures CarEngine in references && references[CarEngine].Ref?
      ensures references == Declare(map[], 0, [Num(modelNumber), Paint(Blue), references[CarEngine]])
      ensures references == map[CarModelNumber := Num(modelNumber), CarColor := Paint(Blue), CarEngine := references[CarEngine]]
      ensures Shaped(this)
      ensures var engine := references[CarEngine].obj;
        && fresh(engine) && engine.kind == EngineType && Shaped(engine)
        && engine.references == map[EngineBaselinePower := Num(25), EngineCylinders := Num(6), EngineTuningKit := Null]
    {
      kind := CarType;
      references := map[];
      referenceCounter := 0;
      new;
      ghost var declared: seq<Value> := [];
      var modelNumberSlot := Ival(Num(modelNumber));
      declared := declared + [Num(modelNumber)];
      assert references == Declare(map[], 0, declared);
      var color := Ivar(Paint(Blue));
      declared := declared + [Paint(Blue)];
      assert references == Declare(map[], 0, declared);
      var defaultEngine := new Immutable.Engine(6);
      var engine := Ivar(Ref(defaultEngine));
      declared := declared + [Ref(defaultEngine)];
      assert references == Declare(map[], 0, declared);
      assert declared == [Num(modelNumber), Paint(Blue), Ref(defaultEngine)];
      assert modelNumberSlot.index == CarModelNumber && color.index == CarColor && engine.index == CarEngine;
      LayoutOfThree(Num(modelNumber), Paint(Blue), Ref(defaultEngine));
      DeclaredTable(declared);
    }

    /** The value type of the unit test: aString = null, then
        anotherString = "initial" (both mutable). */
    constructor TestImm()
      ensures kind == TestImmType && referenceCounter == 2
      ensures references == Declare(map[], 0, [Null, Text("initial")])
      ensures references == map[TestAString := Null, TestAnotherString := Text("initial")]
      ensures Shaped(this)
    {
      kind := TestImmType;
      references := map[];
      referenceCounter := 0;
      new;
      ghost var declared: seq<Value> := [];
      var aString := Ivar(Null);
      declared := declared + [Null];
      assert references == Declare(map[], 0, declared);
      var anotherString := Ivar(Text("initial"));
      declared := declared + [Text("initial")];
      assert references == Declare(map[], 0, declared);
      assert declared == [Null, Text("initial")];
      assert aString.index == TestAString && anotherString.index == TestAnotherString;
      LayoutOfTwo(Null, Text("initial"));
      DeclaredTable(declared);
    }
  }

  /** `immutable::class.createInstance()`: run the no-argument constructor of
      the given concrete type, which fixes the placeholders TuningKit() boost 0,
      Engine() 0 cylinders, Car() model number -1. The result is new and has
      the type's layout. */
  method CreateInstance(kind: Kind) returns (r: Immutable)
    ensures fresh(r) && r.kind == kind && Shaped(r)
    ensures kind == TuningKitType ==> r.references == map[BoostPerCylinder := Num(0)]
    ensures kind == EngineType ==>
      r.references == map[EngineBaselinePower := Num(25), EngineCylinders := Num(0), EngineTuningKit := Null]
    ensures kind == CarType ==>
      && Lookup(r.references, CarModelNumber) == Num(-1) && Lookup(r.references, CarColor) == Paint(Blue)
      && Lookup(r.references, CarEngine).Ref? && fresh(Lookup(r.references, CarEngine).obj)
    ensures kind == TestImmType ==> r.references == map[TestAString := Null, TestAnotherString := Text("initial")]
  {
    if kind == TuningKitType {
      r := new Immutable.TuningKit(0);
    } else if kind == EngineType {
      r := new Immutable.Engine(0);
    } else if kind == CarType {
      r := new Immutable.Car(-1);
    } else {
      r := new Immutable.TestImm();
    }
  }

  // ---------------------------------------------------------------------------
  // Accessors

  /** A read-only accessor: the instance it belongs to and its slot index. */
  datatype Val = Val(immutable: Immutable, index: int) {
    /** `get()`: the value stored at the index (null if none). */
    function Get(): Value
      reads immutable
    {
      Lookup(immutable.references, index)
    }

    /** `invoke()`: Kotlin operator sugar for `get()`. */
    function Invoke(): (r: Value)
      reads immutable
      ensures r == Get()
    {
      Get()
    }
  }

  /** A mutable accessor (a Val that can also replace its slot). */
  datatype Var = Var(immutable: Immutable, index: int) {
    /** The accessor seen as its Val superclass. */
    function AsVal(): Val {
      Val(immutable, index)
    }

    function Get(): Value
      reads immutable
    {
      AsVal().Get()
    }

    /** `set(t)`: a fresh instance of the same concrete type whose table is the
        source's with `t` at this index. The source is left untouched. */
    method Set(t: Value) returns (r: Immutable)
      ensures fresh(r)
      ensures immutable.references == old(immutable.references)
      ensures IsReplacement(r, immutable, index, t)
    {
      var newInstance := CreateInstance(immutable.kind);
      ghost var defaults := newInstance.references;
      var size := |immutable.references|;
      for i := 0 to size
        invariant newInstance.references == Copied(immutable.references, defaults, i)
        invariant newInstance.kind == immutable.kind && newInstance.referenceCounter == SlotCount(immutable.kind)
      {
        newInstance.references := newInstance.references[i := Lookup(immutable.references, i)];
      }
      newInstance.references := newInstance.references[index := t];
      ReplacedMeetsReplacement(newInstance, immutable, defaults, index, t);
      r := newInstance;
    }

    /** `invoke(t)`: the same as `set(t)`. */
    method Invoke(t: Value) returns (r: Immutable)
      ensures fresh(r)
      ensures immutable.references == old(immutable.references)
      ensures IsReplacement(r, immutable, index, t)
    {
      r := Set(t);
    }

    /** `mutate(block)` for a block whose two calls returned `first` and
        `second`: throws when `first` is the very value the slot holds, and
        otherwise is `set(second)`. */
    method MutateWith(first: Value, second: Value) returns (r: Outcome<Immutable>)
      ensures r.Thrown? <==> Identical(Get(), first)
      ensures r.Thrown? ==> r.message == SameInstanceMessage
      ensures r.Produced? ==> fresh(r.value) && IsReplacement(r.value, immutable, index, second)
      ensures immutable.references == old(immutable.references)
    {
      var originalInstance := Get();
      if Identical(originalInstance, first) {
        return Thrown(SameInstanceMessage);
      }
      var newInstance := Set(second);
      r := Produced(newInstance);
    }

    /** `mutate(block)` for a block without effects: both calls return
        `block(get())`. */
    method Mutate(block: Value --> Value) returns (r: Outcome<Immutable>)
      requires block.requires(Get())
      ensures r.Thrown? <==> Identical(Get(), block(Get()))
      ensures r.Thrown? ==> r.message == SameInstanceMessage
      ensures r.Produced? ==> fresh(r.value) && IsReplacement(r.value, immutable, index, block(Get()))
      ensures immutable.references == old(immutable.references)
    {
      r := MutateWith(block(Get()), block(Get()));
    }

    /** `invoke(block)`: the same as `mutate(block)`. */
    method InvokeBlock(block: Value --> Value) returns (r: Outcome<Immutable>)
      requires block.requires(Get())
      ensures r.Thrown? <==> Identical(Get(), block(Get()))
      ensures r.Thrown? ==> r.message == SameInstanceMessage
      ensures r.Produced? ==> fresh(r.value) && IsReplacement(r.value, immutable, index, block(Get()))
      ensures immutable.references == old(immutable.references)
    {
      r := Mutate(block);
    }
  }
}

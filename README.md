# imko: copy-on-write value objects, modelled in Dafny

The library `io.sellmair.imko` gives Kotlin classes value semantics. A class
derives from `Immutable<O>`. Its constructor declares attributes as
numbered slots with `ival` (read-only) and `ivar` (replaceable). Each
instance keeps a slot table `references` (index to value) and a counter
`referenceCounter`. Reading a slot returns the stored value. Replacing a
slot never touches the instance. Instead it builds a fresh instance of the
same concrete class through the no-argument constructor, copies indices
`0 until size` from the source table, and writes the new value at the one
index. `mutate(block)` computes `block(get())`. It throws
`IllegalStateException("Mutation returned same instance")` when the result
is the very object the slot holds. Otherwise it calls the block a second
time and replaces the slot with that second result.

The project has three modules.

- `Imko` (`immutable.dfy`) holds the base. The class `Immutable` has the
  fields `references: map<int, Value>` and `referenceCounter`, and a constant
  `kind` naming its concrete class. `Ival`/`Ivar` update the fields in place.
  The accessors `Val` and `Var` are (instance, index) pairs. `Val.Invoke` is
  Kotlin's operator sugar `slot()` for `Get`. The constructors are proved
  against the table function `Declare`. `Var.Set` runs the copy loop into an
  instance built by `CreateInstance`, and is proved against `Copied` (the
  loop invariant) and `Replaced`.
  Because `Immutable` is one class, the example's types `TuningKit`,
  `Engine` and `Car`, their slot-index constants and the test's `Imm` (the
  constructor `TestImm`) are declared here too, not in the modules below.
- `ImkoExample` (`example.dfy`) holds the example's power formula in 32-bit
  Kotlin `Int` arithmetic, one method per replace step of `aliG()`, and
  `AliG` itself. `AliG` yields the printed results 150 / BLUE / YELLOW /
  240 / 690.
- `ImkoTest` (`immutable_test.dfy`) replays the twelve assertions of the unit
  test `ImmutableTest.ivar()`.

The model uses no subclassing: the concrete classes `TuningKit`, `Engine`,
`Car` and the test's `Imm` are named constructors of `Immutable`, told apart
by `kind`. The reflective `createInstance()` becomes `CreateInstance(kind)`,
which runs that class's no-argument constructor. Slot values are one
datatype, `Value`: null, a number, a colour, a string, or a reference to an
instance. So Kotlin's `===` is `==` on `Value`, which is object identity for
references.

Where the example and the base disagree: `ImkoExample.kt` writes
`car { engine { tuningKit { ... } } }` and blocks that use `this` as the slot
value. That needs an `invoke` on `Immutable` itself and blocks with a
receiver, and `Immutable.kt` has neither. The model takes the evident
meaning:
- `x { body }` on an instance evaluates `body` with `x` as the receiver.
- `slot { block }` is that slot's `mutate`, with the slot's current value as
  the block's receiver.

## Model

| member | source | states |
|---|---|---|
| `Imko.Immutable.Ival` | src/main/java/io/sellmair/imko/Immutable.kt:29-34 | the accessor is bound to this instance at the old counter value, the counter rises by exactly one, the table gains the initial value at that index and nothing else, and `get()` on the accessor returns the initial value |
| `Imko.Immutable.Ivar` | src/main/java/io/sellmair/imko/Immutable.kt:36-41 | same as `ival`, returning a replaceable accessor |
| `Imko.Immutable.Bind` | src/main/java/io/sellmair/imko/Immutable.kt:46-48 | Val's `init` writes the initial value at its index and changes nothing else |
| `Imko.DeclareInOrder` | src/main/java/io/sellmair/imko/Immutable.kt:29-41 | successive declarations starting at counter c take the indices c, c+1, ... in declaration order, each holding its own initial value, and leave earlier entries unchanged |
| `Imko.DeclaredTable` | src/main/java/io/sellmair/imko/Immutable.kt:24-41 | a constructor that starts from the empty table and zero counter and declares n slots ends with exactly the indices 0 until n (a table of size n), index i holding the i-th initial value |
| `Imko.LayoutOfTwo` | src/main/java/io/sellmair/imko/Immutable.kt:29-41 | two declarations from the empty table put their values at indices 0 and 1 |
| `Imko.LayoutOfThree` | src/main/java/io/sellmair/imko/Immutable.kt:29-41 | three declarations from the empty table put their values at indices 0, 1 and 2 |
| `Imko.Immutable.TuningKit` | example/src/ImkoExample.kt:20-27 | `TuningKit(boost)` declares boostPerCylinder at index 0 holding the boost; the table has exactly that one entry and the counter is 1 |
| `Imko.Immutable.Engine` | example/src/ImkoExample.kt:29-47 | `Engine(cylinders)` declares baselinePower = 25 at 0, cylinders at 1, tuningKit = null at 2, with counter 3 |
| `Imko.Immutable.Car` | example/src/ImkoExample.kt:49-65 | `Car(modelNumber)` declares modelNumber at 0, colour BLUE at 1 and, at 2, a newly built engine laid out as `Engine(6)`, with counter 3 |
| `Imko.Immutable.TestImm` | src/test/java/io/sellmair/imko/ImmutableTest.kt:31-34 | the test's `Imm()` declares aString = null at 0 and anotherString = "initial" at 1 |
| `Imko.CreateInstance` | src/main/java/io/sellmair/imko/Immutable.kt:61 | builds a new instance of the given concrete class with that class's full slot layout, through its no-argument constructor: `TuningKit()` has boost 0, `Engine()` 0 cylinders, `Car()` model number -1 and colour BLUE, `Imm()` its two initial strings |
| `Imko.CopiedAt` | src/main/java/io/sellmair/imko/Immutable.kt:62-64 | after the copy loop over 0 until n, every index below n holds the source's value (null where the source has none), and every other entry of the fresh table is kept |
| `Imko.ReplacedMeetsReplacement` | src/main/java/io/sellmair/imko/Immutable.kt:61-65 | copying the whole source table into a fresh default instance and then writing `t` at the index gives a replacement: `t` at the index, the source's value at every other index below the source's size, the same concrete class and counter |
| `Imko.Var.Set` | src/main/java/io/sellmair/imko/Immutable.kt:59-67 | `set(t)` returns a new instance of the source's concrete class whose table holds `t` at the accessor's index and the source's values (not the constructor's defaults) at every other index below the source's size; the source's table is unchanged |
| `Imko.ReplacementOfShaped` | src/main/java/io/sellmair/imko/Immutable.kt:59-66 | when the default constructor declares the same slots as the source has, a replacement's table is exactly the source's table with only the replaced index changed, the same size, and again in the class's layout |
| `Imko.ReadAfterReplace` | src/main/java/io/sellmair/imko/Immutable.kt:50-66 | on a replacement of a source in its class's layout, `get()` of the replaced slot returns the new value and `get()` of any other slot returns what it returns on the source |
| `Imko.SiblingsDifferOnlyThere` | src/main/java/io/sellmair/imko/Immutable.kt:59-66 | two replacements of one slot made from the same source differ only at that slot |
| `Imko.Var.Invoke` | src/main/java/io/sellmair/imko/Immutable.kt:69 | `invoke(t)` is `set(t)`, with the same guarantees |
| `Imko.Var.MutateWith` | src/main/java/io/sellmair/imko/Immutable.kt:72-79 | given the results of the block's two calls: throws the IllegalStateException "Mutation returned same instance" exactly when the first result is identical to the value the slot holds, producing no instance; otherwise is `set` of the second result |
| `Imko.Var.Mutate` | src/main/java/io/sellmair/imko/Immutable.kt:72-79 | for a block without effects: throws exactly when `block(get())` is identical to `get()`; otherwise the new instance holds `block(get())` at the index, the source's values elsewhere, and the source is unchanged |
| `Imko.Var.InvokeBlock` | src/main/java/io/sellmair/imko/Immutable.kt:71 | `invoke(block)` is `mutate(block)`, with the same guarantees |
| `ImkoExample.MulOfWrapped` | example/src/ImkoExample.kt:75 | wrapping the sum to 32 bits before multiplying gives the same Int as wrapping only the exact product |
| `ImkoExample.Power` | example/src/ImkoExample.kt:71-76 | `power()` is cylinders * (baselinePower + boost), taking boost as 0 when there is no tuning kit (or its boost is null), computed in Kotlin Int arithmetic: the exact value wrapped once to a 32-bit Int |
| `ImkoExample.NewCarIsCar` | example/src/ImkoExample.kt:49-76 | a car laid out by `Car(n)` is BLUE, has 6 cylinders of baseline power 25, no tuning boost, and power 150 |
| `ImkoExample.Repaint` | example/src/ImkoExample.kt:87 | `car.color { c }` throws when the car already has colour c; otherwise it yields a new car that differs only in colour, shares the engine and has the same power |
| `ImkoExample.InstallKit` | example/src/ImkoExample.kt:96-100 | the engine block installing `TuningKit(boost)` never throws and yields a new engine, equal to the old one except for a new tuning kit holding that boost |
| `ImkoExample.TuneCar` | example/src/ImkoExample.kt:95-101 | the nested replace yields a new car, changed only in its engine, whose engine keeps cylinders and baseline power and carries the given boost, so its power is cylinders * (baseline + boost) |
| `ImkoExample.ScaleKit` | example/src/ImkoExample.kt:114-119 | the kit block leaves a null kit null; on a kit with boost b it throws exactly when cylinders * b equals b, and otherwise yields a new kit with boost cylinders * b |
| `ImkoExample.ScaleEngine` | example/src/ImkoExample.kt:112-121 | the engine block throws on an engine without a tuning kit (the kit block returns the same null) and when the boost does not change; otherwise it yields a new engine whose kit's boost is cylinders * b |
| `ImkoExample.ScaleCar` | example/src/ImkoExample.kt:111-122 | the second tuning step throws in the same cases, and otherwise yields a new car, changed only in its engine, with boost cylinders * b and power cylinders * (baseline + cylinders * b) |
| `ImkoExample.AliG` | example/src/ImkoExample.kt:80-128 | `Car(1)` has power 150 and is BLUE; the yellow copy is YELLOW while the first car stays BLUE; the tuned copy has power 240 while the yellow car keeps 150; the scaled copy has boost 90 and power 690 while the tuned car keeps 240 |
| `ImkoTest.IvarTest` | src/test/java/io/sellmair/imko/ImmutableTest.kt:37-70 | the twelve values the test asserts: initial values on a new instance, the replaced value plus the other slot's old value after each replace, and all three instances reading exactly as before once the later ones exist |

## Left out

- Reflection failure: a concrete class without a no-argument constructor makes `createInstance()` throw. That is a host-runtime error. Here every class has such a constructor, so `CreateInstance` always succeeds.
- Unchecked casts (`as T`, `as O`) and their ClassCastException or NullPointerException. Slot values are one datatype. The example's readers instead require well-typed slots:
  - `IsCar` asks for an engine in the engine slot, since `set(null)` could store null there and `power()` would then throw. It does not constrain the model number or the colour.
  - `IsEngine` asks for Int baseline power and cylinders and a null-or-TuningKit kit, which is what `power()` reads.
  - `Colour` alone asks for `Painted`, a colour rather than null in the colour slot.
  - `KitBoostIsInt` is asked only by the scaling steps, whose `cylinders() * this` needs an Int boost.
  - `IsCar`, `IsEngine`, `IsTuningKit` also ask for `Shaped` (the class's slot layout), which `power()` does not read. Every instance a constructor, `CreateInstance` or a replace of such an instance builds has it (`ReplacementOfShaped`). An instance with some other table is not reachable in the program.
- `Imko.Var.Set`: the contract names only the keys of entries that exist in the fresh instance's default layout but not below the source's size. Their values stay the constructor's placeholders, which for a car include a newly built engine. When the source has its class's layout, as every instance built by a constructor or a replace does, no such entries exist and `ReplacementOfShaped` pins the whole table down.
- `Imko.Identical`: boxed numbers and strings count as identical when their values are equal. On the JVM a separately boxed Int outside the Integer cache (-128..127), or a string built at run time, is a different object even when equal. `ScaleKit` with one cylinder, for instance, throws in the model for every boost.
- `Imko.Var.MutateWith`: the caller evaluates the block's second call before the identity check, while the source evaluates it after. The two differ only for blocks with effects other than building objects. `Mutate` covers blocks without effects, where both calls give `block(get())`.
- Blocks that read or change mutable state: Dafny functions cannot allocate or write. For the example's blocks, which build objects, the scenario methods run each block twice, as `mutate` does.
- `java.awt.Color` is a foreign library. Only the two constants BLUE and YELLOW are modelled, as the datatype `Imko.Color`.
- The example's `print` and `main`, and the printed text (ImkoExample.kt:130-136), are I/O only. `AliG` returns the printed values instead.
- The JUnit harness itself. `IvarTest` states the values its assertions compare.
- Kotlin `Long` (the model number) is an unbounded `int`. No arithmetic is done on it.
- Concurrency and memory publication: the source has none.

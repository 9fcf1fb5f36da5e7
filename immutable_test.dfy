/** The library's unit test (ImmutableTest.kt): a value type with two mutable
    String slots, replaced one after the other, with every instance read again
    at the end. */
module ImkoTest {
  import opened Imko

  const InitialAString: Value := Null
  const ExpectedAString: Value := Text("expectedA")
  const InitialAnotherString: Value := Text("initial")
  const ExpectedAnotherString: Value := Text("expected")

  /** `ImmutableTest.ivar()`: the values its twelve assertions read, in order.
      Each replace yields the new value in its slot and the old value in the
      other, and the earlier instances read as before once the later ones exist. */
  method IvarTest() returns (observed: seq<Value>)
    ensures observed == [
      InitialAString, InitialAnotherString,
      ExpectedAString, InitialAnotherString,
      ExpectedAString, ExpectedAnotherString,
      InitialAString, InitialAnotherString,
      ExpectedAString, InitialAnotherString,
      ExpectedAString, ExpectedAnotherString]
  {
    var mutation0 := new Immutable.TestImm();
    var a0, b0 := Var(mutation0, TestAString).Get(), Var(mutation0, TestAnotherString).Get();

    var first := Var(mutation0, TestAString).Mutate(_ => ExpectedAString);
    var mutation1 := first.value;
    ReplacementOfShaped(mutation1, mutation0, TestAString, ExpectedAString);
    var a1, b1 := Var(mutation1, TestAString).Get(), Var(mutation1, TestAnotherString).Get();

    var second := Var(mutation1, TestAnotherString).Mutate(_ => ExpectedAnotherString);
    var mutation2 := second.value;
    ReplacementOfShaped(mutation2, mutation1, TestAnotherString, ExpectedAnotherString);
    var a2, b2 := Var(mutation2, TestAString).Get(), Var(mutation2, TestAnotherString).Get();

    var a0', b0' := Var(mutation0, TestAString).Get(), Var(mutation0, TestAnotherString).Get();
    var a1', b1' := Var(mutation1, TestAString).Get(), Var(mutation1, TestAnotherString).Get();
    var a2', b2' := Var(mutation2, TestAString).Get(), Var(mutation2, TestAnotherString).Get();
    observed := [a0, b0, a1, b1, a2, b2, a0', b0', a1', b1', a2', b2'];
  }
}

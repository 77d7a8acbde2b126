/** The two shipped `singleton` rules side by side: they give the same
    objects while the signature repeats, and, once an object is stored,
    part ways at the first call with a different signature. */
module SingletonContrast {
  import opened PyValues
  import Singleton
  import SingletonFirst

  /** The two wrappers' states describe the same history of calls with
      signature `sig`: the same number of constructor calls, and the same
      stored object, recorded with `sig` by the current rule. */
  predicate Corresponds(cls: ClassId, sig: Signature, a: Singleton.State, b: SingletonFirst.State)
  {
    && Singleton.WellFormed(cls, a)
    && SingletonFirst.WellFormed(cls, b)
    && a.calls == b.calls
    && (cls in a.table <==> cls in b.table)
    && (cls in a.table ==> a.table[cls] == Singleton.Entry(sig, b.table[cls]))
  }

  /** A single call with signature `sig` gives the same result under both
      rules and keeps the states corresponding. */
  lemma StepAgrees(cls: ClassId, sig: Signature, a: Singleton.State, b: SingletonFirst.State, ctor: CtorOutcome)
    requires Corresponds(cls, sig, a, b)
    ensures Singleton.Step(cls, a, sig, ctor).1 == SingletonFirst.Step(cls, b, sig, ctor).1
    ensures Corresponds(cls, sig, Singleton.Step(cls, a, sig, ctor).0, SingletonFirst.Step(cls, b, sig, ctor).0)
  {
  }

  /** Calls that all pass the same signature cannot tell the two rules
      apart: from corresponding states, both return the same object on every
      call and end in corresponding states. */
  lemma {:induction false} AgreeOnRepeatedSignature(cls: ClassId, sig: Signature, a: Singleton.State, b: SingletonFirst.State,
                                                     run: seq<CtorOutcome>)
    requires Corresponds(cls, sig, a, b)
    ensures var ra := Singleton.Replay(cls, a, seq(|run|, i requires 0 <= i < |run| => Singleton.Invocation(sig, run[i])));
      var rb := SingletonFirst.Replay(cls, b, seq(|run|, i requires 0 <= i < |run| => SingletonFirst.Invocation(sig, run[i])));
      ra.1 == rb.1 && Corresponds(cls, sig, ra.0, rb.0)
    decreases |run|
  {
    var runA := seq(|run|, i requires 0 <= i < |run| => Singleton.Invocation(sig, run[i]));
    var runB := seq(|run|, i requires 0 <= i < |run| => SingletonFirst.Invocation(sig, run[i]));
    if run != [] {
      StepAgrees(cls, sig, a, b, run[0]);
      var a1 := Singleton.Step(cls, a, sig, run[0]).0;
      var b1 := SingletonFirst.Step(cls, b, sig, run[0]).0;
      AgreeOnRepeatedSignature(cls, sig, a1, b1, run[1..]);
      assert runA[1..] == seq(|run[1..]|, i requires 0 <= i < |run[1..]| => Singleton.Invocation(sig, run[1..][i]));
      assert runB[1..] == seq(|run[1..]|, i requires 0 <= i < |run[1..]| => SingletonFirst.Invocation(sig, run[1..][i]));
    }
  }

  /** A freshly decorated class behaves the same under both rules as long as
      every call passes the same arguments. */
  lemma FreshWrappersAgree(cls: ClassId, sig: Signature, run: seq<CtorOutcome>)
    ensures Singleton.Replay(cls, Singleton.Empty(), seq(|run|, i requires 0 <= i < |run| => Singleton.Invocation(sig, run[i]))).1
         == SingletonFirst.Replay(cls, SingletonFirst.Empty(), seq(|run|, i requires 0 <= i < |run| => SingletonFirst.Invocation(sig, run[i]))).1
  {
    AgreeOnRepeatedSignature(cls, sig, Singleton.Empty(), SingletonFirst.Empty(), run);
  }

  /** A(x) then A(y) with different signatures: the current rule builds two
      objects, the older rule returns the first object again. */
  lemma DifferOnNewSignature(cls: ClassId, x: Signature, y: Signature)
    requires x != y
    ensures var (_, ra) := Singleton.Replay(cls, Singleton.Empty(), [Singleton.Invocation(x, Builds), Singleton.Invocation(y, Builds)]);
      ra[0].Ok? && ra[1].Ok? && ra[0] != ra[1]
    ensures var (_, rb) := SingletonFirst.Replay(cls, SingletonFirst.Empty(), [SingletonFirst.Invocation(x, Builds), SingletonFirst.Invocation(y, Builds)]);
      rb[0].Ok? && rb[0] == rb[1]
  {
  }
}

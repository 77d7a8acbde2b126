/** The current `singleton` decorator: each decorated class gets a table
    `previous_instances` holding, under the class, the signature of the last
    call that built an object and that object. A call with the same signature
    gets the stored object; any other call calls the class and, when that
    returns an object, overwrites the record with it. */
module Singleton {
  import opened PyValues

  /** The record kept in `previous_instances[cls]`. */
  datatype Entry = Entry(args: Signature, instance: Instance)

  /** The state of one wrapper: its table, and how many times it has called
      the class (each call hands out a fresh object identity). */
  datatype State = State(table: map<ClassId, Entry>, calls: nat)

  /** The table holds at most one key, the decorated class itself, and the
      stored object is one this wrapper built. */
  predicate WellFormed(cls: ClassId, st: State)
  {
    && st.table.Keys <= {cls}
    && (cls in st.table ==> st.table[cls].instance.cls == cls && st.table[cls].instance.serial < st.calls)
  }

  /** The table starts empty when the class is decorated. */
  function Empty(): State { State(map[], 0) }

  /** A call with signature `sig` finds a record with an equal signature. */
  predicate IsHit(cls: ClassId, st: State, sig: Signature)
  {
    cls in st.table && st.table[cls].args == sig
  }

  /** One call of the wrapper with signature `sig`, where `ctor` is what the
      class's constructor would do if called. */
  function Step(cls: ClassId, st: State, sig: Signature, ctor: CtorOutcome): (r: (State, Result<Instance>))
    ensures WellFormed(cls, st) ==> WellFormed(cls, r.0)
    ensures IsHit(cls, st, sig) ==> r == (st, Ok(st.table[cls].instance))
    ensures r.0.calls == st.calls + (if IsHit(cls, st, sig) then 0 else 1)
    ensures r.1.Ok? ==> IsHit(cls, r.0, sig) && r.0.table[cls].instance == r.1.value
    ensures r.1.Propagated? <==> !IsHit(cls, st, sig) && ctor.CtorRaises?
    ensures r.1.Propagated? ==> r.0.table == st.table && ctor == CtorRaises(r.1.msg)
  {
    if IsHit(cls, st, sig) then (st, Ok(st.table[cls].instance))
    else
      match ctor
      case CtorRaises(msg) => (State(st.table, st.calls + 1), Propagated(msg))
      case Builds =>
        var inst := Instance(cls, st.calls);
        (State(st.table[cls := Entry(sig, inst)], st.calls + 1), Ok(inst))
  }

  /** A hit returns the stored object and does not call the constructor. */
  lemma HitReturnsStored(cls: ClassId, st: State, sig: Signature, ctor: CtorOutcome)
    requires IsHit(cls, st, sig)
    ensures Step(cls, st, sig, ctor) == (st, Ok(st.table[cls].instance))
  {
  }

  /** A miss (no record, or a record with another signature) calls the
      constructor exactly once; when it builds, the record becomes
      `(sig, new object)` and the new object is returned. */
  lemma MissBuildsOne(cls: ClassId, st: State, sig: Signature)
    requires WellFormed(cls, st)
    requires !IsHit(cls, st, sig)
    ensures var (st', r) := Step(cls, st, sig, Builds);
      && st'.calls == st.calls + 1
      && st'.table == map[cls := Entry(sig, r.value)]
      && r.Ok? && r.value.cls == cls
      && (cls in st.table ==> r.value != st.table[cls].instance)
  {
  }

  /** A constructor that raises lets the exception through and leaves the
      old record in place. */
  lemma FailedBuildKeepsRecord(cls: ClassId, st: State, sig: Signature, msg: string)
    requires !IsHit(cls, st, sig)
    ensures Step(cls, st, sig, CtorRaises(msg)) == (State(st.table, st.calls + 1), Propagated(msg))
  {
  }

  /** One call of the wrapper as the program's text runs it, in the order of
      its calls. */
  datatype Invocation = Invocation(sig: Signature, ctor: CtorOutcome)

  /** A run of calls of one wrapper: the final state and each call's result. */
  function Replay(cls: ClassId, st: State, run: seq<Invocation>): (r: (State, seq<Result<Instance>>))
    ensures |r.1| == |run|
    ensures WellFormed(cls, st) ==> WellFormed(cls, r.0)
    ensures r.0.calls >= st.calls
    decreases |run|
  {
    if run == [] then (st, [])
    else
      var (st1, x) := Step(cls, st, run[0].sig, run[0].ctor);
      var (st2, xs) := Replay(cls, st1, run[1..]);
      (st2, [x] + xs)
  }

  /** Once a record with signature `sig` exists, any number of further calls
      with that signature return the stored object and never call the
      constructor, whatever it would have done. */
  lemma {:induction false} RepeatedSignatureHits(cls: ClassId, st: State, sig: Signature, run: seq<Invocation>)
    requires IsHit(cls, st, sig)
    requires forall i :: 0 <= i < |run| ==> run[i].sig == sig
    ensures Replay(cls, st, run).0 == st
    ensures forall i :: 0 <= i < |run| ==> Replay(cls, st, run).1[i] == Ok(st.table[cls].instance)
    decreases |run|
  {
    if run != [] {
      RepeatedSignatureHits(cls, st, sig, run[1..]);
    }
  }

  /** A call that builds hands out an identity no earlier call of this
      wrapper returned: every object a run returns either was in the table
      when the run began or has a serial from the run itself. */
  lemma {:induction false} ReturnedObjectsAreKnownOrNew(cls: ClassId, st: State, run: seq<Invocation>)
    requires WellFormed(cls, st)
    ensures var (st', rs) := Replay(cls, st, run);
      forall i :: 0 <= i < |rs| && rs[i].Ok? ==>
        (cls in st.table && rs[i].value == st.table[cls].instance)
        || (rs[i].value.cls == cls && st.calls <= rs[i].value.serial < st'.calls)
    decreases |run|
  {
    if run != [] {
      var (st1, x) := Step(cls, st, run[0].sig, run[0].ctor);
      ReturnedObjectsAreKnownOrNew(cls, st1, run[1..]);
      var (st', rs) := Replay(cls, st, run);
      assert rs == [x] + Replay(cls, st1, run[1..]).1;
      assert st' == Replay(cls, st1, run[1..]).0;
      assert st1.calls <= st'.calls;
      assert cls in st1.table ==>
        (cls in st.table && st1.table[cls].instance == st.table[cls].instance)
        || (st1.table[cls].instance == Instance(cls, st.calls) && st1.calls == st.calls + 1);
      forall i | 0 <= i < |rs| && rs[i].Ok?
        ensures (cls in st.table && rs[i].value == st.table[cls].instance)
          || (rs[i].value.cls == cls && st.calls <= rs[i].value.serial < st'.calls)
      {
        if i > 0 {
          assert rs[i] == Replay(cls, st1, run[1..]).1[i - 1];
        }
      }
    }
  }

  /** Overwrite, not append: after A(x), A(y), A(x) with x and y different,
      the third call builds a new object rather than returning the first. */
  lemma OverwriteNotAppend(cls: ClassId, x: Signature, y: Signature)
    requires x != y
    ensures var (st, rs) := Replay(cls, Empty(), [Invocation(x, Builds), Invocation(y, Builds), Invocation(x, Builds)]);
      && rs == [Ok(Instance(cls, 0)), Ok(Instance(cls, 1)), Ok(Instance(cls, 2))]
      && st.table == map[cls := Entry(x, Instance(cls, 2))]
  {
    var run := [Invocation(x, Builds), Invocation(y, Builds), Invocation(x, Builds)];
    var s1 := State(map[cls := Entry(x, Instance(cls, 0))], 1);
    var s2 := State(map[cls := Entry(y, Instance(cls, 1))], 2);
    var s3 := State(map[cls := Entry(x, Instance(cls, 2))], 3);
    assert Step(cls, Empty(), x, Builds) == (s1, Ok(Instance(cls, 0)));
    assert s1.table[cls := Entry(y, Instance(cls, 1))] == s2.table;
    assert Step(cls, s1, y, Builds) == (s2, Ok(Instance(cls, 1)));
    assert s2.table[cls := Entry(x, Instance(cls, 2))] == s3.table;
    assert Step(cls, s2, x, Builds) == (s3, Ok(Instance(cls, 2)));
    var last := [Invocation(x, Builds)];
    assert run[1..][1..] == last && last[1..] == [];
    assert Replay(cls, s3, last[1..]) == (s3, []);
    assert last[0].sig == x && last[0].ctor == Builds;
    assert Step(cls, s2, last[0].sig, last[0].ctor) == (s3, Ok(Instance(cls, 2)));
    assert Replay(cls, s2, last).1 == [Ok(Instance(cls, 2))];
    assert Replay(cls, s2, last).0 == s3;
  }

  /** The docstring's example: A(name='Siddhesh') is not
      A(name='Siddhesh', lname='Sathe'), and the latter called twice gives
      the same object. */
  lemma DocstringScenario(cls: ClassId)
    ensures var a := Signature([], map["name" := Str("Siddhesh")]);
      var b := Signature([], map["name" := Str("Siddhesh"), "lname" := Str("Sathe")]);
      var (_, rs) := Replay(cls, Empty(), [Invocation(a, Builds), Invocation(b, Builds), Invocation(b, Builds)]);
      rs[0] != rs[1] && rs[1] == rs[2]
  {
    var a := Signature([], map["name" := Str("Siddhesh")]);
    var b := Signature([], map["name" := Str("Siddhesh"), "lname" := Str("Sathe")]);
    assert "lname" in b.kwargs && "lname" !in a.kwargs;
    var run := [Invocation(a, Builds), Invocation(b, Builds), Invocation(b, Builds)];
    var s1 := State(map[cls := Entry(a, Instance(cls, 0))], 1);
    var s2 := State(map[cls := Entry(b, Instance(cls, 1))], 2);
    assert Step(cls, Empty(), a, Builds) == (s1, Ok(Instance(cls, 0)));
    assert s1.table[cls := Entry(b, Instance(cls, 1))] == s2.table;
    assert Step(cls, s1, b, Builds) == (s2, Ok(Instance(cls, 1)));
    var last := [Invocation(b, Builds)];
    assert run[1..][1..] == last && last[1..] == [];
    assert Replay(cls, s2, last[1..]) == (s2, []);
    assert Step(cls, s2, last[0].sig, last[0].ctor) == (s2, Ok(Instance(cls, 1)));
    assert Replay(cls, s2, last).1 == [Ok(Instance(cls, 1))];
  }

  /** The closure created by applying `singleton` to one class. */
  class SingletonWrapper {
    const cls: ClassId
    var previousInstances: map<ClassId, Entry>
    var constructorCalls: nat

    function Current(): State
      reads this
    {
      State(previousInstances, constructorCalls)
    }

    ghost predicate Valid()
      reads this
    {
      WellFormed(cls, Current())
    }

    /** Decorating `cls` creates an empty table for it. */
    constructor (cls: ClassId)
      ensures this.cls == cls && Current() == Empty() && Valid()
    {
      this.cls := cls;
      previousInstances := map[];
      constructorCalls := 0;
    }

    /** `wrapper(*args, **kwargs)`: return the stored object when the stored
        signature equals `(args, kwargs)`; otherwise call the class and
        overwrite the record with the new signature and object. */
    method Call(args: seq<Value>, kwargs: map<string, Value>, ctor: CtorOutcome) returns (r: Result<Instance>)
      requires Valid()
      modifies this
      ensures Valid()
      ensures (Current(), r) == Step(cls, old(Current()), Signature(args, kwargs), ctor)
      ensures old(IsHit(cls, Current(), Signature(args, kwargs)))
        ==> r == Ok(old(previousInstances[cls].instance)) && Current() == old(Current())
      ensures !old(IsHit(cls, Current(), Signature(args, kwargs)))
        ==> constructorCalls == old(constructorCalls) + 1
      ensures !old(IsHit(cls, Current(), Signature(args, kwargs))) && ctor.Builds?
        ==> r == Ok(Instance(cls, old(constructorCalls)))
            && previousInstances == map[cls := Entry(Signature(args, kwargs), r.value)]
      ensures ctor.CtorRaises? ==> previousInstances == old(previousInstances)
    {
      var sig := Signature(args, kwargs);
      if cls in previousInstances && previousInstances[cls].args == sig {
        r := Ok(previousInstances[cls].instance);
      } else {
        // The constructor runs before the record is written; if it raises,
        // the assignment never happens.
        var serial := constructorCalls;
        constructorCalls := constructorCalls + 1;
        match ctor
        case CtorRaises(msg) =>
          r := Propagated(msg);
        case Builds =>
          var inst := Instance(cls, serial);
          previousInstances := previousInstances[cls := Entry(sig, inst)];
          r := Ok(inst);
      }
    }
  }

  /** Two decorated classes have two tables: calling one wrapper leaves the
      other's record as it was. */
  method CallOther(a: SingletonWrapper, b: SingletonWrapper, args: seq<Value>, kwargs: map<string, Value>, ctor: CtorOutcome)
    returns (r: Result<Instance>)
    requires a != b && b.Valid()
    modifies b
    ensures a.Current() == old(a.Current())
    ensures b.Valid()
    ensures (b.Current(), r) == Step(b.cls, old(b.Current()), Signature(args, kwargs), ctor)
  {
    r := b.Call(args, kwargs, ctor);
  }

  /** The docstring's example run against a freshly decorated class, using
      nothing but the contract of `SingletonWrapper.Call`. */
  method DocstringExample() returns (a: Result<Instance>, b: Result<Instance>, c: Result<Instance>)
    ensures a.Ok? && b.Ok? && a != b && b == c
  {
    var w := new SingletonWrapper("A");
    a := w.Call([], map["name" := Str("Siddhesh")], Builds);
    assert "lname" !in w.previousInstances["A"].args.kwargs;
    b := w.Call([], map["name" := Str("Siddhesh"), "lname" := Str("Sathe")], Builds);
    c := w.Call([], map["name" := Str("Siddhesh"), "lname" := Str("Sathe")], Builds);
  }
}

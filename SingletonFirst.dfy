/** The older `singleton` decorator shipped in the build directory: the first
    call that builds an object stores it under the class, and every later
    call returns that object, whatever its arguments. */
module SingletonFirst {
  import opened PyValues

  /** The state of one wrapper: `previous_instances`, mapping the class to
      its one object, and how many times the wrapper has called the class. */
  datatype State = State(table: map<ClassId, Instance>, calls: nat)

  /** The table holds at most one key, the decorated class itself, and the
      stored object is one this wrapper built. */
  predicate WellFormed(cls: ClassId, st: State)
  {
    && st.table.Keys <= {cls}
    && (cls in st.table ==> st.table[cls].cls == cls && st.table[cls].serial < st.calls)
  }

  /** The table starts empty when the class is decorated. */
  function Empty(): State { State(map[], 0) }

  /** One call of the wrapper. The signature is accepted and only passed to
      the constructor, if the constructor runs at all. */
  function Step(cls: ClassId, st: State, sig: Signature, ctor: CtorOutcome): (r: (State, Result<Instance>))
    ensures WellFormed(cls, st) ==> WellFormed(cls, r.0)
    ensures cls in st.table ==> r == (st, Ok(st.table[cls]))
    ensures r.1.Ok? ==> cls in r.0.table && r.0.table[cls] == r.1.value
    ensures r.1.Propagated? <==> cls !in st.table && ctor.CtorRaises?
    ensures r.1.Propagated? ==> r.0.table == st.table && ctor == CtorRaises(r.1.msg)
  {
    if cls !in st.table then
      match ctor
      case CtorRaises(msg) => (State(st.table, st.calls + 1), Propagated(msg))
      case Builds =>
        var inst := Instance(cls, st.calls);
        (State(st.table[cls := inst], st.calls + 1), Ok(inst))
    else (st, Ok(st.table[cls]))
  }

  /** The first call, with an empty table, calls the class once and stores
      the object it builds under the class. */
  lemma FirstCallBuilds(cls: ClassId, sig: Signature)
    ensures Step(cls, Empty(), sig, Builds) == (State(map[cls := Instance(cls, 0)], 1), Ok(Instance(cls, 0)))
  {
  }

  /** A run of calls of one wrapper, each with its signature and what the
      constructor would do. */
  datatype Invocation = Invocation(sig: Signature, ctor: CtorOutcome)

  /** A run of calls of one wrapper: the final state and each call's result. */
  function Replay(cls: ClassId, st: State, run: seq<Invocation>): (r: (State, seq<Result<Instance>>))
    ensures |r.1| == |run|
    ensures WellFormed(cls, st) ==> WellFormed(cls, r.0)
    decreases |run|
  {
    if run == [] then (st, [])
    else
      var (st1, x) := Step(cls, st, run[0].sig, run[0].ctor);
      var (st2, xs) := Replay(cls, st1, run[1..]);
      (st2, [x] + xs)
  }

  /** Once the object is stored, every later call returns it, the
      constructor is never called again and the table never changes,
      whatever the arguments and whatever the constructor would do. */
  lemma {:induction false} StoredForever(cls: ClassId, st: State, run: seq<Invocation>)
    requires cls in st.table
    ensures Replay(cls, st, run).0 == st
    ensures forall i :: 0 <= i < |run| ==> Replay(cls, st, run).1[i] == Ok(st.table[cls])
    decreases |run|
  {
    if run != [] {
      StoredForever(cls, st, run[1..]);
    }
  }

  /** The docstring's example: `a = A()` and `b = A()` give one object. */
  lemma DocstringScenario(cls: ClassId)
    ensures var (_, rs) := Replay(cls, Empty(), [Invocation(Signature([], map[]), Builds), Invocation(Signature([], map[]), Builds)]);
      rs[0] == rs[1] == Ok(Instance(cls, 0))
  {
  }

  /** The closure created by applying the older `singleton` to one class. */
  class FirstInstanceWrapper {
    const cls: ClassId
    var previousInstances: map<ClassId, Instance>
    var constructorCalls: nat

    function Current(): State
      reads this
    {
      State(previousInstances, constructorCalls)
    }

    ghost predicate Valid()
      reads this
    {
      WellFormed(cls, Current())
    }

    /** Decorating `cls` creates an empty table for it. */
    constructor (cls: ClassId)
      ensures this.cls == cls && Current() == Empty() && Valid()
    {
      this.cls := cls;
      previousInstances := map[];
      constructorCalls := 0;
    }

    /** `wrapper(*args, **kwargs)`: call the class only if nothing is stored
        yet, then return what is stored. */
    method Call(args: seq<Value>, kwargs: map<string, Value>, ctor: CtorOutcome) returns (r: Result<Instance>)
      requires Valid()
      modifies this
      ensures Valid()
      ensures (Current(), r) == Step(cls, old(Current()), Signature(args, kwargs), ctor)
      ensures cls in old(previousInstances) ==> r == Ok(old(previousInstances[cls])) && Current() == old(Current())
      ensures cls !in old(previousInstances) ==> constructorCalls == old(constructorCalls) + 1
      ensures cls !in old(previousInstances) && ctor.Builds?
        ==> r == Ok(Instance(cls, old(constructorCalls))) && previousInstances == map[cls := r.value]
      ensures ctor.CtorRaises? ==> previousInstances == old(previousInstances)
    {
      if cls !in previousInstances {
        // If the constructor raises, nothing is inserted and the exception
        // reaches the caller.
        var serial := constructorCalls;
        constructorCalls := constructorCalls + 1;
        match ctor
        case CtorRaises(msg) =>
          r := Propagated(msg);
          return;
        case Builds =>
          previousInstances := previousInstances[cls := Instance(cls, serial)];
      }
      r := Ok(previousInstances[cls]);
    }
  }
}

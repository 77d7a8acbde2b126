/** Python values as they reach a decorator's wrapper, the `(args, kwargs)`
    signature the singleton wrapper stores, and the objects a decorated class
    builds. */
module PyValues {

  /** An argument value. Only kinds whose Python `==` is structural are
      modelled: None, integers, strings and tuples of those. */
  datatype Value = NoneValue | Int(i: int) | Str(s: string) | Tuple(items: seq<Value>)

  /** The pair `(args, kwargs)` of one call: positional arguments as a tuple,
      keyword arguments as a dict from name to value. */
  datatype Signature = Signature(args: seq<Value>, kwargs: map<string, Value>)

  /** Python's `==` on `(args, kwargs)` spelled out: the tuples element by
      element, the dicts as sets of name/value pairs regardless of order. */
  predicate SameSignature(s: Signature, t: Signature)
  {
    && |s.args| == |t.args|
    && (forall i :: 0 <= i < |s.args| ==> s.args[i] == t.args[i])
    && s.kwargs.Keys == t.kwargs.Keys
    && (forall k :: k in s.kwargs ==> s.kwargs[k] == t.kwargs[k])
  }

  /** Equality of the Signature datatype is exactly Python's signature
      equality, so the model may compare signatures with `==`. */
  lemma SignatureEquality(s: Signature, t: Signature)
    ensures s == t <==> SameSignature(s, t)
  {
  }

  /** The names of a list of `name=value` keyword arguments are pairwise distinct. */
  predicate DistinctNames(keywords: seq<(string, Value)>)
  {
    forall i, j :: 0 <= i < j < |keywords| ==> keywords[i].0 != keywords[j].0
  }

  /** How Python gathers the `name=value` arguments of a call into the
      wrapper's `**kwargs` dict, in the order they are written. A name given
      twice is an error of the call itself (None): the wrapper never runs. */
  function CollectKwargs(keywords: seq<(string, Value)>): (r: Option<map<string, Value>>)
    ensures r.Some? <==> DistinctNames(keywords)
    ensures r.Some? ==> r.value.Keys == set i | 0 <= i < |keywords| :: keywords[i].0
    ensures r.Some? ==> forall i :: 0 <= i < |keywords| ==> r.value[keywords[i].0] == keywords[i].1
    decreases |keywords|
  {
    if keywords == [] then Some(map[])
    else
      var front := keywords[..|keywords| - 1];
      var last := keywords[|keywords| - 1];
      match CollectKwargs(front)
      case None => None
      case Some(m) =>
        if last.0 in m then
          assert exists i :: 0 <= i < |front| && front[i].0 == last.0;
          None
        else
          assert forall i :: 0 <= i < |front| ==> front[i] == keywords[i];
          Some(m[last.0 := last.1])
  }

  /** Writing the same keyword arguments in another order binds the same
      `**kwargs` dict, hence the same signature. */
  lemma {:induction false} KeywordOrderIrrelevant(p: seq<(string, Value)>, q: seq<(string, Value)>)
    requires DistinctNames(p) && DistinctNames(q)
    requires forall x :: x in p <==> x in q
    ensures CollectKwargs(p) == CollectKwargs(q)
  {
    var mp, mq := CollectKwargs(p).value, CollectKwargs(q).value;
    forall k | k in mp
      ensures k in mq && mp[k] == mq[k]
    {
      var i :| 0 <= i < |p| && p[i].0 == k;
      assert p[i] in q;
      var j :| 0 <= j < |q| && q[j] == p[i];
    }
    forall k | k in mq
      ensures k in mp
    {
      var j :| 0 <= j < |q| && q[j].0 == k;
      assert q[j] in p;
      var i :| 0 <= i < |p| && p[i] == q[j];
    }
    assert mp == mq;
  }

  /** A decorated class, identified by its qualified name. */
  type ClassId = string

  /** The identity of an object built by a decorated class: the class and a
      serial number. Two results are the same object (`is`) exactly when they
      are equal. */
  datatype Instance = Instance(cls: ClassId, serial: nat)

  /** What `cls(*args, **kwargs)` does when a wrapper calls it. The
      constructor is foreign code, so its behaviour is an input. */
  datatype CtorOutcome = Builds | CtorRaises(msg: string)

  /** What a call of a singleton wrapper gives its caller: an object, or the
      constructor's exception, which the wrapper lets through. */
  datatype Result<T> = Ok(value: T) | Propagated(msg: string)

  datatype Option<T> = None | Some(value: T)
}

/** The `trycatch` decorator: run the wrapped function, and if it raises an
    `Exception`, log one line and carry on. Both shipped copies of the
    decorator have the same wrapper, so one model serves both. */
module Guard {
  import opened PyValues

  /** What the wrapped function does when the wrapper calls it: return,
      raise an instance of `Exception` (which `except Exception` catches), or
      raise something outside that class, such as `SystemExit`,
      `KeyboardInterrupt` or, under Python 2.7, an old-style class instance. */
  datatype Outcome<T> = Returns(value: T) | Raises(msg: string) | RaisesNonException(msg: string)

  /** What the caller of the wrapper observes, with the log after the call:
      either the wrapper returns (None is Python's None), or an exception the
      wrapper does not catch reaches the caller. */
  datatype Guarded<T> = Guarded(returned: Option<T>, log: seq<string>) | Escaped(msg: string, log: seq<string>)

  const Prefix: string := "Exception occurred: ["
  const Suffix: string := "]"

  /** The message the wrapper logs for an exception whose `str` is `msg`. */
  function ExceptionLine(msg: string): (line: string)
    ensures |line| == |Prefix| + |msg| + |Suffix|
    ensures line[..|Prefix|] == Prefix && line[|Prefix| + |msg|..] == Suffix
    ensures line[|Prefix|..|Prefix| + |msg|] == msg
  {
    Prefix + msg + Suffix
  }

  /** Reads the exception message back out of a logged line, if the line has
      the shape the wrapper writes. */
  function ParseExceptionLine(line: string): (r: Option<string>)
    ensures r.Some? ==> ExceptionLine(r.value) == line
  {
    if |line| >= |Prefix| + |Suffix| && line[..|Prefix|] == Prefix && line[|line| - |Suffix|..] == Suffix
    then
      var msg := line[|Prefix|..|line| - |Suffix|];
      assert line == line[..|Prefix|] + msg + line[|line| - |Suffix|..];
      Some(msg)
    else None
  }

  /** A logged line determines the exception message it reports. */
  lemma ExceptionLineRoundTrip(msg: string)
    ensures ParseExceptionLine(ExceptionLine(msg)) == Some(msg)
  {
  }

  /** The wrapper as written: the wrapped function's value is not returned,
      so a caller the wrapper returns to always gets None. An `Exception` is
      caught and reported by exactly one appended line; any other exception
      passes through unlogged; a returning call logs nothing. */
  function TryCatch<T>(call: Outcome<T>, log: seq<string>): (r: Guarded<T>)
    ensures call.RaisesNonException? <==> r.Escaped?
    ensures call.RaisesNonException? ==> r == Escaped(call.msg, log)
    ensures r.Guarded? ==> r.returned == None
    ensures |r.log| == |log| + (if call.Raises? then 1 else 0)
    ensures r.log[..|log|] == log
    ensures call.Raises? ==> ParseExceptionLine(r.log[|log|]) == Some(call.msg)
  {
    match call
    case Returns(_) => Guarded(None, log)
    case Raises(msg) =>
      ExceptionLineRoundTrip(msg);
      Guarded(None, log + [ExceptionLine(msg)])
    case RaisesNonException(msg) => Escaped(msg, log)
  }

  /** The scenario of the test suite: a function indexing `[][2]` raises
      "list index out of range"; the wrapper returns None and logs one line. */
  lemma IndexErrorScenario()
    ensures TryCatch<Value>(Raises("list index out of range"), [])
      == Guarded(None, ["Exception occurred: [list index out of range]"])
  {
    assert ExceptionLine("list index out of range") == "Exception occurred: [list index out of range]";
  }

  /** A run of guarded calls, one after another, sharing one log. The run
      ends early when an exception escapes a wrapper, since it then reaches
      the code making the calls. */
  function TryCatchAll<T>(calls: seq<Outcome<T>>, log: seq<string>): (r: Guarded<T>)
    ensures r.Escaped? <==> exists i :: 0 <= i < |calls| && calls[i].RaisesNonException?
    ensures r.Guarded? ==> r.returned == None
    decreases |calls|
  {
    if calls == [] then Guarded(None, log)
    else
      var first := TryCatch(calls[0], log);
      if first.Escaped? then first
      else
        var rest := TryCatchAll(calls[1..], first.log);
        assert forall i :: 0 < i < |calls| ==> calls[i] == calls[1..][i - 1];
        rest
  }

  /** The lines a run of guarded calls adds to the log: one line for each
      call raising an `Exception`, in call order, up to the first call whose
      exception escapes. */
  function ExceptionLines<T>(calls: seq<Outcome<T>>): seq<string>
    decreases |calls|
  {
    if calls == [] then []
    else match calls[0]
      case Returns(_) => ExceptionLines(calls[1..])
      case Raises(msg) => [ExceptionLine(msg)] + ExceptionLines(calls[1..])
      case RaisesNonException(_) => []
  }

  /** Over any run of guarded calls the log keeps what it had and gains
      exactly the lines of `ExceptionLines`: each caught exception's line,
      in order, and nothing else. */
  lemma {:induction false} OneLinePerException<T>(calls: seq<Outcome<T>>, log: seq<string>)
    ensures TryCatchAll(calls, log).log == log + ExceptionLines(calls)
    decreases |calls|
  {
    if calls != [] {
      var first := TryCatch(calls[0], log);
      if !first.Escaped? {
        OneLinePerException(calls[1..], first.log);
      }
    }
  }

  /** The wrapper with the value passed through, as its name and the other
      decorators' tests suggest was meant: success gives the function's value,
      a caught exception gives None and the same log line, an uncaught one
      passes through as before. A function returning Python's None gives
      `Some(NoneValue)` here, which a Python caller cannot tell apart from
      the wrapper's own None. */
  function TryCatchReturning<T>(call: Outcome<T>, log: seq<string>): (r: Guarded<T>)
    ensures call.Returns? ==> r == Guarded(Some(call.value), log)
    ensures call.Raises? ==> r.Guarded? && r.returned == None
    ensures !call.Returns? ==> r == TryCatch(call, log)
    ensures r.log == TryCatch(call, log).log
  {
    match call
    case Returns(v) => Guarded(Some(v), log)
    case Raises(msg) => Guarded(None, log + [ExceptionLine(msg)])
    case RaisesNonException(msg) => Escaped(msg, log)
  }

  /** The wrapper as written loses a successful call's value: a function
      returning 42 gives its caller None. */
  lemma ResultDiscarded()
    ensures TryCatch(Returns(Int(42)), []) == Guarded(None, [])
    ensures TryCatchReturning(Returns(Int(42)), []) == Guarded(Some(Int(42)), [])
  {
  }
}

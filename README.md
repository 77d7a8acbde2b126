# handy-decorators: a Dafny model of `singleton` and `trycatch`

This project models two decorators of the Python library *handy-decorators*. Both exist in two shipped copies: the current `src/decorators.py` and an older build artifact, `build/lib.linux-x86_64-2.7/decorators.py`.

- **`singleton` (current).** Each decorated class gets its own table `previous_instances`. The table holds, under the class, the `(args, kwargs)` signature of the last call that built an object, together with that object. A call whose signature equals the stored one gets the stored object. Any other call calls the class, and overwrites the record when the class returns an object. If the class raises, the exception reaches the caller and the record is kept. The record is replaced, never added to.
- **`singleton` (older).** The first call that builds an object stores it under the class. Every later call returns that object, whatever its arguments.
- **`trycatch`.** Runs the wrapped function. If the function raises an `Exception`, the wrapper logs one line `Exception occurred: [<message>]` and returns None. An exception outside that class, such as `SystemExit` or `KeyboardInterrupt`, is not caught: it reaches the caller and nothing is logged. The wrapper has no `return` of the function's value, so it returns None on success too.

Modules:

- `PyValues` has argument values, signatures, how Python gathers `name=value` arguments into `**kwargs`, object identities and constructor outcomes.
- `Guard` models `trycatch`. The wrapped call is an outcome: `Returns(v)`, `Raises(msg)` for an `Exception`, or `RaisesNonException(msg)` for any other exception. The wrapper maps it to the log after the call plus either a returned value or the escaping exception.
- `Singleton` models the current `singleton`. `Step` and `Replay` are the specification functions and `SingletonWrapper` is the closure's state as a class. Its `Call` method overwrites the table in place and is proved equal to `Step`.
- `SingletonFirst` models the older `singleton` the same way: `Step`, `Replay` and the class `FirstInstanceWrapper`.
- `SingletonContrast` relates the two rules. They agree while the signature repeats. Once an object is stored, they differ at the first call with a different signature.

How things outside the code are represented:

- **Object identity** is `Instance(cls, serial)`. The serial is the wrapper's count of constructor calls before that call, so every construction yields an identity never handed out before, and `a is b` becomes `a == b`.
- **The decorated class's constructor** is foreign code. What it does on a given call (`Builds` or `CtorRaises(msg)`) is an input to the wrapper call.
- **The log sink** is a `seq<string>` of messages.

## Model

| member | source | states |
|---|---|---|
| `PyValues.SignatureEquality` | src/decorators.py:88 | Two signatures are equal exactly when their positional tuples agree element by element and their kwargs dicts have the same names with the same values, whatever the order. |
| `PyValues.CollectKwargs` | src/decorators.py:87 | Gathering `name=value` arguments succeeds exactly when the names are distinct. The dict then has exactly those names, each bound to the value written with it. |
| `PyValues.KeywordOrderIrrelevant` | src/decorators.py:88 | The same keyword arguments written in two different orders bind the same `kwargs`, so they meet the same record. |
| `Singleton.HitReturnsStored` | src/decorators.py:88-89 | When a record exists and its signature equals the call's, the stored object is returned, the constructor is not called and the state is unchanged. |
| `Singleton.MissBuildsOne` | src/decorators.py:90-95 | With no record, or one with another signature, the constructor is called exactly once. The table becomes the single record `(sig, new object)`, and the new object is returned. It differs from the object it replaces. |
| `Singleton.FailedBuildKeepsRecord` | src/decorators.py:91-94 | If the constructor raises on a miss, the exception reaches the caller and the old record stays as it was. |
| `Singleton.Replay` | src/decorators.py:85-96 | Across any run of calls, the table holds at most one key, the decorated class. The stored object is always one this wrapper built. One result is produced per call. |
| `Singleton.RepeatedSignatureHits` | src/decorators.py:88-89 | Once a record with signature `sig` exists, any number of calls with `sig` return that object and leave the state, including the constructor-call count, unchanged. |
| `Singleton.ReturnedObjectsAreKnownOrNew` | src/decorators.py:91-95 | Every object a run of calls returns is either the one stored when the run began or has a serial first handed out during the run. |
| `Singleton.OverwriteNotAppend` | src/decorators.py:91-94 | After A(x), A(y), A(x) with x ≠ y, the three calls return three distinct objects, and the table holds only `(x, third object)`. |
| `Singleton.DocstringScenario` | src/decorators.py:76-82 | `A(name=...)` is not `A(name=..., lname=...)`, and the latter called twice returns the identical object. |
| `Singleton.SingletonWrapper.constructor` | src/decorators.py:85 | Decorating a class creates an empty table for it. |
| `Singleton.Step` | src/decorators.py:88-95 | One call keeps the table well formed. It calls the constructor exactly when the call is not a hit. When it returns an object, the record then holds this call's signature and that object, so an immediate repeat is a hit. When the constructor raises, the exception reaches the caller and the table is unchanged. |
| `Singleton.SingletonWrapper.Call` | src/decorators.py:87-95 | The wrapper updates its table in place exactly as `Step` says. On a hit it returns the stored object and changes nothing. On a miss it calls the constructor once and, if the constructor builds, replaces the record and returns the new object. A raising constructor leaves the table alone. The wrapper stays well formed. |
| `Singleton.CallOther` | src/decorators.py:66 | Calling one decorated class's wrapper leaves another decorated class's record unchanged. The called wrapper's new state and result are exactly those of `Step`. |
| `Singleton.DocstringExample` | src/decorators.py:76-82 | Three calls against a freshly decorated class, reasoned about only through `SingletonWrapper.Call`'s contract: `A(name=...)` is not `A(name=..., lname=...)`, and the latter called twice returns the same object. |
| `SingletonFirst.FirstCallBuilds` | build/lib.linux-x86_64-2.7/decorators.py:83-84 | The first call, with an empty table, calls the class once and stores the object under the class. |
| `SingletonFirst.Replay` | build/lib.linux-x86_64-2.7/decorators.py:80-85 | Across any run of calls, the table holds at most one key, the decorated class, and one result is produced per call. |
| `SingletonFirst.StoredForever` | build/lib.linux-x86_64-2.7/decorators.py:83-85 | Once an object is stored, every later call returns it, whatever its arguments and whatever the constructor would do. The constructor is never called again, and the table never changes. |
| `SingletonFirst.DocstringScenario` | build/lib.linux-x86_64-2.7/decorators.py:70-73 | `a = A()` and `b = A()` give the same object. |
| `SingletonFirst.FirstInstanceWrapper.constructor` | build/lib.linux-x86_64-2.7/decorators.py:80 | Decorating a class creates an empty table for it. |
| `SingletonFirst.Step` | build/lib.linux-x86_64-2.7/decorators.py:83-85 | One call keeps the table well formed. With an object already stored, it returns that object and changes nothing. When it returns an object, that object is the one stored under the class. It propagates a constructor's exception only when nothing was stored, and then the table is unchanged. |
| `SingletonFirst.FirstInstanceWrapper.Call` | build/lib.linux-x86_64-2.7/decorators.py:82-85 | The wrapper updates its table in place exactly as `Step` says. It calls the class only when nothing is stored yet, then returns the stored object. With an object already stored, the state is unchanged. A raising constructor inserts nothing. |
| `SingletonContrast.StepAgrees` | src/decorators.py:88-95 | From corresponding states, a call with the shared signature gives the same result under both rules and keeps the states corresponding. |
| `SingletonContrast.AgreeOnRepeatedSignature` | build/lib.linux-x86_64-2.7/decorators.py:83-85 | From corresponding states, any run of calls with one signature returns the same objects under both rules, whatever each constructor call does. |
| `SingletonContrast.FreshWrappersAgree` | src/decorators.py:85-95 | A freshly decorated class gives identical results under both rules while every call passes the same arguments. |
| `SingletonContrast.DifferOnNewSignature` | src/decorators.py:90-95 | A(x) then A(y) with x ≠ y gives two distinct objects under the current rule and the same object twice under the older one. |
| `Guard.ExceptionLine` | src/decorators.py:28 | The logged line is the text `Exception occurred: [`, then the message, then `]`. |
| `Guard.ParseExceptionLine` | src/decorators.py:28 | Whatever message it reads back from a line, formatting that message gives the line again. |
| `Guard.ExceptionLineRoundTrip` | src/decorators.py:28 | The exception message can be read back from the line the wrapper logs. |
| `Guard.TryCatch` | src/decorators.py:23-28 | An exception that is not an `Exception` escapes unchanged, and nothing is logged. In every other case the caller gets None. A call raising an `Exception` adds exactly one line, which reports the exception's message. A returning call logs nothing. Earlier log lines are kept. |
| `Guard.TryCatchAll` | src/decorators.py:24-28 | A run of guarded calls ends with an escaping exception exactly when some call raises something other than an `Exception`. Otherwise the run ends with the wrapper returning None. |
| `Guard.OneLinePerException` | build/lib.linux-x86_64-2.7/decorators.py:21-25 | Over any run of guarded calls, the log becomes its earlier lines followed by one line `Exception occurred: [msg]` for each caught exception, in call order. It gains nothing else, and nothing after an exception escapes. |
| `Guard.IndexErrorScenario` | src/decorators.py:25-28 | A wrapped function that raises "list index out of range" gives None and the single line `Exception occurred: [list index out of range]`. |
| `Guard.ResultDiscarded` | src/decorators.py:26 | A wrapped function returning 42 gives its caller None under the wrapper as written, and 42 under the corrected one. |
| `Guard.TryCatchReturning` | src/decorators.py:24-28 | A corrected wrapper passes a returning call's value through and returns None on a caught exception. An uncaught exception escapes as before. It logs the same as the code. |

## Left out

- `timer` is not modelled: it measures floating-point wall-clock time and formats a float. Like `trycatch`, it drops the wrapped function's value (src/decorators.py:54), although tests/tests.py:44 expects 42.
- `run_in_thread` and `create_n_threads` are imported by the tests, but neither copy of `decorators.py` defines them. Their point is spawning threads, which is outside this model.
- The check-then-write of the singleton table has no locking. Concurrent calls are not modelled.
- `logging.exception` attaches a traceback and an ERROR level. The model keeps only the message text.
- `str(e)` is taken as an opaque string. How Python renders an exception is not modelled.
- `functools.wraps` only copies metadata, and setup.py is packaging. Neither is modelled.
- Argument values are limited to None, integers, strings and tuples of these. For these, Python `==` is structural. Cross-type numeric equality (`1 == True == 1.0`) and user-defined `__eq__` are not modelled, and neither are their effects on hits.
- A class is identified by its name (`ClassId`), not by object identity.
- An object is only an identity. Whatever state the constructor gives it is not modelled.
- If the same class is decorated twice, the two wrappers count serials independently. Their objects could then share an identity in the model, although they never would in Python.
- What a raising constructor leaves behind is not modelled. The model only says its error reaches the caller unchanged.
- The old build copy targets Python 2.7. The model gives both copies the same value semantics.
- `Guard.TryCatch` follows the code, which drops the wrapped function's value (src/decorators.py:26, build/lib.linux-x86_64-2.7/decorators.py:23); see Findings.

## Findings

| source | as written | input that shows it | evidently intended | confidence | as-written member | corrected member |
|---|---|---|---|---|---|---|
| src/decorators.py:26 | The wrapper calls `func(*args, **kwargs)` without `return`, so a successful call's value is lost and the caller gets None. | A wrapped function returning 42. | `return func(*args, **kwargs)`, so the value passes through and None is returned only when an exception was caught. | medium; not executed | `Guard.ResultDiscarded` | `Guard.TryCatchReturning` |

# pypsi stream virtualization, modelled in Dafny

This project models the stream-virtualization core of pypsi, a Python shell
framework. The core has four parts:

- `ThreadLocalProxy` stands in for `sys.stdin`, `sys.stdout` or `sys.stderr`. It keeps a table from thread id to a concrete stream object and forwards attribute access to the calling thread's entry.
- `Pipe`, with the selective-close helpers `close_input_pipe` and `close_output_pipe`, closes one end of a pipe and leaves the other open.
- `BasePypsiThread.setup_io` and `cleanup` bind a worker's private streams into the standard proxies for its own thread id, then close and unbind them again. Each cleanup block leaves open a binding on its own slot's descriptor (0 for stdin, 1 for stdout, 2 for stderr). A binding on another slot's descriptor is closed.
- `safe_open` decides how to open a file once its first chunk is read: a plain open for an empty file, or the detected encoding plus a seek past any byte-order mark. `choice_completer` filters completion choices by a prefix.

Files, one module each:

- `errors.dfy` (`Errors`): the Python exceptions the core raises (`KeyError`, `AttributeError`, `NameError`), plus `Result`, `Outcome` and `Option`.
- `streams.dfy` (`Streams`): `Stream` is a class with a constant `fileno` and an `isOpen` flag that `Close` clears. `Pipe` holds two streams. `IoObject` is what a slot can hold: `PipeObj(Pipe) | Plain(Stream) | Nothing`, where `Nothing` is Python's `None`.
- `thread_local_proxy.dfy` (`ThreadLocal`): the `ThreadLocalProxy` class over a `map<ThreadId, T>`. It also has map-level versions of add, remove and lookup, and lemmas about any history of such calls.
- `os_base.dfy` (`OsBase`): the three standard slots (`StdSlots`) and the `BasePypsiThread` class.
- `safe_open.dfy` (`SafeOpen`): the byte-order-mark search and the open plan.
- `sequences.dfy` (`Sequences`): the `startswith` test shared by the byte and string code.
- `completers.dfy` (`Completers`): the completion closure (`ChoiceCompleter.Complete`, a loop), its filter specification `Matching`, and the lemmas about it.

The calling thread's id (`threading.get_ident()`) is an explicit `caller` parameter. A `tid` argument is an `Option<int>`. `None` and the falsy `Some(0)` both fall back to `caller`, as `tid or threading.get_ident()` does.

Where the code's behaviour differs from what its design suggests, the model follows the code:

- A `Pipe` defines no `fileno`, and `cleanup` reads `sys.stdin.fileno()` through the proxy before anything else. So a slot bound to a Pipe (or to `None`) raises AttributeError in `cleanup`, before closing and before unbinding. The Pipe branch of the selective-close helpers therefore never runs from `cleanup` (`OsBase.CleanupBlockCases`).
- A worker that supplies no private stream for a proxied slot has no binding there, so `cleanup` raises KeyError at that slot (`OsBase.BasePypsiThread.SetupThenCleanupBlock`).
- `cleanup` is not best-effort across slots. The first exception stops it, and later slots are left untouched (`OsBase.BasePypsiThread.Cleanup`, `OsBase.CleanupOutcome`).
- `cleanup` does not protect the real descriptors 0, 1 and 2 as a group. Each block compares only with its own slot's descriptor, so a stdout binding on descriptor 2 (the real stderr) is closed, and so is a stdin binding on 1 or 2 (`OsBase.OtherSlotDescriptorClosed`).
- In case-insensitive mode only the prefix is lower-cased, never the choices (`Completers.UpperCaseChoiceMissed`).
- The three `isinstance(sys.stdin, utils,ThreadLocalProxy)` checks in `pypsi/os/base.py` have a comma where a dot was meant (see Findings). The operational model (`SetupIo`, `Cleanup`) uses the intended check, `isinstance(sys.stdin, utils.ThreadLocalProxy)`.

## Model

| member | source | states |
|---|---|---|
| `Streams.Pipe.Close` | pypsi/utils.py:51-53 | both ends of the pipe are closed |
| `Streams.NewPipe` | pypsi/utils.py:43-49 | with both ends supplied the pipe holds exactly those ends; with either missing the constructor raises NameError (`os` is not imported) |
| `Streams.CloseInputPipe` | pypsi/utils.py:56-60 | a Pipe's input end is closed and its output end keeps its state; any other truthy object is closed; `None` changes nothing; the frame allows no other change |
| `Streams.CloseOutputPipe` | pypsi/utils.py:62-66 | mirror image: only a Pipe's output end is closed; other truthy objects are closed whole; `None` changes nothing |
| `Streams.ClosedByShape` | pypsi/utils.py:56-66 | either helper closes exactly one stream for a truthy object and none for `None`; for a pipe with two distinct ends the two helpers close disjoint ends |
| `Streams.Fileno` | pypsi/utils.py:41-53 | reading `fileno` succeeds exactly on a plain stream and gives its descriptor; a Pipe or `None` raises AttributeError |
| `ThreadLocal.EffectiveTid` | pypsi/utils.py:75-85 | a missing tid or tid 0 means the calling thread; any other tid is used as given |
| `ThreadLocal.Added` | pypsi/utils.py:77 | the new table binds `t` to `obj`, keeps every other binding, and adds no other key |
| `ThreadLocal.Removed` | pypsi/utils.py:81 | KeyError exactly when `t` is unbound; otherwise the keys lose `t` only and the other bindings are kept |
| `ThreadLocal.Lookup` | pypsi/utils.py:85 | the binding of `t` when there is one, KeyError otherwise; never another thread's entry |
| `ThreadLocal.ThreadLocalProxy.constructor` | pypsi/utils.py:71-73 | a fresh proxy holds exactly one binding, the constructor's object under the constructing thread's id |
| `ThreadLocal.ThreadLocalProxy.AddProxy` | pypsi/utils.py:75-77 | the table is the old one with the effective tid bound to `obj`, overwriting any earlier binding |
| `ThreadLocal.ThreadLocalProxy.RemoveProxy` | pypsi/utils.py:79-81 | removes the effective tid's binding and nothing else; when it is unbound raises KeyError and leaves the table as it was |
| `ThreadLocal.ThreadLocalProxy.Get` | pypsi/utils.py:83-85 | returns the effective tid's binding, or KeyError when it is unbound |
| `ThreadLocal.ThreadLocalProxy.GetAttr` | pypsi/utils.py:87-88 | attribute reads resolve the caller's own binding, with no tid defaulting, then read from it; KeyError when the caller is unbound |
| `ThreadLocal.ReplayIsolation` | pypsi/utils.py:75-85 | over any history of add and remove calls aimed at other thread ids, the lookup of `id` is unchanged |
| `ThreadLocal.ReplayLatest` | pypsi/utils.py:75-85 | after any history, `id` resolves to the object of the last add aimed at it; if the last call aimed at it was a remove, the lookup raises KeyError |
| `ThreadLocal.FreshProxyLookup` | pypsi/utils.py:71-73 | a fresh proxy resolves the constructing thread to its object and raises KeyError for every other id |
| `SafeOpen.FirstMatch` | pypsi/utils.py:122-126 | the index found is a mark the chunk starts with, and no earlier mark matches; no result means no mark matches |
| `SafeOpen.BomSkip` | pypsi/utils.py:122-126 | the skip is the length of the first matching mark in the order UTF-32BE, UTF-32LE, UTF-8, UTF-16BE, UTF-16LE; it is 0 exactly when no mark matches; it never exceeds the chunk |
| `SafeOpen.FirstChunk` | pypsi/utils.py:110 | the first chunk is the file's first 4096 bytes, or the whole file when shorter |
| `SafeOpen.Plan` | pypsi/utils.py:118-126 | a plain open exactly when the first chunk is empty; otherwise the detected encoding with the BOM skip of the chunk |
| `SafeOpen.PlanOfFile` | pypsi/utils.py:109-126 | a file takes the plain-open path exactly when it is empty; the skip from the first chunk equals the skip the whole file would give and stays within the file |
| `SafeOpen.Utf32LeBeforeUtf16Le` | pypsi/utils.py:122-126 | a chunk starting `FF FE 00 00` skips 4 bytes, not 2; a chunk starting `FF FE 01` skips 2 |
| `SafeOpen.Utf8RoundTrip` | pypsi/utils.py:118-128 | for a file of a UTF-8 mark followed by any content, the first chunk leads to a decoded open positioned past exactly the 3 mark bytes, so the content is what remains to read |
| `Completers.Lower` | pypsi/completers.py:63 | lower-casing keeps the length and maps every character through the ASCII lowering |
| `Completers.ChoiceCompleter.Complete` | pypsi/completers.py:60-65 | the loop returns exactly the choices that start with the prefix (lower-cased in case-insensitive mode), in order |
| `Completers.MatchingMembers` | pypsi/completers.py:62-64 | a string is returned if and only if it is a choice that starts with the needle: nothing dropped, nothing added |
| `Completers.MatchingIsSubsequence` | pypsi/completers.py:61-65 | the result is an order-preserving subsequence of the choices, hence no longer than them |
| `Completers.EmptyPrefixKeepsAll` | pypsi/completers.py:63 | an empty prefix returns every choice, in order |
| `Completers.CaseInsensitiveIsLoweredPrefix` | pypsi/completers.py:63 | case-insensitive mode tests against the same needle as case-sensitive mode with the lower-cased prefix |
| `Completers.UpperCaseChoiceMissed` | pypsi/completers.py:63 | in case-insensitive mode the choice `Foo` is not offered for prefix `Fo`, while `foo` is offered for `FO` |
| `OsBase.FilenoCheck` | pypsi/os/base.py:25 | the `fileno` read through a proxy succeeds exactly when the caller is bound to a plain stream; KeyError when unbound; AttributeError for a Pipe or `None` binding |
| `OsBase.CleanupSlot` | pypsi/os/base.py:24-35 | one cleanup block: it raises what the `fileno` read raises; on success the caller's binding, and nothing else, is removed; on failure the table is kept; it closes exactly what the binding before removal calls for |
| `OsBase.CleanupBlockCases` | pypsi/os/base.py:24-35 | a binding on the slot's reserved descriptor (0, 1, 2) is unbound but not closed; any other plain stream is closed whole; a Pipe or `None` binding raises AttributeError and closes nothing |
| `OsBase.OtherSlotDescriptorClosed` | pypsi/os/base.py:25-34 | a block spares only its own descriptor: a plain binding on one of the other two standard descriptors is closed |
| `OsBase.FailingBlockClosesNothing` | pypsi/os/base.py:24-35 | a cleanup block that raises closes no stream |
| `OsBase.BasePypsiThread.constructor` | pypsi/os/base.py:9-11 | the worker keeps the three private streams it was given |
| `OsBase.BasePypsiThread.SetupIo` | pypsi/os/base.py:13-21 | every slot proxy's table is the old table updated, slot by slot in order, with the caller bound to that slot's private stream only where the stream is truthy and the slot is a proxy |
| `OsBase.BasePypsiThread.SetupBindsOwnSlot` | pypsi/os/base.py:13-21 | with distinct proxies, the caller is bound to slot `k`'s private stream if that stream is truthy; otherwise the table is left as it was |
| `OsBase.BasePypsiThread.SetupIsolation` | pypsi/os/base.py:13-21 | setup never changes another thread's binding, nor any proxy that is not in a slot |
| `OsBase.BasePypsiThread.SetupThenCleanupBlock` | pypsi/os/base.py:13-35 | for a thread that starts unbound, cleanup of a proxied slot after setup succeeds only for a plain private stream; with `None` it raises KeyError, with a Pipe AttributeError |
| `OsBase.BasePypsiThread.Cleanup` | pypsi/os/base.py:23-35 | on success the caller has no binding in any proxy slot; other threads' bindings never change; with distinct proxies, the exception is that of the first failing block, each completed block removes the caller, and every stream those blocks select is closed; no other stream is touched |
| `OsBase.BasePypsiThread.SetupIoAsWritten` | pypsi/os/base.py:13-21 | as written, setup completes only when all three private streams are `None`; otherwise it raises NameError before binding anything |
| `OsBase.BasePypsiThread.CleanupAsWritten` | pypsi/os/base.py:23-35 | as written, cleanup always raises NameError at its first check |
| `OsBase.BasePypsiThread.TypoBlocksSetup` | pypsi/os/base.py:14-24 | where the intended check binds the private stdin, the code as written raises NameError, and cleanup as written never completes |

## Left out

- Encoding detection with chardet's `UniversalDetector` and the chunked read loop that feeds it (pypsi/utils.py:107-116). It is an external library, so the detected encoding is a parameter of `SafeOpen.Plan`.
- Real file I/O (`open`, `codecs.open`, `read`, `seek`) and the `mode` argument of `safe_open`. The model records only which open happens and the byte count given to `seek`.
- Creating an OS pipe in the `Pipe` constructor's fallback branch (`os.pipe`, `os.fdopen`). As written, that branch raises NameError, and `Streams.NewPipe` models only that.
- `ThreadLocalProxy.__setattr__` (pypsi/utils.py:90-94). Writing an attribute onto the bound object cannot be expressed for a generic bound type. Its lookup is the same as the one `GetAttr` models, and its `_proxies` special case is the table assignment in the constructor.
- `__getattr__` for arbitrary attribute names. An attribute read is a function argument of `GetAttr`.
- `threading.Thread` itself: its lifecycle, the `**kwargs` passed to it, `threading.get_ident` (the `caller` parameter replaces it), and concurrent access to the shared table. The code has no locking, so there is nothing to model.
- Platform selection of `path_completer` (pypsi/completers.py:39-49) and the win32 and unix completers. This code is OS-specific.
- The `shell` and `args` parameters of the completion closure. They are unused.
- Python's Unicode `str.lower`. `Completers.Lower` lowers ASCII letters only.
- Failure of `close()` at the OS level. Closing never fails in the model.
- A real file raises ValueError on `fileno()` after it is closed, and in-memory streams have no descriptor. In the model `fileno` is a constant attribute of each plain stream.
- Python truthiness beyond `None`. Every pipe and stream object is truthy.
- OsBase.BasePypsiThread.Cleanup: when two slots hold the same proxy object, only the no-leak and isolation clauses are stated. The exact exception and the closed streams are stated only for distinct proxies. Because `fileno` stays readable after a close, a worker whose stdout and stderr are the same plain stream (on neither descriptor 1 nor 2) gets `Pass` with both bindings removed. In Python the stderr block would raise ValueError on the closed file and keep the stderr binding.

## Findings

| source | as written | input that shows it | evidently intended | confidence | as-written member | corrected member |
|---|---|---|---|---|---|---|
| pypsi/os/base.py:14-35 | the proxy checks pass `utils` and the unimported name `ThreadLocalProxy` as two arguments to `isinstance`, so evaluating the arguments raises NameError | any worker's `cleanup`; `setup_io` of a worker with a private stdin | `isinstance(sys.stdin, utils.ThreadLocalProxy)` and likewise for stdout and stderr | high, not executed | `OsBase.BasePypsiThread.SetupIoAsWritten`, `OsBase.BasePypsiThread.CleanupAsWritten`, `OsBase.BasePypsiThread.TypoBlocksSetup` | `OsBase.BasePypsiThread.SetupIo`, `OsBase.BasePypsiThread.Cleanup` |

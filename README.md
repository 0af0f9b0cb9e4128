# oct2py session core, modelled in Dafny

This project models the session layer of oct2py, a Python bridge to GNU Octave.
It models the `Oct2Py` class and the low-level `_Session` class of `oct2py/core.py`:

- how a function call becomes a request record: path split, `.m` check, `nout` default, keyword arguments, and pointer arguments replaced by their addresses;
- how a response record becomes a value or an error;
- how a name is classified from its Octave `exist` code and its `isobject` test, and which proxy `get_pointer`, `pull` and attribute access hand out;
- the session state: the engine handle, `restart`, `exit` and `__enter__`, the temp directory that `eval` swaps, the user-class cache, memoised attributes, and the request files written;
- `_Session.evaluate`, which feeds commands to a process, collects the printed lines and classifies that output; and `_Session.close`.

Octave is an oracle, the `Octave` datatype in `Values.dfy`. It has three total functions. Each one answers a statement given everything the engine evaluated before, so remote state carries over from one call to the next. An `Engine` value records that history, plus a serial number that tells a restarted engine from the old one. The MAT-file codec is an opaque channel:

- a `Request` record is what the session writes;
- a `Response` record is what it reads back.

Modules:

- `Results`: `Option`, `Result` and the Python exception kinds raised.
- `Seqs`: small sequence lemmas.
- `PyText`: the Python string operations used: `strip`, `rstrip`, `split`, `int()`, `str()` of an integer, `in`, `join`, `replace`.
- `PosixPath`: `dirname`, `basename`, `splitext` and `join`, with POSIX semantics.
- `Values`: values, proxies, requests, responses and the Octave oracle.
- `Protocol`: the pure decisions of `feval`, `_feval`, `_exist`, `_isobject`, `get_pointer`, `pull` and `__getattr__`.
- `Oct2PySession`: the class `Oct2Py`, with the specification functions its methods are proved against.
- `LowLevel`: the class `Session` (`_Session`) and its output classifier.

## Model

| member | source | states |
|---|---|---|
| `Protocol.DefaultNout` | oct2py/core.py:282-283 | A given `nout` is kept. A missing one becomes the inferred count, or 1 when that is 0, so it is never 0. |
| `Protocol.DropKwargs` | oct2py/core.py:285-289 | The loop deletes every keyword argument, not only the `plot_*` ones, so none remain. |
| `Protocol.FlattenKwargs` | oct2py/core.py:291-292 | The folded keyword items are twice as many as the keyword arguments. |
| `Protocol.FlattenKwargsAt` | oct2py/core.py:291-292 | The i-th keyword argument contributes its name and then its value, at positions 2i and 2i+1. |
| `Protocol.ResolveFunctionPath` | oct2py/core.py:293-297 | `feval`'s path handling: the dirname and the stem of the base name, or the `.m` `TypeError`. Its properties are stated by `ResolveFunctionPathParts`, `ResolveBareName` and `ResolveFileWithExtension`. |
| `Protocol.ResolveFunctionPathParts` | oct2py/core.py:293-297 | The path is refused with the `.m` `TypeError` exactly when the base name has an extension other than empty or `.m`. Otherwise `dname` is the dirname and the name is the stem of the base name, which is that name followed by an empty or `.m` extension. The name holds no `/`, and the path is its head plus the name, optionally followed by `.m`. |
| `Protocol.ResolveBareName` | oct2py/core.py:293-297 | `dir/name` with no dot resolves to the directory (trailing slashes removed) and the name. |
| `Protocol.ResolveFileWithExtension` | oct2py/core.py:293-297 | `dir/name.e` resolves to the directory and `name` when `e` is `m`. It is refused for any other extension. |
| `Protocol.PointerIndicesSpec` | oct2py/core.py:389-394 | The replacement indices are ascending and 1-based. They name pointer arguments only, and every pointer argument is named. |
| `Protocol.PointerIndices` | oct2py/core.py:389-394 | `replacements`: the 1-based positions of the pointer arguments, as stated by `PointerIndicesSpec`. |
| `Protocol.PointerIndicesSound` | oct2py/core.py:389-394 | Every replacement index is 1-based and names a pointer argument. |
| `Protocol.PointerIndicesComplete` | oct2py/core.py:389-394 | Every pointer argument is named by a replacement index. |
| `Protocol.PointerIndicesAscending` | oct2py/core.py:389-394 | The replacement indices are strictly ascending, in argument order. |
| `Protocol.SubstitutePointers` | oct2py/core.py:389-394 | The loop keeps the argument count. Each pointer is replaced by its address and every other argument is unchanged. The indices collected are `PointerIndices`. |
| `Protocol.BuildRequest` | oct2py/core.py:389-399 | The request dict `_feval` writes. `BuildRequestSpec` states it. |
| `Protocol.BuildRequestSpec` | oct2py/core.py:389-399 | The request keeps the function name, directory, `nout` and `store_as`, has one argument per argument, sends each pointer as its address and every other argument unchanged, and marks a position exactly when it holds a pointer. |
| `Protocol.PayloadPaths` | oct2py/core.py:384-387 | The request and response files sit directly in the temp directory, as `writer.mat` and `reader.mat`, and they are distinct. |
| `Protocol.InterpretResponse` | oct2py/core.py:414-422 | It raises exactly when the response carries an error, with that error's message. A result whose string form is empty becomes `None`. Any other result is returned unchanged. |
| `Protocol.ResultNeverBlank` | oct2py/core.py:419-422 | A successful call never returns a value whose string form is empty. |
| `Values.Str` | oct2py/core.py:420 | `str(result)`: `"None"` for `None`, the text itself for a string, the printed form of any other decoded value, and a non-empty representation for a proxy object. Which results `_feval` turns into `None` follows from it; `InterpretResponse` and `ResultNeverBlank` state that. |
| `Protocol.ParseExist` | oct2py/core.py:475-480 | The code returned is never 0. A reply with no words fails on `split()[-1]` with `IndexError`, and only such a reply does. `ParseExistCode` and `ParseExistBadWord` state that a code returned is the value of the last word of the stripped reply, and that a last word `int()` rejects gives `ValueError`. |
| `Protocol.ParseExistCode` | oct2py/core.py:476-477 | A code `_exist` returns is the value `int()` reads from the last word of the stripped reply. |
| `Protocol.ParseExistBadWord` | oct2py/core.py:476-477 | A last word that `int()` refuses makes `_exist` raise `ValueError`. |
| `Protocol.ExistOfCodeReply` | oct2py/core.py:475-480 | A reply ending in a printed code, with whitespace before it and only whitespace after, gives back that code. Code 0 gives the "does not exist" `ValueError`. |
| `Protocol.ExistOfWordReply` | oct2py/core.py:476-480 | The same for any last word that `int()` parses: its value, or the error for 0. |
| `Protocol.ObjectAnswer` | oct2py/core.py:482-488 | Codes 2 and 5 give `False` whatever the reply. Any other code gives `True` exactly when the stripped reply is `ans =  1`. |
| `Protocol.ObjectReplyPadded` | oct2py/core.py:486-488 | Whitespace around `ans =  1` is accepted. The single-space form `ans = 1` is not. |
| `Protocol.Classify` | oct2py/core.py:207-221 | Each of the five branches is taken exactly under its condition, in `get_pointer`'s order: instance, variable, user class, function pointer, unknown. |
| `Protocol.PullSplitsByKind` | oct2py/core.py:193-197 | `pull` fetches by value exactly the names `get_pointer` would make variable pointers of. Every other name goes to one of the remaining kinds. |
| `Protocol.FunctionCodesSkipObjectQuery` | oct2py/core.py:482-485 | Codes 2 and 5 always become function pointers, whatever Octave would reply to `isobject`. |
| `Protocol.Unwrap` | oct2py/core.py:199-201 | One output is returned bare. Any other number of outputs is returned as the list. |
| `Protocol.AttributeName` | oct2py/core.py:502-509 | Dunder names are refused with `AttributeError`. The empty attribute fails on `attr[-1]` with `IndexError`. Every other attribute succeeds, and its name is the attribute with one trailing `_` dropped when it has one. |
| `Protocol.EscapedAttributeName` | oct2py/core.py:505-509 | An attribute `name_` reaches the Octave name `name`. |
| `PyText.Strip` | oct2py/core.py:476 | `str.strip()`: whitespace removed from both ends. `StripSlice` states which slice remains. |
| `PyText.IsSpace` | oct2py/core.py:476-477 | The characters Python's `str.isspace` accepts, which `strip()`, `rstrip()` and `split()` with no separator remove or split on (also at core.py lines 487 and 572): the ASCII controls from tab to carriage return, the separators `\x1c` to `\x1f`, the space, and the Unicode spaces, line and paragraph separators. |
| `PyText.StripSlice` | oct2py/core.py:476 | `strip()` keeps the slice between a whitespace prefix and a whitespace suffix. That slice starts and ends with a non-whitespace character, and it is empty exactly when the reply is all whitespace. |
| `PyText.TrimEnd` | oct2py/core.py:572 | `rstrip()` gives a prefix followed only by whitespace, and the prefix does not end in whitespace. |
| `PyText.Join` | oct2py/core.py:572 | `'\n'.join(self._lines)`: the lines one after the other, one separator apart. `JoinSnoc` states it. |
| `PyText.JoinSnoc` | oct2py/core.py:572 | Joining one more line appends the separator and that line, so the lines appear in order, each pair separated by exactly one separator. |
| `PyText.Words` | oct2py/core.py:477 | `str.split()` with no separator: the maximal runs of non-whitespace. `WordsAreWords` and `WordsEmpty` state the words' shape and when there are none, and `WordsAppend` states that splitting after whitespace gives the words of the first part followed by those of the second. |
| `PyText.WordsAppend` | oct2py/core.py:477 | `split()` of a string cut just after whitespace is the words of the first part followed by the words of the second. |
| `PyText.WordsAreWords` | oct2py/core.py:477 | Every word of `split()` is non-empty and holds no whitespace. |
| `PyText.WordsEmpty` | oct2py/core.py:477 | `split()` gives no words exactly when the string is all whitespace. |
| `PyText.ParseInt` | oct2py/core.py:477 | `int()` of an ASCII word succeeds exactly on a signed base-10 literal of ASCII digits. The sign decides the sign of the value. |
| `PyText.ParseShow` | oct2py/core.py:477 | `int(str(n)) == n`. |
| `PyText.ContainsAt` | oct2py/core.py:574-577 | `sub in s` holds exactly when `sub` occurs at some offset of `s`. |
| `PyText.Delete` | oct2py/core.py:597 | `replace('\n', '')` leaves no newline behind and never lengthens the string. `DeleteCounts` states that exactly the newlines are removed. |
| `PyText.DeleteCounts` | oct2py/core.py:597 | Deleting a character removes every occurrence of it and keeps every other character with its count, so nothing is swapped for anything else. |
| `PyText.DeleteAppend` | oct2py/core.py:597 | Deleting from a concatenation deletes from each part, so every other character keeps its order. |
| `PyText.DeleteAbsent` | oct2py/core.py:597 | A string without a newline is unchanged. |
| `PosixPath.SplitExt` | oct2py/core.py:295 | `os.path.splitext` on a POSIX path. `SplitExtParts` states its parts. |
| `PosixPath.SplitExtParts` | oct2py/core.py:295 | `splitext` parts concatenate to the input. A non-empty extension is one dot-led suffix with no dot or slash after the dot, and its stem is not all dots. |
| `PosixPath.Dirname` | oct2py/core.py:293 | `os.path.dirname`: the head of the path, its trailing slashes removed unless it is all slashes. `JoinThenSplit` and `ResolveBareName` state it on joined paths. |
| `PosixPath.Basename` | oct2py/core.py:294 | `os.path.basename`: what follows the last `/`, which holds no `/`. `JoinThenSplit` and `PathParts` state how it recovers a file name. |
| `PosixPath.JoinPath` | oct2py/core.py:384-387 | `os.path.join` of two components on POSIX. `JoinThenSplit` and `PayloadPaths` state what it builds. |
| `PosixPath.JoinThenSplit` | oct2py/core.py:384-387 | A file name joined onto a directory comes back as the base name, and the directory as the dirname. |
| `PosixPath.PathParts` | oct2py/core.py:293-295 | A path is its head followed by the stem and the extension of its base name. |
| `Oct2PySession.ProbeName` | oct2py/core.py:470-488 | `_exist` then `_isobject`. A probed code is never 0, codes 2 and 5 are never objects, and without an engine the probe fails and leaves no engine. |
| `Oct2PySession.RunRequestsSpec` | oct2py/core.py:344-348 | A run of calls that succeeds answers every request. It records one `_pyeval` call per request, in order, on the same engine. With no engine, only the empty run succeeds. |
| `Oct2PySession.Dispatch` | oct2py/core.py:404-422 | The engine half of `_feval`: `_pyeval` on the two payload paths, then the response read. `DispatchSpec` states it. |
| `Oct2PySession.DispatchSpec` | oct2py/core.py:404-422 | With no engine the call fails. Otherwise exactly one `_pyeval` call on the request is recorded on the same engine, the call raises exactly when the response holds an error and then with its message, and a success is the result, or `None` for a blank one. |
| `Oct2PySession.RunRequests` | oct2py/core.py:343-346 | The calls of `eval`'s loop (and of `push`'s, core.py:152-154), one `_feval` per request, stopping at the first that raises. `RunRequestsSpec` states it. |
| `Oct2PySession.LastTruthy` | oct2py/core.py:342-348 | `eval`'s `ans`: the last truthy answer, or `None`. `LastTruthyNone`, `LastTruthyIsLast` and `LastTruthySnoc` state it. |
| `Values.Truthy` | oct2py/core.py:347 | `bool(resp)` in `if resp:`: `None` and the empty string are false, a proxy object is true, and any other decoded value has the truth value it decoded with. `LastTruthyNone`, `LastTruthyIsLast` and `LastTruthySnoc` state how `eval` uses it. |
| `Oct2PySession.LastTruthyNone` | oct2py/core.py:343-348 | `eval` returns `None` exactly when no command answered with a truthy value. |
| `Oct2PySession.LastTruthyIsLast` | oct2py/core.py:343-348 | Otherwise it returns a truthy answer after which no truthy answer follows. |
| `Oct2PySession.LastTruthySnoc` | oct2py/core.py:347-348 | One more command replaces `ans` exactly when its answer is truthy. |
| `Oct2PySession.NameList` | oct2py/core.py:327-328 | A single string is a one-element list. A list is kept. |
| `Oct2PySession.Pairs` | oct2py/core.py:148-152 | One name is paired with its value. Two lists give as many pairs as the shorter list, index by index. |
| `Oct2PySession.PointerOf` | oct2py/core.py:207-221 | The branches of `get_pointer` once the name's code and object test are known, over the engine, the class cache and the class count. `PointerOfKinds`, `PointerOfClass` and `PointerOfInstance` state them. |
| `Oct2PySession.PointerOfKinds` | oct2py/core.py:207-221 | An unknown kind raises `ValueError` with nothing changed. Variables and functions get their pointers with nothing changed. Only the instance branch uses the engine. Any proxy handed out is of the name's kind. |
| `Oct2PySession.PointerOfClass` | oct2py/core.py:215-216 | A user class goes through `_get_user_class` without engine use. A cached class is returned with nothing changed. A new one is cached under the name, one more class is made, and `None` is returned. |
| `Oct2PySession.PointerOfInstance` | oct2py/core.py:207-210 | An instance evaluates `class(name);` with `eval`, and its errors propagate with the cache unchanged. Afterwards the answer's class is cached. On the class's first lookup `None.from_name` fails with `AttributeError`. A cached class gives an instance pointer of that class. |
| `Oct2PySession.PointerLookupSpec` | oct2py/core.py:203-221 | `get_pointer` propagates probe errors. Any proxy it hands out is of the kind `Classify` gives the probe. |
| `Oct2PySession.PointerLookup` | oct2py/core.py:203-221 | `get_pointer`: the probe, then `PointerOf`. `PointerLookupSpec` states it. |
| `Oct2PySession.UserClassLookup` | oct2py/core.py:490-494 | `_get_user_class` on the session state. `PointerOfClass` and `Oct2Py.GetUserClass` state it: a hit changes nothing, a miss caches one new class and returns `None`. |
| `Oct2PySession.PullProbed` | oct2py/core.py:193-197 | One name of `pull` once probed: an `evalin` fetch for a plain variable, `get_pointer` otherwise. `PullNameSpec` states it. |
| `Oct2PySession.PullName` | oct2py/core.py:191-197 | One name of `pull`: the probe, then `PullProbed`. `PullNameSpec` and `PullOutputAt` state it. |
| `Oct2PySession.PullNameSpec` | oct2py/core.py:190-197 | Probe errors propagate. A plain variable is fetched with one `evalin` and the defaulted `nout`, with the class cache untouched. Any other name is answered with a proxy of the kind that `get_pointer`'s own probe finds. |
| `Oct2PySession.PullNamesSpec` | oct2py/core.py:190-197 | A successful `pull` has one output per name. With no engine, only the empty list succeeds. |
| `Oct2PySession.PullNames` | oct2py/core.py:189-197 | `pull`'s loop: one output per name, in order, stopping at the first name that raises. `PullNamesSpec` and `PullOutputAt` state it. |
| `Oct2PySession.StepAt` | oct2py/core.py:190-197 | The i-th output of a successful run of steps is the step's answer on the i-th name, in the session the first i names left behind. |
| `Oct2PySession.PullOutputAt` | oct2py/core.py:190-197 | The i-th output of a successful `pull` is what pulling the i-th name alone gives, starting where the earlier names left the session. |
| `Oct2PySession.CallableOf` | oct2py/core.py:514-522 | `__getattr__` once the `exist` code is known. `CallableOfSpec` and `CallableFunctionIffNotObject` state it. |
| `Oct2PySession.CallableOfSpec` | oct2py/core.py:514-522 | Once the `exist` code is known: codes outside {2, 3, 5, 103} are refused with nothing changed, and codes 2 and 5 become function pointers with nothing changed. For codes 3 and 103 the `isobject` query is sent: its failure propagates, an "object" reply gives the cached class unchanged or `None` with exactly one new class cached, and any other reply gives a function pointer with the cache untouched. |
| `Oct2PySession.CallableFunctionIffNotObject` | oct2py/core.py:518-522 | With a consistent class cache and a live engine, a code-3 or code-103 name yields a function pointer exactly when the `isobject` reply does not say "object". |
| `Oct2PySession.CallableLookupSpec` | oct2py/core.py:511-522 | `_exist` errors propagate. Codes outside {2, 3, 5, 103} are refused as not callable. Codes 2 and 5 become function pointers without the `isobject` query. A success had a callable code. For codes 3 and 103 the `isobject` query follows on the engine `exist` left: its failure propagates, an "object" reply gives the cached class or `None` with one new class cached, and any other reply gives a function pointer. |
| `Oct2PySession.CallableLookup` | oct2py/core.py:511-522 | `__getattr__`'s lookup of an engine name: the `exist` query, then `CallableOf`. `CallableLookupSpec` states it. |
| `Oct2PySession.AttributeLookup` | oct2py/core.py:502-522 | `__getattr__`'s whole lookup: the attribute's name, then `CallableLookup`. `AttributeLookupSpec` states it. |
| `Oct2PySession.AttributeLookupSpec` | oct2py/core.py:502-512 | A dunder attribute is refused with `AttributeError`, and so is the empty one, both with nothing changed. Any other attribute, with one trailing `_` dropped, is looked up as a callable. |
| `Oct2PySession.BuiltinPath` | oct2py/core.py:293-298 | A bare built-in name such as `evalin` resolves to itself, with no directory. |
| `Oct2PySession.Oct2Py.constructor` | oct2py/core.py:74-90 | A given non-empty `temp_dir` is used, and a fresh directory otherwise. The cache and attributes start empty. The first engine starts with the package directory on its path. |
| `Oct2PySession.Oct2Py.Restart` | oct2py/core.py:360-376 | A live engine is closed. A new engine, with the next serial, is started and gets the `addpath` statement. |
| `Oct2PySession.Oct2Py.Enter` | oct2py/core.py:101-105 | A live session is left unchanged. A closed one is restarted with the next serial, and nothing is closed. |
| `Oct2PySession.Oct2Py.Exit` | oct2py/core.py:107-116 | The engine is dropped. Only a live engine is closed, so a second `exit()` closes nothing. |
| `Oct2PySession.Oct2Py.QueryEngine` | oct2py/core.py:475-476 | A silent evaluation answers with the oracle's text and records the statement. With no engine it raises. |
| `Oct2PySession.Oct2Py.Exist` | oct2py/core.py:470-480 | It sends the `exist` query and parses the reply as `ParseExist` does. |
| `Oct2PySession.Oct2Py.IsObject` | oct2py/core.py:482-488 | Codes 2 and 5 answer `False` with the engine untouched. Other codes send the `isobject` query and read its reply. |
| `Oct2PySession.Oct2Py.GetUserClass` | oct2py/core.py:490-494 | Afterwards the name is cached. A hit returns the cached class and changes nothing. A miss adds exactly one new class for that name and returns `None`. This is `UserClassLookup` on the session. |
| `Oct2PySession.Oct2Py.RemoteCall` | oct2py/core.py:378-422 | The request with pointers substituted is written to `writer.mat`. `_pyeval` is evaluated once, and the response is interpreted. |
| `Oct2PySession.Oct2Py.Feval` | oct2py/core.py:253-299 | A foreign extension raises before any file is written or any engine use. Otherwise the request carries the positional arguments only, the dirname and the stem, with the defaulted `nout`. |
| `Oct2PySession.Oct2Py.Evalin` | oct2py/core.py:345-346 | One `evalin('base', cmd)` call: the file written and the engine traffic of that request. |
| `Oct2PySession.Oct2Py.Assignin` | oct2py/core.py:153-154 | One `assignin('base', name, v)` call: the file written and the engine traffic of that request. |
| `Oct2PySession.Oct2Py.EvalAll` | oct2py/core.py:343-348 | The commands run in order and stop at the first that raises. The last truthy answer, or `None`, is returned. |
| `Oct2PySession.Oct2Py.EvalCommands` | oct2py/core.py:327-358 | It runs in the `temp_dir` given, or the current one. The old `temp_dir` is restored only when no command raised. With `return_both` it returns `('', ans)`. |
| `Oct2PySession.Oct2Py.Push` | oct2py/core.py:148-154 | One `assignin` per zipped pair, in order, stopping at the first that raises. |
| `Oct2PySession.Oct2Py.Probe` | oct2py/core.py:204-205 | `_exist` and `_isobject` together, exactly as `ProbeName`. |
| `Oct2PySession.Oct2Py.MakePointer` | oct2py/core.py:207-221 | Result, engine, class cache and class count are those of `PointerOf`, whose branches `PointerOfKinds`, `PointerOfClass` and `PointerOfInstance` state. Outside the instance branch no request file is written. |
| `Oct2PySession.Oct2Py.GetPointer` | oct2py/core.py:203-221 | Result and new session are those of `PointerLookup`: the probe, then `PointerOf` (see `PointerLookupSpec`). |
| `Oct2PySession.Oct2Py.PullFound` | oct2py/core.py:193-197 | Result and new session are those of `PullProbed`: an `evalin` fetch for a plain variable, `get_pointer` for anything else. |
| `Oct2PySession.Oct2Py.PullOne` | oct2py/core.py:190-197 | Result and new session are those of `PullName` (see `PullNameSpec`). |
| `Oct2PySession.Oct2Py.Pull` | oct2py/core.py:186-201 | The session ends as `PullNames` leaves it. The outputs are those of `PullNames` (see `PullNamesSpec`, `PullOutputAt`), a single one bare; the first error is raised. |
| `Oct2PySession.Oct2Py.CallableWithCode` | oct2py/core.py:514-522 | Result and new session are those of `CallableOf`: a function pointer for codes 2 and 5, and for codes 3 and 103 the user class exactly when `isobject` says "object" (see `CallableOfSpec`). |
| `Oct2PySession.Oct2Py.CallableTarget` | oct2py/core.py:511-522 | Result and new session are those of `CallableLookup`: the `exist` query, then the routing of `CallableOfSpec` including the `isobject` decision (see `CallableLookupSpec`). |
| `Oct2PySession.Oct2Py.AttributeTarget` | oct2py/core.py:502-522 | Result and new session are those of `AttributeLookup` (see `AttributeLookupSpec`). |
| `Oct2PySession.Oct2Py.GetAttr` | oct2py/core.py:496-527 | Result and new session are those of `AttributeLookup`. Only a success is memoised, under the attribute as written, including its trailing `_`. |
| `Oct2PySession.Oct2Py.Remember` | oct2py/core.py:525 | `setattr` stores a successful lookup under the attribute and changes no other attribute. A failed lookup stores nothing. |
| `LowLevel.OutputError` | oct2py/core.py:574-585 | The error `evaluate` raises for the collected output, if any. `OutputErrorSpec` states it. |
| `LowLevel.OutputErrorSpec` | oct2py/core.py:574-585 | Output is accepted exactly when it does not mention `error:`. `parse error:` always gives the syntax error. Any other error names the first command, or fails on `cmds[0]` when there is none. |
| `LowLevel.SaveAnsCommand` | oct2py/core.py:587-597 | The save statement: the template with the output file filled in, stripped and with its line breaks removed. `SaveAnsOneLine` states it. |
| `LowLevel.SaveAnsOneLine` | oct2py/core.py:587-597 | The save statement is one line, whatever line breaks the file name holds. |
| `LowLevel.NonEmpty` | oct2py/core.py:565-566 | Only non-empty commands from the list are sent. |
| `LowLevel.Feed` | oct2py/core.py:565-571 | The command loop of `evaluate`: the lines collected, the engine after, and whether the process ended. `FeedSendsNonEmpty` states it. |
| `LowLevel.FeedSendsNonEmpty` | oct2py/core.py:565-571 | Unless the process ends, the loop sends exactly the non-empty commands, in order, to the same engine. |
| `LowLevel.FeedStopsAtEof` | oct2py/core.py:565-571 | A run that ends the process stopped at a non-empty command whose reply was the end of the process. By then the engine had evaluated exactly the non-empty commands up to and including that one, in order. |
| `LowLevel.Evaluation` | oct2py/core.py:547-600 | What `evaluate` does to a live process: the clear statement, the loop, the output check and the save statement. `EvaluationSpec` states it. |
| `LowLevel.EvaluationSpec` | oct2py/core.py:547-600 | The process is dropped exactly when it ends during a command (and not during the clear statement), and then the error is "Session is closed". An answer is the right-stripped join of the lines the clear statement and the commands printed. An answer never mentions `error:` and has no trailing whitespace. The engine then evaluated the clear statement, the non-empty commands and, when a file is named, the save statement. |
| `LowLevel.Session.constructor` | oct2py/core.py:536-545 | A fresh process with nothing collected or sent. |
| `LowLevel.Session.Close` | oct2py/core.py:630-649 | The engine and the process are dropped. `exit` is sent only to a live process, so closing twice sends nothing more. |
| `LowLevel.Session.RunCommands` | oct2py/core.py:565-571 | The loop is the `Feed` run: lines collected, engine after, and whether the process ended. |
| `LowLevel.Session.Evaluate` | oct2py/core.py:547-600 | The line buffer is reset on every call. A closed session raises "Session Closed". Otherwise the result, engine and lines are those of `Evaluation`. `exit` is sent exactly when the process ended during a command. |

## Left out

- Process control is not modelled: spawning `OctaveEngine`, `pexpect`, `sendline`, `kill`, signals, `time.sleep`, `atexit`, `__del__` and `os.environ`. The process is an engine handle that is present or absent plus the oracle, and `close` is recorded as the line it sends.
- The MAT codec (`write_file`/`read_file`, `oned_as`, `convert_to_float`) is opaque. A request file records the request and the options it was written with.
- `get_nout` inspects the caller's bytecode. It is the parameter `inferred`.
- The proxy classes of `oct2py.dynamic` are constructors tagged by kind and name. A pointer's `_address` is assumed to be its name. Which proxies derive from `OctavePtr` is assumed too: `Values.IsOctavePtr` takes function and variable pointers to be exactly those. `oct2py/dynamic.py` is not part of this model. `_make_user_class` is not modelled past making a new tagged class object; its own engine queries are not modelled.
- These are not modelled: `timeout`, `verbose`, logging, `warnings.warn`, the stream-handler choice, `extract_figures`, `set_plot_settings`, `handle_plot_settings`, `make_figures`, `interrupt`, `_get_doc`, stdin handling and the `convert_to_float` setter. None of them changes a modelled result.
- The engine always answers. An EOF or a timeout raised by `engine.eval` is not modelled. This covers `_pyeval` in `_feval` at core.py lines 410-411 and the `exist`, `isobject` and `class()` queries. The exception is `_Session.evaluate`, whose EOF during a command is modelled.
- The EOF message of pexpect stands in as the fixed text "End Of File (EOF)".
- Paths are POSIX only. The separator replacement `replace(os.path.sep, '/')` changes nothing there.
- `main_line` in `_Session.evaluate` is computed but never used.
- The `temp_dir` keyword of `eval` is modelled as an optional string. Other keywords are warnings only.
- Where the code departs from its documentation, the model follows the code:
  - `feval` deletes every keyword argument, so none reach the request.
  - `restart` keeps the user-class cache.
  - `_get_user_class` returns `None` on a miss. The instance branch of `get_pointer` therefore fails with `AttributeError` on a class's first lookup, and `__getattr__` memoises `None` for a new class.
  - `eval` leaves its `temp_dir` keyword in place when a command raises.
  - `pull` and `get_pointer` each query `exist` and `isobject`, so a pointer lookup from `pull` probes the name twice.
- Not modelled: the merge-conflict marker before `_Session`, and that class's uses of unimported modules. `_Session` is modelled as if they were resolved.
- Oct2PySession.Oct2Py.PullOne: the contract does not state the request files left behind.
- Oct2PySession.Oct2Py.PullFound: the contract does not state the request files left behind.
- Oct2PySession.Oct2Py.Pull: the contract does not state the request files left behind.
- Oct2PySession.Oct2Py.GetPointer: the contract does not state the request files left behind.
- Oct2PySession.Oct2Py.Push: the contract does not state the request files left behind; they are stated per call by `Assignin`.
- Oct2PySession.Oct2Py.EvalAll: the contract does not state the request files; `Evalin` states them per call.
- Oct2PySession.Oct2Py.EvalCommands: the contract does not state the request files.
- Oct2PySession.Oct2Py.MakePointer: the request files of the instance branch's `class()` evaluation are not stated.
- The truth value of an `eval` answer (`if resp:`, core.py line 347) is taken to be always defined. numpy raises `ValueError` for the truth value of an array with more than one element, and that error is not modelled.
- Protocol.ParseExist: the `exist` reply is taken to be ASCII text. `int()` also accepts other Unicode decimal digits and surrounding Unicode whitespace, which `PyText.ParseInt` does not.
- LowLevel.NonEmpty: the contract states only that every command sent is a non-empty member of the list; `FeedSendsNonEmpty` states the order.

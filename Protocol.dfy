/**
 * The decisions the session takes on plain values: how a call request is
 * built (`feval`, `_feval`), how a response is read back, how the replies
 * to `exist` and `isobject` are parsed, which proxy kind a name gets
 * (`get_pointer`, `pull`) and which names attribute access accepts
 * (`__getattr__`).
 */
module Protocol {
  import opened Results
  import opened PyText
  import opened PosixPath
  import opened Values
  import opened Seqs

  // ---------------------------------------------------------------- feval

  /** `nout` after `if nout is None: nout = get_nout() or 1`; `inferred` is what `get_nout()` returned. */
  function DefaultNout(nout: Option<int>, inferred: nat): (n: int)
    ensures nout.Some? ==> n == nout.value
    ensures nout.None? ==> n >= 1
    ensures nout.None? && inferred > 0 ==> n == inferred
    ensures nout.None? && inferred == 0 ==> n == 1
  {
    match nout
    case Some(given) => given
    case None => if inferred != 0 then inferred else 1
  }

  /** Keyword arguments in their order of insertion; Python guarantees their names are distinct. */
  predicate DistinctKeys(kwargs: seq<(string, Value)>) {
    forall i, j :: 0 <= i < j < |kwargs| ==> kwargs[i].0 != kwargs[j].0
  }

  /** `del kwargs[key]` */
  function RemoveKey(kwargs: seq<(string, Value)>, key: string): seq<(string, Value)> {
    if kwargs == [] then []
    else (if kwargs[0].0 == key then [] else [kwargs[0]]) + RemoveKey(kwargs[1..], key)
  }

  lemma {:induction false} RemoveAbsentKey(kwargs: seq<(string, Value)>, key: string)
    requires forall i :: 0 <= i < |kwargs| ==> kwargs[i].0 != key
    ensures RemoveKey(kwargs, key) == kwargs
  {
    if kwargs != [] {
      RemoveAbsentKey(kwargs[1..], key);
    }
  }

  /**
   * The loop over `list(kwargs.keys())` in `feval`: the `del` stands outside the
   * `if key.startswith('plot_')`, so every keyword argument is deleted, not only
   * the deprecated `plot_*` ones (the warning it issues for those is not modelled).
   */
  method DropKwargs(kwargs: seq<(string, Value)>) returns (remaining: seq<(string, Value)>)
    requires DistinctKeys(kwargs)
    ensures remaining == []
  {
    var keys := seq(|kwargs|, i requires 0 <= i < |kwargs| => kwargs[i].0);
    remaining := kwargs;
    var i := 0;
    while i < |keys|
      invariant 0 <= i <= |keys|
      invariant remaining == kwargs[i..]
    {
      assert remaining[0].0 == keys[i];
      RemoveAbsentKey(remaining[1..], keys[i]);
      remaining := RemoveKey(remaining, keys[i]);
      i := i + 1;
    }
  }

  /** The `(key, value)` items that `feval` folds onto the positional arguments, in order. */
  function FlattenKwargs(kwargs: seq<(string, Value)>): (items: seq<Value>)
    ensures |items| == 2 * |kwargs|
  {
    if kwargs == [] then [] else [PyStr(kwargs[0].0), kwargs[0].1] + FlattenKwargs(kwargs[1..])
  }

  /** The `i`-th keyword argument contributes its name and then its value. */
  lemma {:induction false} FlattenKwargsAt(kwargs: seq<(string, Value)>, i: nat)
    requires i < |kwargs|
    ensures FlattenKwargs(kwargs)[2 * i] == PyStr(kwargs[i].0)
    ensures FlattenKwargs(kwargs)[2 * i + 1] == kwargs[i].1
  {
    if i > 0 {
      FlattenKwargsAt(kwargs[1..], i - 1);
    }
  }

  /** The error `feval` raises for a path whose extension is neither empty nor `.m`. */
  const NotMFile := TypeError("Need to give path to .m file")

  /** The path handling of `feval`: `(dname, func_name)`, or the `TypeError` for a non-`.m` file. */
  function ResolveFunctionPath(funcPath: string): Result<(string, string)> {
    var dname := Dirname(funcPath);
    var (funcName, ext) := SplitExt(Basename(funcPath));
    if ext != "" && ext != ".m" then Err(NotMFile) else Ok((dname, funcName))
  }

  /**
   * `feval` rejects exactly the paths whose last component carries an
   * extension other than `.m`; otherwise the function name is the stem of
   * the base name, the path is its head, that name and nothing or `.m`, and
   * the function name holds no `/`.
   */
  lemma {:induction false} ResolveFunctionPathParts(funcPath: string)
    ensures var r := ResolveFunctionPath(funcPath); var (stem, ext) := SplitExt(Basename(funcPath));
      && (r.Err? <==> ext != "" && ext != ".m")
      && (r.Err? ==> r.error == NotMFile)
      && (r.Ok? ==> r.value == (Dirname(funcPath), stem))
      && Basename(funcPath) == stem + ext
      && (forall k :: 0 <= k < |stem| ==> stem[k] != '/')
      && (r.Ok? ==> funcPath == Head(funcPath) + stem || funcPath == Head(funcPath) + stem + ".m")
  {
    var stem, ext := PathParts(funcPath);
    SplitExtParts(Basename(funcPath));
    Units(Head(funcPath) + stem);
  }

  /** A bare function name, or one inside a directory, calls that function from that directory. */
  lemma {:induction false} ResolveBareName(dir: string, name: string)
    requires name != [] && '/' !in name && '.' !in name
    ensures ResolveFunctionPath(JoinPath(dir, name)) == Ok((if AllAre(dir, '/') then dir else TrimSlashes(dir), name))
  {
    JoinThenSplit(dir, name);
    SplitExtNoDot(name);
  }

  /**
   * A file `name.e` inside a directory calls the function `name` from that
   * directory when `e` is `m`, and is refused for any other extension.
   */
  lemma {:induction false} ResolveFileWithExtension(dir: string, name: string, e: string)
    requires name != [] && '/' !in name && '.' !in name
    requires '/' !in e && '.' !in e
    ensures ResolveFunctionPath(JoinPath(dir, name + "." + e)) ==
      if e == "m" then Ok((if AllAre(dir, '/') then dir else TrimSlashes(dir), name)) else Err(NotMFile)
  {
    SplitExtOfName(name, e);
    JoinThenSplit(dir, name + "." + e);
    DotExtension(e);
  }

  lemma DotExtension(e: string)
    ensures "." + e == ".m" <==> e == "m"
    ensures "." + e != ""
  {
    if "." + e == ".m" {
      assert e == ("." + e)[1..];
    }
  }

  // ---------------------------------------------------------------- _feval

  /** What `_feval` sends in place of one argument: a pointer's address, anything else unchanged. */
  function SentValue(v: Value): Value {
    if IsOctavePtr(v) then PyStr(Address(v)) else v
  }

  /** The argument list of the request, after pointers are replaced by their addresses. */
  function SubstitutedArgs(args: seq<Value>): seq<Value> {
    seq(|args|, i requires 0 <= i < |args| => SentValue(args[i]))
  }

  /** `replacements`: the 1-based positions of the pointer arguments. */
  function PointerIndices(args: seq<Value>): seq<int>
    decreases |args|
  {
    if args == [] then []
    else PointerIndices(args[..|args| - 1]) + (if IsOctavePtr(args[|args| - 1]) then [|args|] else [])
  }

  /** The replacement indices are ascending, 1-based, and name exactly the pointer arguments. */
  lemma PointerIndicesSpec(args: seq<Value>)
    ensures var r := PointerIndices(args);
      && (forall j :: 0 <= j < |r| ==> 1 <= r[j] <= |args| && IsOctavePtr(args[r[j] - 1]))
      && (forall i :: 0 <= i < |args| && IsOctavePtr(args[i]) ==> i + 1 in r)
      && (forall j, k :: 0 <= j < k < |r| ==> r[j] < r[k])
  {
    PointerIndicesSound(args);
    PointerIndicesComplete(args);
    PointerIndicesAscending(args);
  }

  /** Every replacement index is 1-based and names a pointer argument. */
  lemma {:induction false} PointerIndicesSound(args: seq<Value>)
    ensures forall j :: 0 <= j < |PointerIndices(args)| ==>
      1 <= PointerIndices(args)[j] <= |args| && IsOctavePtr(args[PointerIndices(args)[j] - 1])
    decreases |args|
  {
    if args != [] {
      var init := args[..|args| - 1];
      PointerIndicesSound(init);
      var r0, r := PointerIndices(init), PointerIndices(args);
      assert r == r0 + (if IsOctavePtr(args[|args| - 1]) then [|args|] else []);
      forall j | 0 <= j < |r|
        ensures 1 <= r[j] <= |args| && IsOctavePtr(args[r[j] - 1])
      {
        if j < |r0| {
          assert r[j] == r0[j] && init[r0[j] - 1] == args[r0[j] - 1];
        }
      }
    }
  }

  /** Every pointer argument is named by a replacement index. */
  lemma {:induction false} PointerIndicesComplete(args: seq<Value>)
    ensures forall i :: 0 <= i < |args| && IsOctavePtr(args[i]) ==> i + 1 in PointerIndices(args)
    decreases |args|
  {
    if args != [] {
      var init := args[..|args| - 1];
      PointerIndicesComplete(init);
      assert forall i :: 0 <= i < |init| ==> init[i] == args[i];
    }
  }

  /** The replacement indices are strictly ascending. */
  lemma {:induction false} PointerIndicesAscending(args: seq<Value>)
    ensures forall j, k :: 0 <= j < k < |PointerIndices(args)| ==> PointerIndices(args)[j] < PointerIndices(args)[k]
    decreases |args|
  {
    if args != [] {
      var init := args[..|args| - 1];
      PointerIndicesAscending(init);
      PointerIndicesSound(init);
      var r0, r := PointerIndices(init), PointerIndices(args);
      assert r == r0 + (if IsOctavePtr(args[|args| - 1]) then [|args|] else []);
      forall j, k | 0 <= j < k < |r|
        ensures r[j] < r[k]
      {
        assert r[j] == r0[j];
        if k < |r0| {
          assert r[k] == r0[k];
        }
      }
    }
  }

  /** The loop of `_feval` over `enumerate(func_args)`, rewriting the list and collecting `replacements`. */
  method SubstitutePointers(args: seq<Value>) returns (sent: seq<Value>, replacements: seq<int>)
    ensures |sent| == |args|
    ensures forall i :: 0 <= i < |args| ==> sent[i] == if IsOctavePtr(args[i]) then PyStr(Address(args[i])) else args[i]
    ensures sent == SubstitutedArgs(args) && replacements == PointerIndices(args)
  {
    sent := args;
    replacements := [];
    var i := 0;
    while i < |sent|
      invariant 0 <= i <= |args| && |sent| == |args|
      invariant forall k :: 0 <= k < i ==> sent[k] == SentValue(args[k])
      invariant forall k :: i <= k < |args| ==> sent[k] == args[k]
      invariant replacements == PointerIndices(args[..i])
    {
      assert args[..i + 1][..i] == args[..i];
      if IsOctavePtr(sent[i]) {
        replacements := replacements + [i + 1];
        sent := sent[i := PyStr(Address(sent[i]))];
      }
      i := i + 1;
    }
    assert args[..|args|] == args;
  }

  /** The request `_feval` writes for a call. */
  function BuildRequest(funcName: string, args: seq<Value>, dname: string, nout: int, storeAs: string): Request {
    Request(funcName, SubstitutedArgs(args), dname, nout, storeAs, PointerIndices(args))
  }

  /**
   * The request `_feval` writes keeps the call's name, directory, `nout` and
   * `store_as`, has one argument per argument given, sends each pointer as
   * its address and every other argument as it is, and marks exactly the
   * pointers' 1-based positions.
   */
  lemma {:induction false} BuildRequestSpec(funcName: string, args: seq<Value>, dname: string, nout: int, storeAs: string)
    ensures var r := BuildRequest(funcName, args, dname, nout, storeAs);
      && r.funcName == funcName && r.dname == dname && r.nout == nout && r.storeAs == storeAs
      && |r.funcArgs| == |args|
      && (forall i :: 0 <= i < |args| && IsOctavePtr(args[i]) ==> r.funcArgs[i] == PyStr(Address(args[i])))
      && (forall i :: 0 <= i < |args| && !IsOctavePtr(args[i]) ==> r.funcArgs[i] == args[i])
      && (forall i :: 0 <= i < |args| ==> (i + 1 in r.replacementIndices <==> IsOctavePtr(args[i])))
  {
    var r := PointerIndices(args);
    PointerIndicesSpec(args);
    forall i | 0 <= i < |args| && i + 1 in r
      ensures IsOctavePtr(args[i])
    {
      var j :| 0 <= j < |r| && r[j] == i + 1;
    }
  }

  /** The statement that makes Octave read the request file and write the response file. */
  function PyevalCommand(outFile: string, inFile: string): string {
    "_pyeval(\"" + outFile + "\", \"" + inFile + "\");"
  }

  /** The request and response paths inside the session's temp directory. */
  function WriterPath(tempDir: string): string { JoinPath(tempDir, "writer.mat") }
  function ReaderPath(tempDir: string): string { JoinPath(tempDir, "reader.mat") }

  /** The two payload files sit directly in the temp directory, under their fixed names. */
  lemma {:induction false} PayloadPaths(tempDir: string)
    ensures Basename(WriterPath(tempDir)) == "writer.mat" && Basename(ReaderPath(tempDir)) == "reader.mat"
    ensures Dirname(WriterPath(tempDir)) == Dirname(ReaderPath(tempDir))
    ensures WriterPath(tempDir) != ReaderPath(tempDir)
  {
    JoinThenSplit(tempDir, "writer.mat");
    JoinThenSplit(tempDir, "reader.mat");
  }

  /** How `_feval` reads the response: an error record raises, a blank result becomes `None`. */
  function InterpretResponse(resp: Response): (r: Result<Value>)
    ensures r.Err? <==> resp.error.Some?
    ensures resp.error.Some? ==> r.error == Oct2PyError(resp.error.value)
    ensures resp.error.None? && Str(resp.result) == "" ==> r == Ok(PyNone)
    ensures resp.error.None? && Str(resp.result) != "" ==> r == Ok(resp.result)
  {
    match resp.error
    case Some(message) => Err(Oct2PyError(message))
    case None => if Str(resp.result) == "" then Ok(PyNone) else Ok(resp.result)
  }

  /** A call never hands back a value whose string form is blank. */
  lemma {:induction false} ResultNeverBlank(resp: Response)
    ensures InterpretResponse(resp).Ok? ==> Str(InterpretResponse(resp).value) != ""
  {
  }

  // ---------------------------------------------------------------- _exist and _isobject

  function ExistCommand(name: string): string { "exist(\"" + name + "\")" }
  function IsObjectCommand(name: string): string { "isobject(" + name + ")" }
  function ClassCommand(name: string): string { "class(" + name + ");" }

  /** The statement `restart` sends to a new engine so that it finds the package's own scripts. */
  function AddpathCommand(dir: string): string { "addpath(\"" + dir + "\");" }

  function DoesNotExist(name: string): Error { ValueError("Value \"" + name + "\" does not exist") }

  /** `_exist`'s reading of the reply: the integer in its last word, and 0 means the name does not exist. */
  function ParseExist(name: string, reply: string): (r: Result<int>)
    ensures r.Ok? ==> r.value != 0
    ensures r.Err? && r.error.IndexError? <==> Words(Strip(reply)) == []
  {
    var words := Words(Strip(reply));
    if words == [] then Err(IndexError("list index out of range"))
    else
      var last := words[|words| - 1];
      match ParseInt(last)
      case None => Err(ValueError("invalid literal for int() with base 10: '" + last + "'"))
      case Some(code) => if code == 0 then Err(DoesNotExist(name)) else Ok(code)
  }

  /** A code comes from the last word of the stripped reply, read by `int()`. */
  lemma {:induction false} ParseExistCode(name: string, reply: string)
    requires ParseExist(name, reply).Ok?
    ensures var ws := Words(Strip(reply));
      ws != [] && ParseInt(ws[|ws| - 1]) == Some(ParseExist(name, reply).value)
  {
  }

  /** A last word that `int()` refuses raises `ValueError`. */
  lemma {:induction false} ParseExistBadWord(name: string, reply: string, w: string)
    requires var ws := Words(Strip(reply)); ws != [] && ws[|ws| - 1] == w
    requires ParseInt(w).None?
    ensures ParseExist(name, reply).Err? && ParseExist(name, reply).error.ValueError?
  {
  }

  /**
   * A reply that ends in the printed code, such as `ans = 2`, gives back that
   * code, and the code 0 is the "does not exist" error.
   */
  lemma {:induction false} ExistOfCodeReply(name: string, pre: string, code: int, post: string)
    requires pre == [] || IsSpace(pre[|pre| - 1])
    requires AllSpace(post)
    ensures ParseExist(name, pre + Show(code) + post) == if code == 0 then Err(DoesNotExist(name)) else Ok(code)
  {
    var w := ShownCode(code);
    ExistOfWordReply(name, pre, w, post, code);
  }

  /** A reply that ends in one word parsing as `code`, with only whitespace after it, gives back that code, unless it is 0. */
  lemma {:induction false} ExistOfWordReply(name: string, pre: string, w: string, post: string, code: int)
    requires pre == [] || IsSpace(pre[|pre| - 1])
    requires w != [] && NoSpace(w) && AllSpace(post)
    requires ParseInt(w) == Some(code)
    ensures ParseExist(name, pre + w + post) == if code == 0 then Err(DoesNotExist(name)) else Ok(code)
  {
    var reply := pre + w + post;
    LastWordOfStripped(pre, w, post);
    if code == 0 {
      ParseExistOfLastWord(name, reply, w, code);
    } else {
      ParseExistOfLastWord(name, reply, w, code);
    }
  }

  /** The printed form of a code is one word that parses back to the code. */
  lemma {:induction false} ShownCode(code: int) returns (w: string)
    ensures w == Show(code) && w != [] && NoSpace(w) && ParseInt(w) == Some(code)
  {
    ShowIsWord(code);
    ParseShow(code);
    w := Show(code);
  }

  /** A reply whose last word parses as `code` gives back that code, unless it is 0. */
  lemma {:induction false} ParseExistOfLastWord(name: string, reply: string, w: string, code: int)
    requires var ws := Words(Strip(reply)); ws != [] && ws[|ws| - 1] == w
    requires ParseInt(w) == Some(code)
    ensures ParseExist(name, reply) == if code == 0 then Err(DoesNotExist(name)) else Ok(code)
  {
  }

  /** The literal reply `_isobject` takes for "is an object". */
  const ObjectReply := "ans =  1"

  /** `_isobject`'s reading of the reply. */
  predicate IsObjectReply(reply: string) {
    Strip(reply) == ObjectReply
  }

  /** `_isobject` answers without asking Octave for the codes 2 (file) and 5 (built-in function). */
  predicate NeedsObjectQuery(exist: int) {
    exist != 2 && exist != 5
  }

  /** The whole `_isobject` decision, given the reply Octave would give if asked. */
  function ObjectAnswer(exist: int, reply: string): (b: bool)
    ensures !NeedsObjectQuery(exist) ==> !b
    ensures NeedsObjectQuery(exist) ==> (b <==> Strip(reply) == "ans =  1")
  {
    NeedsObjectQuery(exist) && IsObjectReply(reply)
  }

  /** Whitespace around the expected reply does not matter; any other reply means "not an object". */
  lemma {:induction false} ObjectReplyPadded(pre: string, post: string)
    requires AllSpace(pre) && AllSpace(post)
    ensures IsObjectReply(pre + ObjectReply + post)
    ensures !IsObjectReply(pre + "ans = 1" + post)
  {
    StripPadded(pre, ObjectReply, post);
    StripPadded(pre, "ans = 1", post);
  }

  // ---------------------------------------------------------------- get_pointer and pull

  /** The proxy kinds `get_pointer` chooses between. */
  datatype Kind = InstanceKind | VariableKind | ClassKind | FunctionKind | UnknownKind

  /** The branches of `get_pointer`, in their order. */
  function Classify(exist: int, isObject: bool): (k: Kind)
    ensures k == InstanceKind <==> exist == 1 && isObject
    ensures k == VariableKind <==> exist == 1 && !isObject
    ensures k == ClassKind <==> exist != 1 && isObject
    ensures k == FunctionKind <==> exist != 1 && !isObject && exist in {2, 3, 5}
    ensures k == UnknownKind <==> exist != 1 && !isObject && exist !in {2, 3, 5}
  {
    if exist == 1 && isObject then InstanceKind
    else if exist == 1 then VariableKind
    else if isObject then ClassKind
    else if exist in {2, 3, 5} then FunctionKind
    else UnknownKind
  }

  /** `pull` fetches a name by value only when its code is 1 and it is not an object. */
  predicate FetchByValue(exist: int, isObject: bool) {
    exist == 1 && !isObject
  }

  /**
   * `pull` and `get_pointer` agree: what `pull` fetches by value is exactly what
   * `get_pointer` would have made a variable pointer of, so `pull` never hands
   * out a variable pointer for the codes it saw.
   */
  lemma {:induction false} PullSplitsByKind(exist: int, isObject: bool)
    ensures FetchByValue(exist, isObject) <==> Classify(exist, isObject) == VariableKind
    ensures !FetchByValue(exist, isObject) ==> Classify(exist, isObject) in {InstanceKind, ClassKind, FunctionKind, UnknownKind}
  {
  }

  /** Files and built-ins are never asked `isobject` and always become function pointers, whatever Octave would reply. */
  lemma {:induction false} FunctionCodesSkipObjectQuery(exist: int, reply: string)
    requires exist == 2 || exist == 5
    ensures Classify(exist, ObjectAnswer(exist, reply)) == FunctionKind
  {
  }

  /** What `pull` returns: the bare output for one name, the list otherwise. */
  datatype Pulled = One(value: Value) | Several(values: seq<Value>)

  function Unwrap(outputs: seq<Value>): (r: Pulled)
    ensures |outputs| == 1 <==> r.One?
    ensures r.One? ==> r.value == outputs[0]
    ensures r.Several? ==> r.values == outputs
  {
    if |outputs| == 1 then One(outputs[0]) else Several(outputs)
  }

  // ---------------------------------------------------------------- __getattr__

  /**
   * The name `__getattr__` looks up for an attribute: a trailing `_` is dropped
   * (so `close_` reaches Octave's `close`); dunder names are refused.
   */
  function AttributeName(attr: string): (r: Result<string>)
    ensures StartsWith(attr, "__") ==> r.Err? && r.error.AttributeError?
    ensures attr == [] ==> r.Err? && r.error.IndexError?
    ensures !StartsWith(attr, "__") && attr != [] ==> r.Ok?
    ensures r.Ok? ==> attr != [] && (r.value == attr || r.value + "_" == attr)
    ensures r.Ok? ==> (r.value == attr <==> attr[|attr| - 1] != '_')
  {
    if StartsWith(attr, "__") then Err(AttributeError("'super' object has no attribute '__getattr__'"))
    else if attr == [] then Err(IndexError("string index out of range"))
    else if attr[|attr| - 1] == '_' then Ok(attr[..|attr| - 1])
    else Ok(attr)
  }

  /** A name escaped with a trailing `_` (`print_`, `exit_`) reaches the Octave name it escapes. */
  lemma {:induction false} EscapedAttributeName(name: string)
    requires !StartsWith(name + "_", "__")
    ensures AttributeName(name + "_") == Ok(name)
  {
    assert (name + "_")[..|name|] == name;
  }

  /** The name codes `__getattr__` accepts: file, built-in or command-line function, or code 3. */
  predicate CallableCode(exist: int) {
    exist in {2, 3, 5, 103}
  }

  function NotCallable(name: string): Error {
    Oct2PyError("Name \"" + name + "\" is not a valid callable, use `pull` for variables")
  }
}

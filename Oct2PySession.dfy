/**
 * The `Oct2Py` session object: its engine handle, temp directory, class
 * cache and memoised attributes, and the operations that drive an Octave
 * engine through them.
 *
 * The engine's answers come from the `Octave` oracle. The pure functions
 * at the top of the module say what one engine interaction gives back and
 * what the engine looks like afterwards; the methods of `Oct2Py` are proved
 * against them.
 */
module Oct2PySession {
  import opened Results
  import opened Seqs
  import opened PyText
  import opened PosixPath
  import opened Values
  import opened Protocol

  /** Using the engine handle after `exit()` set it to `None`. */
  const NoEngineEval := AttributeError("'NoneType' object has no attribute 'eval'")
  const NoStreamHandler := AttributeError("'NoneType' object has no attribute 'stream_handler'")
  /** `cls.from_name(...)` when `_get_user_class` handed back `None`. */
  const NoFromName := AttributeError("'NoneType' object has no attribute 'from_name'")

  function UnknownType(name: string): Error {
    ValueError("Unknown type for object \"" + name + "\"")
  }

  /** `engine.eval(cmd, silent=True)`: the printed text, and the engine with the statement recorded. */
  function Query(o: Octave, e: Option<Engine>, cmd: string): (Result<string>, Option<Engine>) {
    match e
    case None => (Err(NoEngineEval), None)
    case Some(eng) => (Ok(o.text(eng.history, cmd)), Some(Record(eng, Eval(cmd))))
  }

  /** The engine part of `_feval` for a request written under `dir`: evaluate `_pyeval` and read the response. */
  function Dispatch(o: Octave, e: Option<Engine>, dir: string, req: Request): (Result<Value>, Option<Engine>) {
    match e
    case None => (Err(NoStreamHandler), None)
    case Some(eng) =>
      var cmd := PyevalCommand(WriterPath(dir), ReaderPath(dir));
      (InterpretResponse(o.answer(eng.history, cmd, req)), Some(Record(eng, Call(cmd, req))))
  }

  /**
   * With no engine, `_feval` fails on the missing stream handler. Otherwise
   * the engine records exactly one `_pyeval` call on the request and keeps
   * its serial; the call raises exactly when the response holds an error,
   * with its message, and otherwise answers the result, `None` for a blank one.
   */
  lemma {:induction false} DispatchSpec(o: Octave, e: Option<Engine>, dir: string, req: Request)
    ensures var (r, e') := Dispatch(o, e, dir, req);
      && (e.None? ==> r == Err(NoStreamHandler) && e'.None?)
      && (e.Some? ==>
            var cmd := PyevalCommand(WriterPath(dir), ReaderPath(dir));
            var resp := o.answer(e.value.history, cmd, req);
            && e'.Some? && e'.value.serial == e.value.serial
            && e'.value.history == e.value.history + [Call(cmd, req)]
            && (resp.error.Some? <==> r.Err?)
            && (resp.error.Some? ==> r == Err(Oct2PyError(resp.error.value)))
            && (r.Ok? ==> Str(r.value) != "")
            && (r.Ok? ==> r.value == if Str(resp.result) == "" then PyNone else resp.result))
  {
    if e.Some? {
      var cmd := PyevalCommand(WriterPath(dir), ReaderPath(dir));
      ResultNeverBlank(o.answer(e.value.history, cmd, req));
    }
  }

  /**
   * `_exist(name)` followed by `_isobject(name, exist)`: the name's `exist`
   * code and whether it is an object, and the engine after both queries. The
   * object query is skipped for the codes 2 and 5.
   */
  function ProbeName(o: Octave, e: Option<Engine>, name: string): (p: (Result<(int, bool)>, Option<Engine>))
    ensures p.0.Ok? ==> p.0.value.0 != 0 && (!NeedsObjectQuery(p.0.value.0) ==> !p.0.value.1)
    ensures e.None? ==> p.0.Err? && p.1.None?
  {
    var (reply, e1) := Query(o, e, ExistCommand(name));
    if reply.Err? then (Err(reply.error), e1)
    else
      match ParseExist(name, reply.value)
      case Err(err) => (Err(err), e1)
      case Ok(code) =>
        if !NeedsObjectQuery(code) then (Ok((code, false)), e1)
        else
          var (obj, e2) := Query(o, e1, IsObjectCommand(name));
          if obj.Err? then (Err(obj.error), e2) else (Ok((code, ObjectAnswer(code, obj.value))), e2)
  }

  /** Puts answers already collected in front of the outcome of the calls still to come. */
  function Prepend<S>(got: seq<Value>, rest: (Result<seq<Value>>, S)): (Result<seq<Value>>, S) {
    (if rest.0.Ok? then Ok(got + rest.0.value) else rest.0, rest.1)
  }

  /** A run of `_feval` calls, one per request, that stops at the first one that raises. */
  function RunRequests(o: Octave, e: Option<Engine>, dir: string, reqs: seq<Request>): (Result<seq<Value>>, Option<Engine>)
    decreases |reqs|
  {
    if reqs == [] then (Ok([]), e)
    else
      var (r, e1) := Dispatch(o, e, dir, reqs[0]);
      if r.Err? then (Err(r.error), e1)
      else Prepend([r.value], RunRequests(o, e1, dir, reqs[1..]))
  }

  lemma PrependPrepend<S>(a: seq<Value>, b: seq<Value>, rest: (Result<seq<Value>>, S))
    ensures Prepend(a, Prepend(b, rest)) == Prepend(a + b, rest)
  {
    if rest.0.Ok? {
      Associative(a, b, rest.0.value);
    }
  }

  /**
   * A successful run answers every request and records one `_pyeval` call per
   * request, in order, on the same engine; with no engine, any request fails
   * at once.
   */
  lemma {:induction false} RunRequestsSpec(o: Octave, e: Option<Engine>, dir: string, reqs: seq<Request>)
    ensures var (r, e') := RunRequests(o, e, dir, reqs);
      && (r.Ok? ==> |r.value| == |reqs|)
      && (e.None? ==> e'.None? && (r.Ok? <==> reqs == []))
      && (e.Some? ==> e'.Some? && e'.value.serial == e.value.serial)
      && (e.Some? && r.Ok? ==>
            var cmd := PyevalCommand(WriterPath(dir), ReaderPath(dir));
            e'.value.history == e.value.history + seq(|reqs|, i requires 0 <= i < |reqs| => Call(cmd, reqs[i])))
    decreases |reqs|
  {
    if reqs != [] {
      var (r0, e1) := Dispatch(o, e, dir, reqs[0]);
      if r0.Ok? {
        RunRequestsSpec(o, e1, dir, reqs[1..]);
        var (r, e') := RunRequests(o, e, dir, reqs);
        if e.Some? && r.Ok? {
          var cmd := PyevalCommand(WriterPath(dir), ReaderPath(dir));
          var calls := seq(|reqs|, i requires 0 <= i < |reqs| => Call(cmd, reqs[i]));
          var rest := seq(|reqs| - 1, i requires 0 <= i < |reqs| - 1 => Call(cmd, reqs[1..][i]));
          assert calls == [Call(cmd, reqs[0])] + rest;
          Associative(e.value.history, [Call(cmd, reqs[0])], rest);
        }
      }
    }
  }

  /** Before the first call, nothing has been collected and every request is still to come. */
  lemma RunStart(o: Octave, e: Option<Engine>, dir: string, reqs: seq<Request>)
    ensures RunRequests(o, e, dir, reqs) == Prepend([], RunRequests(o, e, dir, reqs[0..]))
  {
    assert reqs[0..] == reqs;
    if RunRequests(o, e, dir, reqs).0.Ok? {
      Units(RunRequests(o, e, dir, reqs).0.value);
    }
  }

  /** One more call answered: its answer joins those collected. */
  lemma RunAdvance(o: Octave, e0: Option<Engine>, dir: string, reqs: seq<Request>, got: seq<Value>,
                   e: Option<Engine>, i: nat, v: Value, e1: Option<Engine>)
    requires i < |reqs|
    requires RunRequests(o, e0, dir, reqs) == Prepend(got, RunRequests(o, e, dir, reqs[i..]))
    requires Dispatch(o, e, dir, reqs[i]) == (Ok(v), e1)
    ensures RunRequests(o, e0, dir, reqs) == Prepend(got + [v], RunRequests(o, e1, dir, reqs[i + 1..]))
  {
    assert reqs[i..][0] == reqs[i] && reqs[i..][1..] == reqs[i + 1..];
    PrependPrepend(got, [v], RunRequests(o, e1, dir, reqs[i + 1..]));
  }

  /** A call that raised ends the run with its error. */
  lemma RunStop(o: Octave, e0: Option<Engine>, dir: string, reqs: seq<Request>, got: seq<Value>,
                e: Option<Engine>, i: nat, err: Error, e1: Option<Engine>)
    requires i < |reqs|
    requires RunRequests(o, e0, dir, reqs) == Prepend(got, RunRequests(o, e, dir, reqs[i..]))
    requires Dispatch(o, e, dir, reqs[i]) == (Err(err), e1)
    ensures RunRequests(o, e0, dir, reqs) == (Err(err), e1)
  {
    assert reqs[i..][0] == reqs[i];
  }

  /** After the last call, the run answered with everything collected. */
  lemma RunEnd(o: Octave, e0: Option<Engine>, dir: string, reqs: seq<Request>, got: seq<Value>, e: Option<Engine>)
    requires RunRequests(o, e0, dir, reqs) == Prepend(got, RunRequests(o, e, dir, reqs[|reqs|..]))
    ensures RunRequests(o, e0, dir, reqs) == (Ok(got), e)
  {
    assert reqs[|reqs|..] == [];
    Units(got);
  }

  /** The `ans` that `eval` keeps: the last truthy answer, or `None`. */
  function LastTruthy(answers: seq<Value>): Value
    decreases |answers|
  {
    if answers == [] then PyNone
    else if Truthy(answers[|answers| - 1]) then answers[|answers| - 1]
    else LastTruthy(answers[..|answers| - 1])
  }

  /** `eval` returns `None` exactly when no command answered with a truthy value. */
  lemma {:induction false} LastTruthyNone(answers: seq<Value>)
    ensures LastTruthy(answers) == PyNone <==> forall i :: 0 <= i < |answers| ==> !Truthy(answers[i])
    decreases |answers|
  {
    if answers != [] {
      var init := answers[..|answers| - 1];
      LastTruthyNone(init);
      assert forall i :: 0 <= i < |init| ==> init[i] == answers[i];
    }
  }

  /** Otherwise it returns an answer that is truthy and that no later truthy answer follows. */
  lemma {:induction false} LastTruthyIsLast(answers: seq<Value>) returns (k: nat)
    requires LastTruthy(answers) != PyNone
    ensures k < |answers| && answers[k] == LastTruthy(answers) && Truthy(answers[k])
    ensures forall j :: k < j < |answers| ==> !Truthy(answers[j])
    decreases |answers|
  {
    var last := |answers| - 1;
    if Truthy(answers[last]) {
      k := last;
    } else {
      var init := answers[..last];
      k := LastTruthyIsLast(init);
      assert answers[k] == init[k];
      assert forall j :: k < j < last ==> answers[j] == init[j];
    }
  }

  lemma LastTruthySnoc(answers: seq<Value>, v: Value)
    ensures LastTruthy(answers + [v]) == if Truthy(v) then v else LastTruthy(answers)
  {
    assert (answers + [v])[..|answers|] == answers;
  }

  /** The argument form `eval` and `pull` take: one string, or a list of them. */
  datatype Names = Single(name: string) | List(names: seq<string>)

  /** `if isinstance(cmds, str): cmds = [cmds]` */
  function NameList(n: Names): (l: seq<string>)
    ensures n.Single? ==> l == [n.name]
    ensures n.List? ==> l == n.names
  {
    match n
    case Single(s) => [s]
    case List(ss) => ss
  }

  /** The request `feval('evalin', 'base', cmd, nout=nout)` writes. */
  function EvalRequest(cmd: string, nout: int): Request {
    BuildRequest("evalin", [PyStr("base"), PyStr(cmd)], "", nout, "")
  }

  /** The requests of `eval`: one `evalin` per command, with no output asked for. */
  function EvalRequests(cmds: seq<string>): seq<Request> {
    seq(|cmds|, i requires 0 <= i < |cmds| => EvalRequest(cmds[i], 0))
  }

  /** The request `feval('assignin', 'base', n, v, nout=0)` writes. */
  function AssignRequest(name: string, v: Value): Request {
    BuildRequest("assignin", [PyStr("base"), PyStr(name), v], "", 0, "")
  }

  /** The arguments of `push`: one name and its value, or two lists that `zip` pairs up. */
  datatype Assignment = One(name: string, value: Value) | Many(names: seq<string>, values: seq<Value>)

  /** The `(name, value)` pairs of `zip(name, var)`: as many as the shorter list. */
  function Pairs(a: Assignment): (ps: seq<(string, Value)>)
    ensures a.One? ==> ps == [(a.name, a.value)]
    ensures a.Many? ==> |ps| == if |a.names| < |a.values| then |a.names| else |a.values|
    ensures a.Many? ==> forall i :: 0 <= i < |ps| ==> ps[i] == (a.names[i], a.values[i])
  {
    match a
    case One(n, v) => [(n, v)]
    case Many(ns, vs) =>
      var k := if |ns| < |vs| then |ns| else |vs|;
      seq(k, i requires 0 <= i < k => (ns[i], vs[i]))
  }

  function AssignRequests(ps: seq<(string, Value)>): seq<Request> {
    seq(|ps|, i requires 0 <= i < |ps| => AssignRequest(ps[i].0, ps[i].1))
  }

  lemma AssignRequestAt(ps: seq<(string, Value)>, i: nat)
    requires i < |ps|
    ensures AssignRequests(ps)[i] == AssignRequest(ps[i].0, ps[i].1)
  {
  }

  /** What `eval` returns: `ans`, or `('', ans)` under the deprecated `return_both`. */
  datatype EvalAnswer = Plain(ans: Value) | WithText(text: string, ans: Value)

  /** What a pointer lookup may give for each kind of name. */
  predicate PointerFor(name: string, kind: Kind, v: Value) {
    match kind
    case InstanceKind => v.PyProxy? && v.p.Instance? && v.p.address == name && v.p.cls.UserClass?
    case VariableKind => v == PyProxy(VariablePtr(name))
    case ClassKind => v == PyNone || (v.PyProxy? && v.p.UserClass? && v.p.className == PyStr(name))
    case FunctionKind => v == PyProxy(FunctionPtr(name))
    case UnknownKind => false
  }

  /** The part of the session a name lookup reads and changes: the engine, `_user_classes`, and how many classes were made. */
  datatype State = State(engine: Option<Engine>, classes: map<Value, Proxy>, made: nat)

  /** Every cached class was made for its own name. */
  predicate CacheValid(classes: map<Value, Proxy>) {
    forall c :: c in classes ==> classes[c].UserClass? && classes[c].className == c
  }

  /** `_get_user_class(name)`: a hit returns the cached class; a miss caches a new class and returns `None`. */
  function UserClassLookup(s: State, name: Value): (Value, State) {
    if name in s.classes then (PyProxy(s.classes[name]), s)
    else (PyNone, s.(classes := s.classes[name := UserClass(name, s.made)], made := s.made + 1))
  }

  /**
   * The branches of `get_pointer` once the name's code and object test are
   * known. An instance takes its class from `eval('class(name);')`, run with
   * the temp directory `dir`.
   */
  function PointerOf(o: Octave, dir: string, s: State, name: string, code: int, isObject: bool): (Result<Value>, State) {
    match Classify(code, isObject)
    case InstanceKind =>
      var run := RunRequests(o, s.engine, dir, EvalRequests([ClassCommand(name)]));
      if run.0.Err? then (Err(run.0.error), s.(engine := run.1))
      else
        var (cls, s1) := UserClassLookup(s.(engine := run.1), LastTruthy(run.0.value));
        (if cls.PyProxy? && cls.p.UserClass? then Ok(PyProxy(Instance(cls.p, name))) else Err(NoFromName), s1)
    case VariableKind => (Ok(PyProxy(VariablePtr(name))), s)
    case ClassKind =>
      var (cls, s1) := UserClassLookup(s, PyStr(name));
      (Ok(cls), s1)
    case FunctionKind => (Ok(PyProxy(FunctionPtr(name))), s)
    case UnknownKind => (Err(UnknownType(name)), s)
  }

  /** `get_pointer(name)`: probe the name, then make the proxy of its kind. */
  function PointerLookup(o: Octave, dir: string, s: State, name: string): (Result<Value>, State) {
    var (p, e1) := ProbeName(o, s.engine, name);
    match p
    case Err(err) => (Err(err), s.(engine := e1))
    case Ok((code, isObject)) => PointerOf(o, dir, s.(engine := e1), name, code, isObject)
  }

  /** `get_pointer` once the probe has answered `p`, leaving the engine `e1`. */
  lemma PointerLookupOf(o: Octave, dir: string, s: State, name: string, p: Result<(int, bool)>, e1: Option<Engine>)
    requires (p, e1) == ProbeName(o, s.engine, name)
    ensures PointerLookup(o, dir, s, name)
            == if p.Err? then (Err(p.error), s.(engine := e1)) else PointerOf(o, dir, s.(engine := e1), name, p.value.0, p.value.1)
  {
  }

  /** A name of `pull` once probed: fetched by value through `evalin` when it is a plain variable, otherwise looked up with `get_pointer`. */
  function PullProbed(o: Octave, dir: string, s: State, name: string, inferred: nat, code: int, isObject: bool): (Result<Value>, State) {
    if FetchByValue(code, isObject) then
      var (r, e2) := Dispatch(o, s.engine, dir, EvalRequest(name, DefaultNout(None, inferred)));
      (r, s.(engine := e2))
    else PointerLookup(o, dir, s, name)
  }

  /** One name of `pull`: probed, then fetched by value or looked up as a pointer. */
  function PullName(o: Octave, dir: string, s: State, name: string, inferred: nat): (Result<Value>, State) {
    var (p, e1) := ProbeName(o, s.engine, name);
    match p
    case Err(err) => (Err(err), s.(engine := e1))
    case Ok((code, isObject)) => PullProbed(o, dir, s.(engine := e1), name, inferred, code, isObject)
  }

  /** `pull`'s step on one name, as a function of the session it starts from. */
  function PullStep(o: Octave, dir: string, inferred: nat): (State, string) -> (Result<Value>, State) {
    (t: State, name: string) => PullName(o, dir, t, name, inferred)
  }

  /** Any step run over a list of names, each from the session the previous one left, stopping at the first error. */
  function RunSteps(step: (State, string) -> (Result<Value>, State), s: State, names: seq<string>): (Result<seq<Value>>, State)
    decreases |names|
  {
    if names == [] then (Ok([]), s)
    else
      var (r, s1) := step(s, names[0]);
      if r.Err? then (Err(r.error), s1)
      else Prepend([r.value], RunSteps(step, s1, names[1..]))
  }

  /** The loop of `pull`: one output per name, in order, stopping at the first name that raises. */
  function PullNames(o: Octave, dir: string, s: State, names: seq<string>, inferred: nat): (Result<seq<Value>>, State) {
    RunSteps(PullStep(o, dir, inferred), s, names)
  }

  /**
   * `__getattr__`'s lookup of an engine name: the `exist` code must mark a
   * callable before `isobject` is asked; an object becomes its user class,
   * anything else a function pointer.
   */
  function CallableLookup(o: Octave, s: State, name: string): (Result<Value>, State) {
    var (reply, e1) := Query(o, s.engine, ExistCommand(name));
    if reply.Err? then (Err(reply.error), s.(engine := e1))
    else
      match ParseExist(name, reply.value)
      case Err(err) => (Err(err), s.(engine := e1))
      case Ok(code) => CallableOf(o, s.(engine := e1), name, code)
  }

  /** The rest of `__getattr__`'s lookup once the `exist` code is known. */
  function CallableOf(o: Octave, s: State, name: string, code: int): (Result<Value>, State) {
    if !CallableCode(code) then (Err(NotCallable(name)), s)
    else if !NeedsObjectQuery(code) then (Ok(PyProxy(FunctionPtr(name))), s)
    else
      var (obj, e2) := Query(o, s.engine, IsObjectCommand(name));
      if obj.Err? then (Err(obj.error), s.(engine := e2))
      else if ObjectAnswer(code, obj.value) then
        var (cls, s2) := UserClassLookup(s.(engine := e2), PyStr(name));
        (Ok(cls), s2)
      else (Ok(PyProxy(FunctionPtr(name))), s.(engine := e2))
  }

  /**
   * Each kind gets its own proxy: variables and functions their pointers,
   * with nothing else changed, an unknown kind the `ValueError`; only the
   * instance branch uses the engine.
   */
  lemma {:induction false} PointerOfKinds(o: Octave, dir: string, s: State, name: string, code: int, isObject: bool)
    requires CacheValid(s.classes)
    ensures var (r, s') := PointerOf(o, dir, s, name, code, isObject); var kind := Classify(code, isObject);
      && (kind == UnknownKind ==> r == Err(UnknownType(name)) && s' == s)
      && (kind in {VariableKind, FunctionKind} ==> r.Ok? && s' == s)
      && (kind != InstanceKind ==> s'.engine == s.engine)
      && (r.Ok? ==> PointerFor(name, kind, r.value))
  {
  }

  /**
   * A name that is an object but not a variable is its user class: a cache
   * hit hands back the cached class and changes nothing; a miss caches a
   * new class for the name and hands back `None`.
   */
  lemma {:induction false} PointerOfClass(o: Octave, dir: string, s: State, name: string, code: int, isObject: bool)
    requires Classify(code, isObject) == ClassKind
    ensures var (r, s') := PointerOf(o, dir, s, name, code, isObject);
      && s'.engine == s.engine && PyStr(name) in s'.classes
      && (PyStr(name) in s.classes ==> r == Ok(PyProxy(s.classes[PyStr(name)])) && s' == s)
      && (PyStr(name) !in s.classes ==>
            && r == Ok(PyNone) && s'.made == s.made + 1
            && s'.classes == s.classes[PyStr(name) := UserClass(PyStr(name), s.made)])
  {
  }

  /**
   * An instance takes the class that `class(name)` names: the first lookup of
   * a class caches it but fails on `None.from_name`; a cached class makes the
   * instance and leaves the cache as it was.
   */
  lemma {:induction false} PointerOfInstance(o: Octave, dir: string, s: State, name: string, code: int, isObject: bool)
    requires Classify(code, isObject) == InstanceKind && CacheValid(s.classes)
    ensures var run := RunRequests(o, s.engine, dir, EvalRequests([ClassCommand(name)]));
      var (r, s') := PointerOf(o, dir, s, name, code, isObject);
      && s'.engine == run.1
      && (run.0.Err? ==> r == Err(run.0.error) && s'.classes == s.classes)
      && (run.0.Ok? ==>
            var className := LastTruthy(run.0.value);
            && className in s'.classes
            && (className !in s.classes ==> r == Err(NoFromName))
            && (className in s.classes ==> r == Ok(PyProxy(Instance(s.classes[className], name))) && s'.classes == s.classes))
  {
  }

  /** `get_pointer` raises what the probe raises; any proxy it hands out is of the kind its probe found. */
  lemma {:induction false} PointerLookupSpec(o: Octave, dir: string, s: State, name: string)
    requires CacheValid(s.classes)
    ensures var p := ProbeName(o, s.engine, name); var (r, s') := PointerLookup(o, dir, s, name);
      && (p.0.Err? ==> r == Err(p.0.error) && s' == s.(engine := p.1))
      && (r.Ok? ==> p.0.Ok? && PointerFor(name, Classify(p.0.value.0, p.0.value.1), r.value))
  {
    var p := ProbeName(o, s.engine, name);
    if p.0.Ok? {
      PointerOfKinds(o, dir, s.(engine := p.1), name, p.0.value.0, p.0.value.1);
    }
  }

  /**
   * `pull` routes a name by its probe: a plain variable is fetched by value
   * with one `evalin` and the class cache is left alone; any other name is
   * answered with a pointer of the kind `get_pointer`'s own probe finds.
   */
  lemma {:induction false} PullNameSpec(o: Octave, dir: string, s: State, name: string, inferred: nat)
    requires CacheValid(s.classes)
    ensures var p := ProbeName(o, s.engine, name); var (r, s') := PullName(o, dir, s, name, inferred);
      && (p.0.Err? ==> r == Err(p.0.error) && s' == s.(engine := p.1))
      && (p.0.Ok? && FetchByValue(p.0.value.0, p.0.value.1) ==>
            && (r, s'.engine) == Dispatch(o, p.1, dir, EvalRequest(name, DefaultNout(None, inferred)))
            && s'.classes == s.classes && s'.made == s.made)
      && (r.Ok? && p.0.Ok? && !FetchByValue(p.0.value.0, p.0.value.1) ==>
            var p2 := ProbeName(o, p.1, name);
            p2.0.Ok? && PointerFor(name, Classify(p2.0.value.0, p2.0.value.1), r.value))
  {
    var p := ProbeName(o, s.engine, name);
    if p.0.Ok? && !FetchByValue(p.0.value.0, p.0.value.1) {
      PointerLookupSpec(o, dir, s.(engine := p.1), name);
    }
  }

  /** `pull` answers one output per name; with no engine only the empty list of names succeeds. */
  lemma {:induction false} PullNamesSpec(o: Octave, dir: string, s: State, names: seq<string>, inferred: nat)
    ensures var (r, s') := PullNames(o, dir, s, names, inferred);
      && (r.Ok? ==> |r.value| == |names|)
      && (s.engine.None? ==> (r.Ok? <==> names == []))
    decreases |names|
  {
    if names != [] {
      var (r0, s1) := PullName(o, dir, s, names[0], inferred);
      if r0.Ok? {
        PullNamesSpec(o, dir, s1, names[1..], inferred);
      }
    }
  }

  /**
   * The `i`-th output of a successful run is what the step gives on the
   * `i`-th name in the session the first `i` names left behind.
   */
  lemma {:induction false} StepAt(step: (State, string) -> (Result<Value>, State), s: State, names: seq<string>, i: nat)
    requires i < |names| && RunSteps(step, s, names).0.Ok?
    ensures var before := RunSteps(step, s, names[..i]);
      && before.0.Ok?
      && |RunSteps(step, s, names).0.value| > i
      && step(before.1, names[i]).0 == Ok(RunSteps(step, s, names).0.value[i])
    decreases i
  {
    var (r, s1) := step(s, names[0]);
    if i == 0 {
      assert names[..0] == [];
    } else {
      StepAt(step, s1, names[1..], i - 1);
      assert names[..i][0] == names[0] && names[..i][1..] == names[1..][..i - 1];
      assert names[1..][i - 1] == names[i];
    }
  }

  /**
   * The `i`-th output of a successful `pull` is what pulling that one name
   * gives in the session the earlier names left behind.
   */
  lemma {:induction false} PullOutputAt(o: Octave, dir: string, s: State, names: seq<string>, inferred: nat, i: nat)
    requires i < |names| && PullNames(o, dir, s, names, inferred).0.Ok?
    ensures var before := PullNames(o, dir, s, names[..i], inferred);
      && before.0.Ok?
      && |PullNames(o, dir, s, names, inferred).0.value| > i
      && PullName(o, dir, before.1, names[i], inferred).0 == Ok(PullNames(o, dir, s, names, inferred).0.value[i])
  {
    var step := PullStep(o, dir, inferred);
    StepAt(step, s, names, i);
    var before := RunSteps(step, s, names[..i]);
    assert step(before.1, names[i]) == PullName(o, dir, before.1, names[i], inferred);
  }

  /** Before the first name, nothing has been pulled and every name is still to come. */
  lemma PullStart(o: Octave, dir: string, s: State, names: seq<string>, inferred: nat)
    ensures PullNames(o, dir, s, names, inferred) == Prepend([], PullNames(o, dir, s, names[0..], inferred))
  {
    assert names[0..] == names;
    if PullNames(o, dir, s, names, inferred).0.Ok? {
      Units(PullNames(o, dir, s, names, inferred).0.value);
    }
  }

  /** One more name pulled: its output joins those collected. */
  lemma PullAdvance(o: Octave, dir: string, s0: State, names: seq<string>, inferred: nat, got: seq<Value>,
                    s: State, i: nat, v: Value, s1: State)
    requires i < |names|
    requires PullNames(o, dir, s0, names, inferred) == Prepend(got, PullNames(o, dir, s, names[i..], inferred))
    requires PullName(o, dir, s, names[i], inferred) == (Ok(v), s1)
    ensures PullNames(o, dir, s0, names, inferred) == Prepend(got + [v], PullNames(o, dir, s1, names[i + 1..], inferred))
  {
    assert names[i..][0] == names[i] && names[i..][1..] == names[i + 1..];
    PrependPrepend(got, [v], PullNames(o, dir, s1, names[i + 1..], inferred));
  }

  /** A name that raised ends `pull` with its error. */
  lemma PullStop(o: Octave, dir: string, s0: State, names: seq<string>, inferred: nat, got: seq<Value>,
                 s: State, i: nat, err: Error, s1: State)
    requires i < |names|
    requires PullNames(o, dir, s0, names, inferred) == Prepend(got, PullNames(o, dir, s, names[i..], inferred))
    requires PullName(o, dir, s, names[i], inferred) == (Err(err), s1)
    ensures PullNames(o, dir, s0, names, inferred) == (Err(err), s1)
  {
    assert names[i..][0] == names[i];
  }

  /** After the last name, `pull` answered with everything collected. */
  lemma PullEnd(o: Octave, dir: string, s0: State, names: seq<string>, inferred: nat, got: seq<Value>, s: State)
    requires PullNames(o, dir, s0, names, inferred) == Prepend(got, PullNames(o, dir, s, names[|names|..], inferred))
    ensures PullNames(o, dir, s0, names, inferred) == (Ok(got), s)
  {
    assert names[|names|..] == [];
    Units(got);
  }

  /**
   * Once the `exist` code is known: codes outside {2, 3, 5, 103} are refused
   * and files and built-ins become function pointers, both with nothing
   * changed; any other success is a function pointer or the name's user class.
   */
  lemma {:induction false} CallableOfSpec(o: Octave, s: State, name: string, code: int)
    ensures var (r, s') := CallableOf(o, s, name, code);
      && (!CallableCode(code) ==> r == Err(NotCallable(name)) && s' == s)
      && (CallableCode(code) && !NeedsObjectQuery(code) ==> r == Ok(PyProxy(FunctionPtr(name))) && s' == s)
      && (r.Ok? ==> CallableCode(code))
      && (r.Ok? ==>
            || r.value == PyProxy(FunctionPtr(name))
            || (PyStr(name) in s.classes && r.value == PyProxy(s.classes[PyStr(name)]) && s'.classes == s.classes)
            || (PyStr(name) !in s.classes && r.value == PyNone && PyStr(name) in s'.classes))
      && (CallableCode(code) && NeedsObjectQuery(code) ==>
            ObjectRouting(o, s, name, code, r, s'))
  {
  }

  /**
   * For the codes 3 and 103, the `isobject` query is sent; its failure
   * propagates, a reply saying "object" gives the name's user class (the
   * cached one unchanged, or `None` with one new class cached), and any
   * other reply gives a function pointer with the cache untouched.
   */
  ghost predicate ObjectRouting(o: Octave, s: State, name: string, code: int, r: Result<Value>, s': State) {
    var (obj, e2) := Query(o, s.engine, IsObjectCommand(name));
    && s'.engine == e2
    && (obj.Err? ==> r == Err(obj.error) && s' == s.(engine := e2))
    && (obj.Ok? && !ObjectAnswer(code, obj.value) ==> r == Ok(PyProxy(FunctionPtr(name))) && s' == s.(engine := e2))
    && (obj.Ok? && ObjectAnswer(code, obj.value) && PyStr(name) in s.classes ==>
          r == Ok(PyProxy(s.classes[PyStr(name)])) && s' == s.(engine := e2))
    && (obj.Ok? && ObjectAnswer(code, obj.value) && PyStr(name) !in s.classes ==>
          r == Ok(PyNone) && s'.classes == s.classes[PyStr(name) := UserClass(PyStr(name), s.made)]
          && s'.made == s.made + 1)
  }

  /**
   * With a consistent class cache, a `__getattr__` lookup of a code-3 or
   * code-103 name yields a function pointer exactly when Octave says the
   * name is not an object.
   */
  lemma {:induction false} CallableFunctionIffNotObject(o: Octave, s: State, name: string, code: int)
    requires CacheValid(s.classes) && CallableCode(code) && NeedsObjectQuery(code) && s.engine.Some?
    ensures var (r, _) := CallableOf(o, s, name, code);
      r.Ok? && (r.value == PyProxy(FunctionPtr(name))
                <==> !ObjectAnswer(code, o.text(s.engine.value.history, IsObjectCommand(name))))
  {
    CallableOfSpec(o, s, name, code);
  }

  /**
   * `__getattr__` raises what `_exist` raises and refuses codes outside
   * {2, 3, 5, 103}, both without touching the class cache; files and
   * built-ins become function pointers without the `isobject` query; any
   * other success is a function pointer or the name's user class.
   */
  lemma {:induction false} CallableLookupSpec(o: Octave, s: State, name: string)
    ensures var (reply, e1) := Query(o, s.engine, ExistCommand(name));
      var exist := if reply.Err? then Err(reply.error) else ParseExist(name, reply.value);
      var (r, s') := CallableLookup(o, s, name);
      && (exist.Err? ==> r == Err(exist.error) && s' == s.(engine := e1))
      && (exist.Ok? && !CallableCode(exist.value) ==> r == Err(NotCallable(name)) && s' == s.(engine := e1))
      && (exist.Ok? && !NeedsObjectQuery(exist.value) ==> r == Ok(PyProxy(FunctionPtr(name))) && s' == s.(engine := e1))
      && (r.Ok? ==> exist.Ok? && CallableCode(exist.value))
      && (r.Ok? ==>
            || r.value == PyProxy(FunctionPtr(name))
            || (PyStr(name) in s.classes && r.value == PyProxy(s.classes[PyStr(name)]) && s'.classes == s.classes)
            || (PyStr(name) !in s.classes && r.value == PyNone && PyStr(name) in s'.classes))
      && (exist.Ok? && CallableCode(exist.value) && NeedsObjectQuery(exist.value) ==>
            ObjectRouting(o, s.(engine := e1), name, exist.value, r, s'))
  {
    var (reply, e1) := Query(o, s.engine, ExistCommand(name));
    if reply.Ok? {
      match ParseExist(name, reply.value)
      case Err(_) =>
      case Ok(code) => CallableOfSpec(o, s.(engine := e1), name, code);
    }
  }

  /** `__getattr__`'s whole lookup: the name it derives from the attribute, then that name's callable. */
  function AttributeLookup(o: Octave, s: State, attr: string): (Result<Value>, State) {
    match AttributeName(attr)
    case Err(err) => (Err(err), s)
    case Ok(name) => CallableLookup(o, s, name)
  }

  /**
   * A dunder attribute is refused with `AttributeError` before the engine is
   * asked, and so is the empty name; any other attribute, with one trailing
   * `_` dropped, is looked up as a callable.
   */
  lemma {:induction false} AttributeLookupSpec(o: Octave, s: State, attr: string)
    ensures var (r, s') := AttributeLookup(o, s, attr);
      && (StartsWith(attr, "__") ==> r.Err? && r.error.AttributeError? && s' == s)
      && (attr == [] ==> r.Err? && s' == s)
      && (!StartsWith(attr, "__") && attr != [] ==>
            (r, s') == CallableLookup(o, s, if attr[|attr| - 1] == '_' then attr[..|attr| - 1] else attr))
  {
  }

  /** A name with no `/` and no `.`, such as the built-ins `evalin` and `assignin`, resolves to itself, with no directory. */
  lemma {:induction false} BuiltinPath(name: string)
    requires name != [] && '/' !in name && '.' !in name
    ensures ResolveFunctionPath(name) == Ok(("", name))
  {
    ResolveBareName("", name);
    Units(name);
  }

  class Oct2Py {
    const octave: Octave
    const onedAs: string
    const convertToFloat: bool
    /** The directory of the package's own Octave scripts, added to the path of every new engine. */
    const packageDir: string

    var engine: Option<Engine>
    /** How many engines this session has started; the next one gets this number. */
    var started: nat
    /** The engines `close()` was called on, in order. */
    var closedEngines: seq<nat>
    var tempDir: string
    /** `_user_classes`, keyed by class name. */
    var userClasses: map<Value, Proxy>
    /** How many class objects `_make_user_class` has made. */
    var classesMade: nat
    /** Attributes that `__getattr__` stored with `setattr`. */
    var attributes: map<string, Value>
    /** The request files `write_file` left behind, by path. */
    var files: map<string, RequestFile>

    /**
     * The session invariant: only the latest engine can be live, no engine is
     * closed twice, and every cached class was made once, for its own name.
     */
    ghost predicate Valid()
      reads this`engine, this`started, this`closedEngines, this`userClasses, this`classesMade
    {
      && (engine.Some? ==> engine.value.serial + 1 == started)
      && (forall j :: 0 <= j < |closedEngines| ==> closedEngines[j] < started)
      && (engine.Some? ==> engine.value.serial !in closedEngines)
      && (forall j, k :: 0 <= j < k < |closedEngines| ==> closedEngines[j] != closedEngines[k])
      && (forall c :: c in userClasses ==>
            userClasses[c].UserClass? && userClasses[c].className == c && userClasses[c].serial < classesMade)
      && (forall c, d :: c in userClasses && d in userClasses && c != d ==> userClasses[c].serial != userClasses[d].serial)
    }

    /** `Oct2Py(...)`: `freshDir` stands for what `tempfile.mkdtemp()` returns. */
    constructor (octave: Octave, onedAs: string, convertToFloat: bool, packageDir: string, tempDirArg: Option<string>, freshDir: string)
      ensures Valid()
      ensures this.octave == octave && this.onedAs == onedAs && this.convertToFloat == convertToFloat && this.packageDir == packageDir
      ensures tempDir == if tempDirArg.Some? && tempDirArg.value != "" then tempDirArg.value else freshDir
      ensures engine == Some(Engine(0, [Eval(AddpathCommand(packageDir))]))
      ensures started == 1 && closedEngines == []
      ensures userClasses == map[] && classesMade == 0 && attributes == map[] && files == map[]
    {
      this.octave := octave;
      this.onedAs := onedAs;
      this.convertToFloat := convertToFloat;
      this.packageDir := packageDir;
      engine := None;
      started := 0;
      closedEngines := [];
      tempDir := if tempDirArg.Some? && tempDirArg.value != "" then tempDirArg.value else freshDir;
      userClasses := map[];
      classesMade := 0;
      attributes := map[];
      files := map[];
      new;
      Restart();
    }

    /** `restart()`: close the live engine, if any, and start a fresh one with the package scripts on its path. */
    method Restart()
      requires Valid()
      modifies this`engine, this`started, this`closedEngines
      ensures Valid()
      ensures engine == Some(Engine(old(started), [Eval(AddpathCommand(packageDir))]))
      ensures started == old(started) + 1
      ensures closedEngines == old(closedEngines) + (if old(engine).Some? then [old(engine).value.serial] else [])
    {
      if engine.Some? {
        closedEngines := closedEngines + [engine.value.serial];
      }
      var blank := Engine(started, []);
      Units([Eval(AddpathCommand(packageDir))]);
      started := started + 1;
      engine := Some(Record(blank, Eval(AddpathCommand(packageDir))));
    }

    /** `__enter__`: restart only when the session is closed. */
    method Enter()
      requires Valid()
      modifies this`engine, this`started, this`closedEngines
      ensures Valid() && engine.Some?
      ensures old(engine).Some? ==> engine == old(engine) && started == old(started) && closedEngines == old(closedEngines)
      ensures old(engine).None? ==>
        engine == Some(Engine(old(started), [Eval(AddpathCommand(packageDir))])) && started == old(started) + 1 && closedEngines == old(closedEngines)
    {
      if engine.None? {
        Restart();
      }
    }

    /** `exit()` (and `__exit__`): close the live engine, if any, and drop the handle; a second call changes nothing. */
    method Exit()
      requires Valid()
      modifies this`engine, this`closedEngines
      ensures Valid() && engine.None?
      ensures closedEngines == old(closedEngines) + (if old(engine).Some? then [old(engine).value.serial] else [])
    {
      if engine.Some? {
        closedEngines := closedEngines + [engine.value.serial];
      }
      engine := None;
    }

    /** `engine.eval(cmd, silent=True)` on the session's engine. */
    method QueryEngine(cmd: string) returns (r: Result<string>)
      requires Valid()
      modifies this`engine
      ensures Valid()
      ensures (r, engine) == Query(octave, old(engine), cmd)
    {
      match engine
      case None =>
        r := Err(NoEngineEval);
      case Some(e) =>
        r := Ok(octave.text(e.history, cmd));
        engine := Some(Record(e, Eval(cmd)));
    }

    /** `_exist(name)` */
    method Exist(name: string) returns (r: Result<int>)
      requires Valid()
      modifies this`engine
      ensures Valid()
      ensures engine == Query(octave, old(engine), ExistCommand(name)).1
      ensures var reply := Query(octave, old(engine), ExistCommand(name)).0;
        r == if reply.Err? then Err(reply.error) else ParseExist(name, reply.value)
    {
      var reply := QueryEngine(ExistCommand(name));
      if reply.Err? {
        return Err(reply.error);
      }
      r := ParseExist(name, reply.value);
    }

    /** `_isobject(name, exist)`: the codes 2 and 5 are answered without asking the engine. */
    method IsObject(name: string, exist: int) returns (r: Result<bool>)
      requires Valid()
      modifies this`engine
      ensures Valid()
      ensures !NeedsObjectQuery(exist) ==> r == Ok(false) && engine == old(engine)
      ensures NeedsObjectQuery(exist) ==>
        var (reply, e) := Query(octave, old(engine), IsObjectCommand(name));
        && engine == e
        && r == if reply.Err? then Err(reply.error) else Ok(ObjectAnswer(exist, reply.value))
    {
      if exist == 2 || exist == 5 {
        return Ok(false);
      }
      var reply := QueryEngine(IsObjectCommand(name));
      if reply.Err? {
        return Err(reply.error);
      }
      r := Ok(IsObjectReply(reply.value));
    }

    /** `_get_user_class(name)`: a hit returns the cached class; a miss makes and caches one but returns `None`. */
    method GetUserClass(name: Value) returns (r: Value)
      requires Valid()
      modifies this`userClasses, this`classesMade
      ensures Valid()
      ensures name in userClasses
      ensures name in old(userClasses) ==>
        r == PyProxy(old(userClasses)[name]) && userClasses == old(userClasses) && classesMade == old(classesMade)
      ensures name !in old(userClasses) ==>
        && r == PyNone
        && userClasses == old(userClasses)[name := UserClass(name, old(classesMade))]
        && classesMade == old(classesMade) + 1
      ensures (r, Lookup()) == UserClassLookup(old(Lookup()), name)
    {
      if name in userClasses {
        return PyProxy(userClasses[name]);
      }
      userClasses := userClasses[name := UserClass(name, classesMade)];
      classesMade := classesMade + 1;
      r := PyNone;
    }

    /** `_feval`: write the request, evaluate `_pyeval` on the engine and interpret the response. */
    method RemoteCall(funcName: string, args: seq<Value>, dname: string, nout: int, storeAs: string) returns (r: Result<Value>)
      requires Valid()
      modifies this`engine, this`files
      ensures Valid()
      ensures var req := BuildRequest(funcName, args, dname, nout, storeAs);
        && files == old(files)[WriterPath(tempDir) := RequestFile(req, onedAs, convertToFloat)]
        && (r, engine) == Dispatch(octave, old(engine), tempDir, req)
    {
      var outFile := WriterPath(tempDir);
      var inFile := ReaderPath(tempDir);
      var sent, replacements := SubstitutePointers(args);
      var req := Request(funcName, sent, dname, nout, storeAs, replacements);
      files := files[outFile := RequestFile(req, onedAs, convertToFloat)];
      match engine
      case None =>
        r := Err(NoStreamHandler);
      case Some(e) =>
        var cmd := PyevalCommand(outFile, inFile);
        var resp := octave.answer(e.history, cmd, req);
        engine := Some(Record(e, Call(cmd, req)));
        r := InterpretResponse(resp);
    }

    /**
     * `feval(func_path, *args, nout=..., store_as=..., **kwargs)`; `inferred` is
     * what `get_nout()` returns at the call site. A path with a foreign
     * extension raises before any request file is written.
     */
    method Feval(funcPath: string, args: seq<Value>, nout: Option<int>, inferred: nat, storeAs: string,
                 kwargs: seq<(string, Value)>) returns (r: Result<Value>)
      requires Valid() && DistinctKeys(kwargs)
      modifies this`engine, this`files
      ensures Valid()
      ensures ResolveFunctionPath(funcPath).Err? ==>
        r == Err(NotMFile) && engine == old(engine) && files == old(files)
      ensures ResolveFunctionPath(funcPath).Ok? ==>
        var (dname, funcName) := ResolveFunctionPath(funcPath).value;
        var req := BuildRequest(funcName, args, dname, DefaultNout(nout, inferred), storeAs);
        && files == old(files)[WriterPath(tempDir) := RequestFile(req, onedAs, convertToFloat)]
        && (r, engine) == Dispatch(octave, old(engine), tempDir, req)
    {
      var n := DefaultNout(nout, inferred);
      var remaining := DropKwargs(kwargs);
      var allArgs := args + FlattenKwargs(remaining);
      Units(args);
      var resolved := ResolveFunctionPath(funcPath);
      ResolveFunctionPathParts(funcPath);
      if resolved.Err? {
        return Err(resolved.error);
      }
      var (dname, funcName) := resolved.value;
      r := RemoteCall(funcName, allArgs, dname, n, storeAs);
    }

    /** `feval('evalin', 'base', cmd, nout=nout)`: evaluate one command in Octave's base workspace. */
    method Evalin(cmd: string, nout: int) returns (r: Result<Value>)
      requires Valid()
      modifies this`engine, this`files
      ensures Valid()
      ensures files == old(files)[WriterPath(tempDir) := RequestFile(EvalRequest(cmd, nout), onedAs, convertToFloat)]
      ensures (r, engine) == Dispatch(octave, old(engine), tempDir, EvalRequest(cmd, nout))
    {
      var evalin := "evalin";
      BuiltinPath(evalin);
      r := Feval(evalin, [PyStr("base"), PyStr(cmd)], Some(nout), 0, "", []);
    }

    /** `feval('assignin', 'base', name, v, nout=0)`: bind one name in Octave's base workspace. */
    method Assignin(name: string, v: Value) returns (r: Result<Value>)
      requires Valid()
      modifies this`engine, this`files
      ensures Valid()
      ensures files == old(files)[WriterPath(tempDir) := RequestFile(AssignRequest(name, v), onedAs, convertToFloat)]
      ensures (r, engine) == Dispatch(octave, old(engine), tempDir, AssignRequest(name, v))
    {
      var assignin := "assignin";
      BuiltinPath(assignin);
      r := Feval(assignin, [PyStr("base"), PyStr(name), v], Some(0), 0, "", []);
    }

    /** The loop of `eval`: one `evalin` per command, stopping at the first that raises, keeping the last truthy answer. */
    method EvalAll(cmds: seq<string>) returns (r: Result<Value>)
      requires Valid()
      modifies this`engine, this`files
      ensures Valid()
      ensures var run := RunRequests(octave, old(engine), tempDir, EvalRequests(cmds));
        && engine == run.1
        && r == if run.0.Ok? then Ok(LastTruthy(run.0.value)) else Err(run.0.error)
    {
      ghost var reqs := EvalRequests(cmds);
      ghost var e0 := engine;
      var ans := PyNone;
      ghost var got: seq<Value> := [];
      RunStart(octave, e0, tempDir, reqs);
      var i := 0;
      while i < |cmds|
        invariant 0 <= i <= |cmds| && Valid()
        invariant RunRequests(octave, e0, tempDir, reqs) == Prepend(got, RunRequests(octave, engine, tempDir, reqs[i..]))
        invariant ans == LastTruthy(got)
      {
        ghost var e := engine;
        var resp := Evalin(cmds[i], 0);
        assert reqs[i] == EvalRequest(cmds[i], 0);
        if resp.Err? {
          RunStop(octave, e0, tempDir, reqs, got, e, i, resp.error, engine);
          return Err(resp.error);
        }
        RunAdvance(octave, e0, tempDir, reqs, got, e, i, resp.value, engine);
        LastTruthySnoc(got, resp.value);
        if Truthy(resp.value) {
          ans := resp.value;
        }
        got := got + [resp.value];
        i := i + 1;
      }
      RunEnd(octave, e0, tempDir, reqs, got, engine);
      r := Ok(ans);
    }

    /**
     * `eval(cmds, temp_dir=..., return_both=...)`: run the commands with
     * `temp_dir` in place, and put the old `temp_dir` back, which happens only
     * when no command raised.
     */
    method EvalCommands(cmds: Names, tempDirKw: Option<string>, returnBoth: bool) returns (r: Result<EvalAnswer>)
      requires Valid()
      modifies this`engine, this`files, this`tempDir
      ensures Valid()
      ensures var dir := tempDirKw.GetOr(old(tempDir));
        var run := RunRequests(octave, old(engine), dir, EvalRequests(NameList(cmds)));
        && engine == run.1
        && (run.0.Err? ==> r == Err(run.0.error) && tempDir == dir)
        && (run.0.Ok? ==>
              && tempDir == old(tempDir)
              && r == Ok(if returnBoth then WithText("", LastTruthy(run.0.value)) else Plain(LastTruthy(run.0.value))))
    {
      var prevTempDir := tempDir;
      tempDir := tempDirKw.GetOr(prevTempDir);
      var ans := EvalAll(NameList(cmds));
      if ans.Err? {
        return Err(ans.error);
      }
      tempDir := prevTempDir;
      if returnBoth {
        return Ok(WithText("", ans.value));
      }
      r := Ok(Plain(ans.value));
    }

    /** `push(name, var)`: one `assignin` call per pair, stopping at the first that raises. */
    method Push(a: Assignment) returns (r: Result<()>)
      requires Valid()
      modifies this`engine, this`files
      ensures Valid()
      ensures var run := RunRequests(octave, old(engine), tempDir, AssignRequests(Pairs(a)));
        && engine == run.1
        && (r.Ok? <==> run.0.Ok?)
        && (r.Err? ==> r.error == run.0.error)
    {
      var pairs := Pairs(a);
      ghost var reqs := AssignRequests(pairs);
      ghost var e0 := engine;
      ghost var got: seq<Value> := [];
      RunStart(octave, e0, tempDir, reqs);
      var i := 0;
      while i < |pairs|
        invariant 0 <= i <= |pairs| && Valid()
        invariant RunRequests(octave, e0, tempDir, reqs) == Prepend(got, RunRequests(octave, engine, tempDir, reqs[i..]))
      {
        var n, v := pairs[i].0, pairs[i].1;
        ghost var e := engine;
        var resp := Assignin(n, v);
        AssignRequestAt(pairs, i);
        if resp.Err? {
          RunStop(octave, e0, tempDir, reqs, got, e, i, resp.error, engine);
          return Err(resp.error);
        }
        RunAdvance(octave, e0, tempDir, reqs, got, e, i, resp.value, engine);
        got := got + [resp.value];
        i := i + 1;
      }
      RunEnd(octave, e0, tempDir, reqs, got, engine);
      r := Ok(());
    }

    /** `_exist(name)` and then `_isobject(name, exist)`, the two tests every lookup starts with. */
    method Probe(name: string) returns (r: Result<(int, bool)>)
      requires Valid()
      modifies this`engine
      ensures Valid()
      ensures (r, engine) == ProbeName(octave, old(engine), name)
    {
      var exist := Exist(name);
      if exist.Err? {
        return Err(exist.error);
      }
      var obj := IsObject(name, exist.value);
      match obj
      case Err(err) =>
        r := Err(err);
      case Ok(isObject) =>
        r := Ok((exist.value, isObject));
    }

    /** The session's part that name lookups read and change. */
    ghost function Lookup(): State
      reads this`engine, this`userClasses, this`classesMade
    {
      State(engine, userClasses, classesMade)
    }

    /** The branches of `get_pointer` once the name's code and object test are known. */
    method MakePointer(name: string, code: int, isObject: bool) returns (r: Result<Value>)
      requires Valid()
      modifies this`engine, this`files, this`tempDir, this`userClasses, this`classesMade
      ensures Valid() && tempDir == old(tempDir)
      ensures (r, Lookup()) == PointerOf(octave, tempDir, old(Lookup()), name, code, isObject)
      ensures Classify(code, isObject) != InstanceKind ==> files == old(files)
    {
      match Classify(code, isObject)
      case InstanceKind =>
        var className := EvalCommands(Single(ClassCommand(name)), None, false);
        if className.Err? {
          return Err(className.error);
        }
        var cls := GetUserClass(className.value.ans);
        if cls.PyProxy? && cls.p.UserClass? {
          r := Ok(PyProxy(Instance(cls.p, name)));
        } else {
          r := Err(NoFromName);
        }
      case VariableKind =>
        r := Ok(PyProxy(VariablePtr(name)));
      case ClassKind =>
        var cls := GetUserClass(PyStr(name));
        r := Ok(cls);
      case FunctionKind =>
        r := Ok(PyProxy(FunctionPtr(name)));
      case UnknownKind =>
        r := Err(UnknownType(name));
    }

    /** `get_pointer(name)`: classify the name by its `exist` code and object test, and make the matching proxy. */
    method GetPointer(name: string) returns (r: Result<Value>)
      requires Valid()
      modifies this`engine, this`files, this`tempDir, this`userClasses, this`classesMade
      ensures Valid() && tempDir == old(tempDir)
      ensures (r, Lookup()) == PointerLookup(octave, tempDir, old(Lookup()), name)
    {
      ghost var s0 := Lookup();
      var p := Probe(name);
      PointerLookupOf(octave, tempDir, s0, name, p, engine);
      match p
      case Err(err) =>
        r := Err(err);
      case Ok((code, isObject)) =>
        r := MakePointer(name, code, isObject);
    }

    /** A name of `pull` once probed: fetched by value through `evalin` when it is a plain variable, otherwise looked up as a pointer. */
    method PullFound(name: string, inferred: nat, code: int, isObject: bool) returns (r: Result<Value>)
      requires Valid()
      modifies this`engine, this`files, this`tempDir, this`userClasses, this`classesMade
      ensures Valid() && tempDir == old(tempDir)
      ensures (r, Lookup()) == PullProbed(octave, tempDir, old(Lookup()), name, inferred, code, isObject)
    {
      if code == 1 && !isObject {
        r := Evalin(name, DefaultNout(None, inferred));
      } else {
        r := GetPointer(name);
      }
    }

    /** One name of `pull`: probed, then fetched by value or looked up as a pointer. */
    method PullOne(name: string, inferred: nat) returns (r: Result<Value>)
      requires Valid()
      modifies this`engine, this`files, this`tempDir, this`userClasses, this`classesMade
      ensures Valid() && tempDir == old(tempDir)
      ensures (r, Lookup()) == PullName(octave, tempDir, old(Lookup()), name, inferred)
    {
      var p := Probe(name);
      match p
      case Err(err) =>
        r := Err(err);
      case Ok((code, isObject)) =>
        r := PullFound(name, inferred, code, isObject);
    }

    /**
     * `pull(var)`: one output per name, in order, stopping at the first name
     * that raises; `inferred` is what `get_nout()` returns at the `feval` call
     * inside `pull`.
     */
    method Pull(names: Names, inferred: nat) returns (r: Result<Pulled>)
      requires Valid()
      modifies this`engine, this`files, this`tempDir, this`userClasses, this`classesMade
      ensures Valid() && tempDir == old(tempDir)
      ensures var run := PullNames(octave, tempDir, old(Lookup()), NameList(names), inferred);
        && Lookup() == run.1
        && r == if run.0.Ok? then Ok(Unwrap(run.0.value)) else Err(run.0.error)
    {
      var list := NameList(names);
      ghost var s0 := Lookup();
      var outputs: seq<Value> := [];
      PullStart(octave, tempDir, s0, list, inferred);
      var i := 0;
      while i < |list|
        invariant 0 <= i <= |list| && Valid() && tempDir == old(tempDir)
        invariant PullNames(octave, tempDir, s0, list, inferred) == Prepend(outputs, PullNames(octave, tempDir, Lookup(), list[i..], inferred))
      {
        ghost var s := Lookup();
        var out := PullOne(list[i], inferred);
        if out.Err? {
          PullStop(octave, tempDir, s0, list, inferred, outputs, s, i, out.error, Lookup());
          return Err(out.error);
        }
        PullAdvance(octave, tempDir, s0, list, inferred, outputs, s, i, out.value, Lookup());
        outputs := outputs + [out.value];
        i := i + 1;
      }
      PullEnd(octave, tempDir, s0, list, inferred, outputs, Lookup());
      r := Ok(Unwrap(outputs));
    }

    /** The rest of `__getattr__`'s lookup once the `exist` code is known. */
    method CallableWithCode(name: string, code: int) returns (r: Result<Value>)
      requires Valid()
      modifies this`engine, this`userClasses, this`classesMade
      ensures Valid()
      ensures (r, Lookup()) == CallableOf(octave, old(Lookup()), name, code)
    {
      if !CallableCode(code) {
        return Err(NotCallable(name));
      }
      if !NeedsObjectQuery(code) {
        return Ok(PyProxy(FunctionPtr(name)));
      }
      var isObj := IsObject(name, code);
      match isObj
      case Err(err) =>
        r := Err(err);
      case Ok(true) =>
        var cls := GetUserClass(PyStr(name));
        r := Ok(cls);
      case Ok(false) =>
        r := Ok(PyProxy(FunctionPtr(name)));
    }

    /**
     * What `__getattr__` looks up for a name: refused unless its `exist` code
     * marks a callable, then a user class for an object and a function pointer
     * otherwise.
     */
    method CallableTarget(name: string) returns (r: Result<Value>)
      requires Valid()
      modifies this`engine, this`userClasses, this`classesMade
      ensures Valid()
      ensures (r, Lookup()) == CallableLookup(octave, old(Lookup()), name)
    {
      var exist := Exist(name);
      match exist
      case Err(err) =>
        r := Err(err);
      case Ok(code) =>
        r := CallableWithCode(name, code);
    }

    /** The name `__getattr__` derives from `attr`, looked up as a callable. */
    method AttributeTarget(attr: string) returns (r: Result<Value>)
      requires Valid()
      modifies this`engine, this`userClasses, this`classesMade
      ensures Valid()
      ensures (r, Lookup()) == AttributeLookup(octave, old(Lookup()), attr)
    {
      match AttributeName(attr)
      case Err(err) =>
        r := Err(err);
      case Ok(name) =>
        r := CallableTarget(name);
    }

    /**
     * `__getattr__(attr)`: the engine name behind an attribute, if it names a
     * callable, becomes a user class or a function pointer and is stored as
     * the attribute `attr` itself.
     */
    method GetAttr(attr: string) returns (r: Result<Value>)
      requires Valid()
      modifies this`engine, this`userClasses, this`classesMade, this`attributes
      ensures Valid()
      ensures (r, Lookup()) == AttributeLookup(octave, old(Lookup()), attr)
      ensures attributes == if r.Ok? then old(attributes)[attr := r.value] else old(attributes)
    {
      r := AttributeTarget(attr);
      Remember(attr, r);
    }

    /** `setattr(self, attr, result)`, done only when the lookup succeeded. */
    method Remember(attr: string, r: Result<Value>)
      requires Valid()
      modifies this`attributes
      ensures Valid()
      ensures attributes == if r.Ok? then old(attributes)[attr := r.value] else old(attributes)
    {
      if r.Ok? {
        attributes := attributes[attr := r.value];
      }
    }
  }
}

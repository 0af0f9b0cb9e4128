/**
 * The values that cross between the host session and the Octave process,
 * and the Octave process itself as an oracle.
 *
 * The MAT-file codec (`write_file`/`read_file`) and the proxy classes of
 * `oct2py.dynamic` are not part of this model: a request is an opaque record,
 * a decoded value is known only by its string form and truth value, and a
 * proxy is a constructor tagged by its kind and name.
 */
module Values {
  import opened Results

  /** Host-side handles for remote entities. */
  datatype Proxy =
    | FunctionPtr(name: string)                 // made by _make_function_ptr_instance
    | VariablePtr(name: string)                 // made by _make_variable_ptr_instance
    | UserClass(className: Value, serial: nat)  // made by _make_user_class; `serial` tells apart two class objects for one name
    | Instance(cls: Proxy, address: string)     // made by `cls.from_name(address)`

  /** A Python value as far as the session looks at it. */
  datatype Value =
    | PyNone
    | PyStr(s: string)
    | PyData(text: string, truthy: bool)  // any other decoded value: known by `str(v)` and `bool(v)`
    | PyProxy(p: Proxy)

  /** `str(v)` */
  function Str(v: Value): string {
    match v
    case PyNone => "None"
    case PyStr(s) => s
    case PyData(text, _) => text
    case PyProxy(_) => "<oct2py proxy>"
  }

  /** `bool(v)` */
  predicate Truthy(v: Value) {
    match v
    case PyNone => false
    case PyStr(s) => s != ""
    case PyData(_, truthy) => truthy
    case PyProxy(_) => true
  }

  /** `isinstance(v, OctavePtr)`: the function and variable pointers derive from `OctavePtr`. */
  predicate IsOctavePtr(v: Value) {
    v.PyProxy? && (v.p.FunctionPtr? || v.p.VariablePtr?)
  }

  /** `ptr._address`: a function or variable pointer is addressed by its name. */
  function Address(v: Value): string
    requires IsOctavePtr(v)
  {
    v.p.name
  }

  /** The record `_feval` hands to `write_file`. */
  datatype Request = Request(
    funcName: string,
    funcArgs: seq<Value>,
    dname: string,
    nout: int,
    storeAs: string,
    replacementIndices: seq<int>)

  /** What `write_file` leaves at a request path: the record and the codec options it was written with. */
  datatype RequestFile = RequestFile(req: Request, onedAs: string, convertToFloat: bool)

  /** What `read_file` gives back: the message of `resp['error']` when that is set, and `resp['result']`. */
  datatype Response = Response(error: Option<string>, result: Value)

  /** One statement evaluated by an engine; `Call` marks a `_pyeval` statement together with the request it dispatched. */
  datatype Event = Eval(cmd: string) | Call(cmd: string, req: Request)

  /** An `OctaveEngine`: which one (for telling a restarted engine from the old one) and what it has evaluated so far. */
  datatype Engine = Engine(serial: nat, history: seq<Event>)

  /** The lines an evaluated statement prints, and whether the process reached end-of-file while running it. */
  datatype Reply = Reply(lines: seq<string>, eof: bool)

  /**
   * The Octave interpreter as an oracle. Each answer may depend on
   * everything the engine evaluated before, so remote state carries over
   * from one statement to the next; a fresh engine starts from an empty history.
   */
  datatype Octave = Octave(
    text: (seq<Event>, string) -> string,              // what `engine.eval(cmd, silent=True)` returns
    answer: (seq<Event>, string, Request) -> Response,  // what `_pyeval` writes to the response file
    reply: (seq<Event>, string) -> Reply)               // what the low-level session's handler receives

  /** Appends one evaluated statement to an engine's history. */
  function Record(e: Engine, ev: Event): Engine {
    e.(history := e.history + [ev])
  }
}

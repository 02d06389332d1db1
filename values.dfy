/**
 * The values that flow through a deployment: what the JSON metadata from
 * OpenStack Heat decodes to (None, booleans, integers, strings, lists and
 * string-keyed dicts), plus the two Python objects the runners store in a
 * configuration dict, a pathlib.Path and a named temporary file handle.
 */
module Values {
  import opened Wrappers
  import opened Errors
  import opened Dicts

  datatype Value =
    | VNone
    | VBool(b: bool)
    | VInt(i: int)
    | VStr(s: string)
    | VList(items: seq<Value>)
    | VDict(entries: seq<(string, Value)>)
    | VPath(path: string)
    | VFile(name: string)

  /** Python truthiness: empty containers, zero, False, None and "" are false; paths and files are objects and always true. */
  predicate Truthy(v: Value) {
    match v
    case VNone => false
    case VBool(b) => b
    case VInt(i) => i != 0
    case VStr(s) => s != ""
    case VList(items) => |items| > 0
    case VDict(entries) => |entries| > 0
    case VPath(_) => true
    case VFile(_) => true
  }

  /** Lists and dicts cannot be dict keys or set members. */
  predicate Hashable(v: Value) {
    !v.VList? && !v.VDict?
  }

  /** The strings of a list of strings, as a list value. */
  function StrList(ss: seq<string>): (r: Value)
    ensures r.VList? && |r.items| == |ss|
    ensures forall i :: 0 <= i < |ss| ==> r.items[i] == VStr(ss[i])
  {
    VList(seq(|ss|, i requires 0 <= i < |ss| => VStr(ss[i])))
  }

  /** Path(v): a string or an existing path gives the path text; anything else is a TypeError. */
  function PathArg(v: Value): (r: Result<string, Error>)
    ensures r.Success? <==> v.VStr? || v.VPath?
    ensures v.VStr? ==> r == Success(v.s)
    ensures v.VPath? ==> r == Success(v.path)
  {
    match v
    case VStr(s) => Success(s)
    case VPath(p) => Success(p)
    case _ => Failure(TypeError)
  }

  /**
   * The text `bash -c "printf %s <shlex.quote(v)>"` prints. shlex.quote
   * returns '' for any falsy argument and otherwise needs a string; the quoted
   * form printed back by printf is the string itself.
   */
  function Echoed(v: Value): (r: Result<string, Error>)
    ensures r.Success? <==> v.VStr? || !Truthy(v)
    ensures v.VStr? ==> r == Success(v.s)
    ensures !Truthy(v) ==> r == Success("")
  {
    if v.VStr? then Success(v.s)
    else if !Truthy(v) then Success("")
    else Failure(TypeError)
  }

  /**
   * One iteration of `for x in v`: a list yields its items; an empty string or
   * dict yields nothing; a non-empty string or dict yields strings, which the
   * core then subscripts with a string key (a TypeError); anything else is not
   * iterable.
   */
  function Iterate(v: Value): (r: Result<seq<Value>, Error>)
    ensures v.VList? ==> r == Success(v.items)
    ensures r.Success? ==> v.VList? || !Truthy(v)
  {
    match v
    case VList(items) => Success(items)
    case VStr(s) => if s == "" then Success([]) else Failure(TypeError)
    case VDict(es) => if es == [] then Success([]) else Failure(TypeError)
    case _ => Failure(TypeError)
  }

  /** x[key] on a value that must be a dict: a TypeError for other values, a KeyError when absent. */
  function Index(v: Value, key: string): (r: Result<Value, Error>)
    ensures r.Success? <==> v.VDict? && HasKey(v.entries, key)
    ensures r.Success? ==> Get(v.entries, key) == Some(r.value)
    ensures v.VDict? && !HasKey(v.entries, key) ==> r == Failure(KeyError(key))
  {
    match v
    case VDict(es) =>
      if HasKey(es, key) then Success(Get(es, key).value) else Failure(KeyError(key))
    case _ => Failure(TypeError)
  }

  /**
   * A Python dict that the core mutates in place: the configuration dict the
   * runners' pre, normalize and post steps receive and update.
   */
  class Manifest {
    var entries: Dict<Value>

    constructor (entries: Dict<Value>)
      ensures this.entries == entries
    {
      this.entries := entries;
    }
  }
}

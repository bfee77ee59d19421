// Runtime values as the place layer sees them: a value is either an immediate
// (a fixnum, or one of the static constants #t, #f and void) or an object that
// lives in exactly one garbage-collected heap. Each place has its own heap; the
// master coordination thread has one too.
module Values {

  newtype byte = x: int | 0 <= x < 256

  /** Identifies one garbage-collected heap (one per place, plus the master's). */
  type HeapId = nat

  /** The heap of the original (main) place, where the runtime is first initialised. */
  const MainHeap: HeapId := 0

  datatype Option<+T> = None | Some(value: T)

  datatype Result<+T, +E> = Ok(value: T) | Err(error: E)

  /** The runtime type tag that `SCHEME_TYPE` reads off a value. */
  datatype TypeTag =
    | FixnumTag
    | CharStringTag
    | UnixPathTag
    | SymbolTag
    | ResolvedModulePathTag
    | PlaceTag
    | BooleanTag
    | VoidTag
    | OtherTag(code: nat)

  datatype Value =
    | Fixnum(n: int)                              // immediate (SCHEME_INTP)
    | CharString(chars: seq<char>, heap: HeapId)
    | UnixPath(bytes: seq<byte>, heap: HeapId)
    | Symbol(name: seq<byte>, heap: HeapId)       // the length of the name is |name|
    | ResolvedModulePath(heap: HeapId)
    | PlaceObject(thread: nat, heap: HeapId)      // a place handle and the worker it owns
    | Boolean(b: bool)                            // the static constants #t and #f
    | Void                                        // the static constant void
    | Other(code: nat, heap: HeapId)              // any other kind: pairs, procedures, ...

  function TypeOf(v: Value): TypeTag
  {
    match v
    case Fixnum(_) => FixnumTag
    case CharString(_, _) => CharStringTag
    case UnixPath(_, _) => UnixPathTag
    case Symbol(_, _) => SymbolTag
    case ResolvedModulePath(_) => ResolvedModulePathTag
    case PlaceObject(_, _) => PlaceTag
    case Boolean(_) => BooleanTag
    case Void => VoidTag
    case Other(code, _) => OtherTag(code)
  }

  /** The heap an object lives in; immediates and static constants live in none. */
  function HeapOf(v: Value): Option<HeapId>
  {
    match v
    case Fixnum(_) => None
    case Boolean(_) => None
    case Void => None
    case CharString(_, h) => Some(h)
    case UnixPath(_, h) => Some(h)
    case Symbol(_, h) => Some(h)
    case ResolvedModulePath(h) => Some(h)
    case PlaceObject(_, h) => Some(h)
    case Other(_, h) => Some(h)
  }

  /** `v` holds no reference into any heap other than `h`. */
  predicate LivesIn(v: Value, h: HeapId)
  {
    HeapOf(v) == None || HeapOf(v) == Some(h)
  }

  /** The same value, with its object (if any) placed in heap `h` instead. */
  function Moved(v: Value, h: HeapId): (r: Value)
    ensures TypeOf(r) == TypeOf(v) && LivesIn(r, h)
    ensures HeapOf(v) == None ==> r == v
  {
    match v
    case CharString(cs, _) => CharString(cs, h)
    case UnixPath(bs, _) => UnixPath(bs, h)
    case Symbol(name, _) => Symbol(name, h)
    case ResolvedModulePath(_) => ResolvedModulePath(h)
    case PlaceObject(t, _) => PlaceObject(t, h)
    case Other(code, _) => Other(code, h)
    case _ => v
  }

  /** Exceptions the place primitives raise to their Scheme caller. */
  datatype Exn =
    | ArityError(name: string, minArity: nat, maxArity: nat, given: nat)
    | Unsupported(message: string)
}

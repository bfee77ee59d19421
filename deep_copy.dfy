// The deep-copy transfer protocol (scheme_places_deep_copy): a closed,
// type-directed copy of a value into the heap of the calling place.
module Transfer {
  import opened Values

  /** The runtime's symbol interner for the calling place (scheme_intern_exact_symbol),
      opaque to this layer: it maps name bytes to the canonical symbol. */
  type Interner = seq<byte> -> Value

  /** The process was stopped by abort() on a value of this kind. */
  datatype Abort = Abort(kind: TypeTag)

  /** The kinds the protocol knows how to move between heaps. */
  predicate Transferable(v: Value)
  {
    v.Fixnum? || v.CharString? || v.UnixPath? || v.Symbol?
  }

  /** An interner that returns, for every name, the symbol of that name in heap `h`. */
  ghost predicate InternsInto(intern: Interner, h: HeapId)
  {
    forall name :: intern(name) == Symbol(name, h)
  }

  /** Copies `v` into heap `dst`, interning symbols with `intern`; any kind outside
      the closed set aborts the process. */
  function DeepCopy(v: Value, dst: HeapId, intern: Interner): (r: Result<Value, Abort>)
    ensures r.Ok? <==> Transferable(v)
    ensures v.Fixnum? ==> r == Ok(v)
    ensures v.CharString? ==> r.Ok? && r.value.CharString?
                              && r.value.chars == v.chars && |r.value.chars| == |v.chars|
                              && r.value.heap == dst
    ensures v.UnixPath? ==> r.Ok? && r.value.UnixPath?
                            && r.value.bytes == v.bytes && |r.value.bytes| == |v.bytes|
                            && r.value.heap == dst
    ensures v.Symbol? ==> r == Ok(intern(v.name))
    ensures !Transferable(v) ==> r == Err(Abort(TypeOf(v)))
  {
    if v.Fixnum? then
      Ok(v)
    else
      match TypeOf(v)
      case CharStringTag => Ok(CharString(v.chars, dst))
      case UnixPathTag => Ok(UnixPath(v.bytes, dst))
      case SymbolTag => Ok(intern(v.name))
      case ResolvedModulePathTag => Err(Abort(ResolvedModulePathTag))
      case _ => Err(Abort(TypeOf(v)))
  }

  /** Isolation: when the interner only hands out symbols of the destination heap,
      a successful copy holds no reference into any other heap. */
  lemma DeepCopyStaysInDestination(v: Value, dst: HeapId, intern: Interner)
    requires forall name :: LivesIn(intern(name), dst)
    ensures DeepCopy(v, dst, intern).Ok? ==> LivesIn(DeepCopy(v, dst, intern).value, dst)
  {
  }

  /** Isolation from the source: when the interner hands out nothing that lives in
      the source heap `src` (it may live in the master's heap, say), a successful
      copy of a value from `src` into another heap holds no reference into `src`. */
  lemma DeepCopyLeavesSourceHeap(v: Value, src: HeapId, dst: HeapId, intern: Interner)
    requires src != dst
    requires forall name :: HeapOf(intern(name)) != Some(src)
    ensures DeepCopy(v, dst, intern).Ok? ==> HeapOf(DeepCopy(v, dst, intern).value) != Some(src)
  {
  }

  /** With a canonical interner for `dst`, deep copy is exactly "the same value,
      placed in `dst`" for every transferable kind. */
  lemma DeepCopyIsRelocation(v: Value, dst: HeapId, intern: Interner)
    requires InternsInto(intern, dst)
    requires Transferable(v)
    ensures DeepCopy(v, dst, intern) == Ok(Moved(v, dst))
  {
  }

  /** Copying a value of heap `a` into heap `b` and back gives the original value. */
  lemma DeepCopyRoundTrip(v: Value, a: HeapId, b: HeapId, inA: Interner, inB: Interner)
    requires InternsInto(inA, a) && InternsInto(inB, b)
    requires Transferable(v) && LivesIn(v, a)
    ensures DeepCopy(v, b, inB).Ok?
    ensures DeepCopy(DeepCopy(v, b, inB).value, a, inA) == Ok(v)
  {
  }

  /** Copying a copy into the same heap again changes nothing. */
  lemma DeepCopyIdempotent(v: Value, dst: HeapId, intern: Interner)
    requires InternsInto(intern, dst)
    requires Transferable(v)
    ensures DeepCopy(v, dst, intern).Ok?
    ensures DeepCopy(DeepCopy(v, dst, intern).value, dst, intern) == DeepCopy(v, dst, intern)
  {
  }
}

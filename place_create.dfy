// Creating a place (scheme_place) and recognising place handles
// (scheme_place_p). The creator fills a start payload field by field, snapshots
// its library collection paths into it and hands it to a newly spawned worker.
module PlaceCreate {
  import opened Values

  /** Place_Start_Data: the payload a new worker reads once at start-up.
      `None` stands for a field left NULL by the zero-filling allocator. */
  datatype StartData = StartData(
    argc: int,
    thunk: Option<Value>,
    moduleRef: Option<Value>,
    channel: Option<Value>,
    collectionPaths: Option<Value>)

  /** A freshly allocated payload: every field zero or NULL. */
  const Unfilled: StartData := StartData(0, None, None, None, None)

  predicate ThunkMode(d: StartData)
  {
    d.argc == 1 && d.thunk.Some? && d.moduleRef.None? && d.channel.None?
  }

  predicate ModuleMode(d: StartData)
  {
    d.argc == 2 && d.thunk.None? && d.moduleRef.Some? && d.channel.Some?
  }

  /** The payloads `place` hands to a worker: one mode, and the paths snapshot. */
  predicate WellFormed(d: StartData)
  {
    (ThunkMode(d) || ModuleMode(d)) && d.collectionPaths.Some?
  }

  /** The arguments of the `place` call a well-formed payload records. */
  function PayloadArgs(d: StartData): (args: seq<Value>)
    requires WellFormed(d)
    ensures |args| == d.argc
  {
    if d.argc == 1 then [d.thunk.value] else [d.moduleRef.value, d.channel.value]
  }

  /** The payload built for a call of `place` with `args` while the caller's
      collection paths are `paths`. */
  function Payload(args: seq<Value>, paths: Value): (d: StartData)
    requires |args| == 1 || |args| == 2
    ensures WellFormed(d) && d.argc == |args|
    ensures PayloadArgs(d) == args
    ensures d.collectionPaths == Some(paths)
  {
    if |args| == 1 then StartData(1, Some(args[0]), None, None, Some(paths))
    else StartData(2, None, Some(args[0]), Some(args[1]), Some(paths))
  }

  /** `place?`: #t exactly for place handles. */
  function PlaceP(v: Value): (b: Value)
    ensures b.Boolean?
    ensures b.b <==> v.PlaceObject?
  {
    if TypeOf(v) == PlaceTag then Boolean(true) else Boolean(false)
  }

  /** A place with the same fields as a record of another kind is still told apart. */
  lemma PlacePIsTypeTest(t: nat, h: HeapId, code: nat)
    ensures PlaceP(PlaceObject(t, h)) == Boolean(true)
    ensures PlaceP(Other(code, h)) == Boolean(false)
    ensures PlaceP(Fixnum(t)) == Boolean(false)
  {
  }

  /** The calling place, as far as creating places is concerned. */
  class Creator {
    const heap: HeapId
    var collectionPaths: Value
    /** One payload per worker started so far; a place handle's thread is its index. */
    var spawned: seq<StartData>

    ghost predicate Valid()
      reads this
    {
      forall i :: 0 <= i < |spawned| ==> WellFormed(spawned[i])
    }

    constructor (heap: HeapId, collectionPaths: Value)
      ensures Valid()
      ensures this.heap == heap && this.collectionPaths == collectionPaths && spawned == []
    {
      this.heap := heap;
      this.collectionPaths := collectionPaths;
      spawned := [];
    }

    /** `place`: with one argument (a thunk) or two (a module and a channel) a worker
        is started on a fresh payload and a new place handle is returned; any other
        count raises the arity error and starts nothing. */
    method Place(args: seq<Value>) returns (r: Result<Value, Exn>)
      requires Valid()
      modifies this`spawned
      ensures Valid()
      ensures |args| == 1 || |args| == 2 ==>
                && r == Ok(PlaceObject(old(|spawned|), heap))
                && spawned == old(spawned) + [Payload(args, collectionPaths)]
      ensures !(|args| == 1 || |args| == 2) ==>
                r == Err(ArityError("place", 1, 2, |args|)) && spawned == old(spawned)
      ensures r.Ok? ==> PlaceP(r.value) == Boolean(true) && LivesIn(r.value, heap)
    {
      var argc := |args|;
      var data := Unfilled;
      data := data.(argc := argc);
      if argc == 1 {
        data := data.(thunk := Some(args[0]));
      } else if argc == 2 {
        data := data.(moduleRef := Some(args[0]), channel := Some(args[1]));
      } else {
        return Err(ArityError("place", 1, 2, argc));
      }
      data := data.(collectionPaths := Some(collectionPaths));
      var thread := |spawned|;
      spawned := spawned + [data];
      r := Ok(PlaceObject(thread, heap));
    }
  }
}

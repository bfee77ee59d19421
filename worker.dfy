// The start-up of a place's worker thread (place_start_proc): clear the runtime's
// thread-local globals (null_out_runtime_globals), attach a child heap, build a
// runtime instance, re-apply the creator's collection paths, then run the thunk or
// the module's `place-main`. Calls into the rest of the runtime are opaque and are
// recorded, in order, as events of a trace.
module Worker {
  import opened Values
  import opened Transfer
  import opened PlaceCreate

  /** A C pointer among the runtime globals. */
  datatype Ptr = Null | Addr(address: nat)

  /** The bytes of "place-main". */
  const PlaceMainName: seq<byte> := [112, 108, 97, 99, 101, 45, 109, 97, 105, 110]

  /** place_main_symbol: interned once, in the main heap, when `#%place` is registered. */
  const PlaceMainSymbol: Value := Symbol(PlaceMainName, MainHeap)

  /** The library a thunk-mode place loads before running its thunk. */
  const InitLibrary: string := "scheme/init"

  /** What an application calls: a procedure value, or the value `scheme_dynamic_require`
      returned for an export of a module. */
  datatype Callee = Procedure(proc: Value) | Export(moduleRef: Value, name: Value)

  /** One call from the worker into the runtime. */
  datatype Event =
      // null_out_runtime_globals has cleared the seven globals
    | ResetGlobals
    | ConstructChildGc(heap: HeapId)
      // scheme_place_instance_init, with whether the seven globals were clear when it ran
    | InstanceInit(stackBase: nat, globalsClear: bool)
    | SetCollectionPaths(paths: Value)
      // load_namespace: namespace-require of (lib name); errors it raises are swallowed
    | LoadNamespace(lib: string)
    | DynamicRequire(moduleRef: Value, name: Value)
    | Apply(callee: Callee, args: seq<Value>)
    | ProcessAbort(kind: TypeTag)

  /** The events of one start-up and what the worker returns. */
  datatype Boot = Boot(events: seq<Event>, result: Result<Value, Abort>)

  /** The events every start-up begins with. */
  function Prologue(heap: HeapId, stackBase: nat, paths: Value): seq<Event>
  {
    [ResetGlobals, ConstructChildGc(heap), InstanceInit(stackBase, true), SetCollectionPaths(paths)]
  }

  /** The start-up of a worker in heap `heap` on payload `d`; `intern` is the new
      place's symbol interner. */
  function Bootstrap(d: StartData, heap: HeapId, stackBase: nat, intern: Interner): Boot
    requires WellFormed(d)
  {
    var prologue := Prologue(heap, stackBase, d.collectionPaths.value);
    if d.argc == 1 then
      Boot(prologue + [LoadNamespace(InitLibrary), Apply(Procedure(d.thunk.value), [])],
           Ok(Boolean(true)))
    else
      match DeepCopy(d.moduleRef.value, heap, intern)
      case Err(a) => Boot(prologue + [ProcessAbort(a.kind)], Err(a))
      case Ok(m) =>
        var require := DynamicRequire(m, PlaceMainSymbol);
        match DeepCopy(d.channel.value, heap, intern)
        case Err(a) => Boot(prologue + [require, ProcessAbort(a.kind)], Err(a))
        case Ok(c) =>
          Boot(prologue + [require, Apply(Export(m, PlaceMainSymbol), [c])], Ok(Boolean(true)))
  }

  /** Every start-up clears the globals, attaches the child heap, runs instance
      init on the cleared globals and re-applies the creator's collection paths,
      in that order, before anything mode-specific; it returns #t exactly when it
      ends by applying something. */
  lemma BootstrapOrder(d: StartData, heap: HeapId, stackBase: nat, intern: Interner)
    requires WellFormed(d)
    ensures var b := Bootstrap(d, heap, stackBase, intern);
      && |b.events| > 4
      && b.events[..4] == Prologue(heap, stackBase, d.collectionPaths.value)
      && (b.result.Ok? <==> b.events[|b.events| - 1].Apply?)
      && (b.result.Ok? ==> b.result.value == Boolean(true))
  {
  }

  /** Thunk mode loads scheme/init and then applies the thunk to no arguments. */
  lemma ThunkModeBootstrap(d: StartData, heap: HeapId, stackBase: nat, intern: Interner)
    requires WellFormed(d) && ThunkMode(d)
    ensures var b := Bootstrap(d, heap, stackBase, intern);
      && b.events[4..] == [LoadNamespace(InitLibrary), Apply(Procedure(d.thunk.value), [])]
      && b.result == Ok(Boolean(true))
  {
  }

  /** Module mode aborts exactly when the module or the channel cannot be deep-copied,
      and an aborted start-up applies nothing. */
  lemma ModuleModeAbortsIff(d: StartData, heap: HeapId, stackBase: nat, intern: Interner)
    requires WellFormed(d) && ModuleMode(d)
    ensures var b := Bootstrap(d, heap, stackBase, intern);
      && (b.result.Err? <==> !Transferable(d.moduleRef.value) || !Transferable(d.channel.value))
      && (b.result.Err? ==> forall i :: 0 <= i < |b.events| ==> !b.events[i].Apply?)
  {
  }

  /** With a canonical interner for the new heap, module mode requires `place-main`
      from the new heap's copy of the module and passes it the new heap's copy of
      the channel: the entry point gets no reference into the creator's heap. */
  lemma ModuleModeUsesCopies(d: StartData, heap: HeapId, stackBase: nat, intern: Interner)
    requires WellFormed(d) && ModuleMode(d) && InternsInto(intern, heap)
    requires Transferable(d.moduleRef.value) && Transferable(d.channel.value)
    ensures var m, c := Moved(d.moduleRef.value, heap), Moved(d.channel.value, heap);
      && Bootstrap(d, heap, stackBase, intern).events[4..]
         == [DynamicRequire(m, PlaceMainSymbol), Apply(Export(m, PlaceMainSymbol), [c])]
      && LivesIn(c, heap)
  {
  }

  /** Every payload a creator has handed to a worker meets `Worker.Start`'s
      precondition: the creator-to-worker handoff never gives a worker a payload
      it cannot start on. */
  lemma SpawnedPayloadStarts(c: Creator, i: nat)
    requires c.Valid() && i < |c.spawned|
    ensures WellFormed(c.spawned[i])
    ensures c.spawned[i].argc == 1 || c.spawned[i].argc == 2
  {
  }

  /** The worker thread: the runtime's thread-local globals and the calls it has made. */
  class Worker {
    /** The child heap GC_construct_child_gc gives this thread. */
    const heap: HeapId
    var currentThread: Ptr
    var firstThread: Ptr
    var mainThread: Ptr
    var runstackStart: Ptr
    var runstack: Ptr
    var contMarkStack: int
    var contMarkPos: int
    var trace: seq<Event>

    /** The state null_out_runtime_globals leaves behind. */
    predicate GlobalsClear()
      reads this
    {
      && currentThread == Null && firstThread == Null && mainThread == Null
      && runstackStart == Null && runstack == Null
      && contMarkStack == 0 && contMarkPos == 0
    }

    /** A new thread whose thread-local storage may still hold stale values. */
    constructor (heap: HeapId, stale: Ptr, staleMark: int)
      ensures this.heap == heap && trace == []
      ensures currentThread == firstThread == mainThread == runstackStart == runstack == stale
      ensures contMarkStack == contMarkPos == staleMark
    {
      this.heap := heap;
      currentThread, firstThread, mainThread := stale, stale, stale;
      runstackStart, runstack := stale, stale;
      contMarkStack, contMarkPos := staleMark, staleMark;
      trace := [];
    }

    /** Clears all seven globals, records that in the trace, and touches nothing else. */
    method NullOutRuntimeGlobals()
      modifies this`currentThread, this`firstThread, this`mainThread
      modifies this`runstackStart, this`runstack, this`contMarkStack, this`contMarkPos
      modifies this`trace
      ensures GlobalsClear()
      ensures trace == old(trace) + [ResetGlobals]
    {
      currentThread := Null;
      firstThread := Null;
      mainThread := Null;

      runstackStart := Null;
      runstack := Null;
      contMarkStack := 0;
      contMarkPos := 0;
      trace := trace + [ResetGlobals];
    }

    /** place_start_proc: the worker's entry procedure, on the payload `d` its
        creator built. */
    method Start(d: StartData, stackBase: nat, intern: Interner) returns (r: Result<Value, Abort>)
      requires WellFormed(d)
      modifies this
      ensures trace == old(trace) + Bootstrap(d, heap, stackBase, intern).events
      ensures r == Bootstrap(d, heap, stackBase, intern).result
    {
      NullOutRuntimeGlobals();
      trace := trace + [ConstructChildGc(heap)];
      trace := trace + [InstanceInit(stackBase, GlobalsClear())];
      trace := trace + [SetCollectionPaths(d.collectionPaths.value)];

      if d.argc == 1 {
        trace := trace + [LoadNamespace(InitLibrary)];
        var thunk := d.thunk.value;
        trace := trace + [Apply(Procedure(thunk), [])];
      } else {
        var m := DeepCopy(d.moduleRef.value, heap, intern);
        if m.Err? {
          trace := trace + [ProcessAbort(m.error.kind)];
          return Err(m.error);
        }
        trace := trace + [DynamicRequire(m.value, PlaceMainSymbol)];
        var placeMain := Export(m.value, PlaceMainSymbol);
        var c := DeepCopy(d.channel.value, heap, intern);
        if c.Err? {
          trace := trace + [ProcessAbort(c.error.kind)];
          return Err(c.error);
        }
        trace := trace + [Apply(placeMain, [c.value])];
      }
      r := Ok(Boolean(true));
    }
  }
}

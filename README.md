# Places: a Dafny model of the sequential core of `places.c`

Racket's *places* are isolated units of execution. Each place runs on its own
OS thread and has its own garbage-collected heap. Values cross between places
only as deep copies. One master thread owns the process-wide canonical tables
for symbols and resolved module paths.

This project models the sequential layer of `src/mzscheme/src/places.c`:

- **Deep copy** (`Transfer`, `deep_copy.dfy`). `scheme_places_deep_copy` is a
  total function over value kinds:
  - fixnums come back unchanged;
  - character strings and unix paths are rebuilt in the destination heap;
  - symbols are re-interned by name;
  - resolved module paths and every other kind make the process `abort()`.
  Each value records the heap it lives in (`Values`, `values.dfy`). This lets
  the contracts state the isolation property: a copy holds no reference into
  the source heap, as long as the interner hands out nothing from that heap.
- **Primitive registration** (`Primitives`, `primitives.dfy`). `#%place`
  registers `place` (arity 1–2) and `place-sleep`, `place-wait` and `place?`
  (arity 1). Every call is arity-checked first. A build without places binds all
  four names to a stub that raises "not supported".
- **Place creation and `place?`** (`PlaceCreate`, `place_create.dfy`).
  `scheme_place` fills a `Place_Start_Data` payload field by field:
  - one argument is stored as the thunk;
  - two arguments are stored as the module and the channel;
  - any other count raises the arity error.
  The payload also snapshots the caller's collection paths, and a worker is
  started on it. `place?` tests the type tag.
- **Worker start-up** (`Worker`, `worker.dfy`). `null_out_runtime_globals`
  clears seven thread-local globals. `place_start_proc` then runs these steps
  in order (the model is of a build with `MZ_PRECISE_GC`):
  1. construct the child heap;
  2. initialise the runtime instance;
  3. re-apply the collection paths;
  4. in thunk mode, load `scheme/init` and apply the thunk to no arguments;
     in module mode, deep-copy the module, require `place-main`, deep-copy the
     channel and apply `place-main` to it.

  Calls into the rest of the runtime are opaque events appended to a trace.
- **Master dispatch** (`Master`, `master.dfy`). `master_scheme_place` is one
  receive/dispatch/send loop:
  - kind 1 is answered with kind 2, carrying the interned module path of the
    deep-copied payload;
  - kind 3 is answered with kind 4, carrying the interned symbol for the
    request's (table, kind, name, len);
  - kind 5 and any other kind get no reply.

  `Step` is one iteration. `RunUntilBlocked` runs the loop while mail is
  waiting. `Transcript` gives what serving a whole queue produces.

The interning functions belong to the symbol and module tables outside this
file, so they are function-valued parameters (`Interner`, `Interners`). The
round-trip and isolation lemmas assume a canonical interner (`InternsInto`).

Where the code and the intended design differ, the model follows the code:

- In thunk mode the creator's thunk is applied in the new place without being
  deep-copied.
- `place_main_symbol` was interned in the main heap. It is passed to
  `scheme_dynamic_require` in the new place as it is (`PlaceMainSymbol` keeps
  `MainHeap`).
- The collection paths are handed over without a deep copy.
- Message kind 5 does not stop the master loop; it is ignored like an unknown
  kind.
- Only fixnums are immediate. Any other number (a bignum, for instance) is an
  `Other` kind and aborts deep copy.

## Model

| member | source | states |
|---|---|---|
| `Transfer.DeepCopy` | src/mzscheme/src/places.c:171-199 | succeeds exactly on fixnums, char strings, unix paths and symbols; a fixnum comes back identical; a char string or path comes back as the same kind with equal contents and length, in the destination heap; a symbol comes back as the interner's symbol for its name; any other kind (resolved module paths included) is an abort on that kind |
| `Transfer.DeepCopyStaysInDestination` | src/mzscheme/src/places.c:171-199 | if the interner only returns values of the destination heap, every successful copy holds no reference into any other heap |
| `Transfer.DeepCopyLeavesSourceHeap` | src/mzscheme/src/places.c:171-199 | if the interner returns nothing in the source heap, a successful copy into another heap holds no reference into the source heap |
| `Transfer.DeepCopyIsRelocation` | src/mzscheme/src/places.c:179-190 | with a canonical interner, copying any transferable value equals the same value placed in the destination heap |
| `Transfer.DeepCopyRoundTrip` | src/mzscheme/src/places.c:179-190 | copying a transferable value from heap a to heap b and back gives the original value |
| `Transfer.DeepCopyIdempotent` | src/mzscheme/src/places.c:179-190 | copying a copy into the same heap again gives the same value |
| `Primitives.Lookup` | src/mzscheme/src/places.c:60-63 | exactly the four names place, place-sleep, place-wait and place? are registered, each under its own name |
| `Primitives.Call` | src/mzscheme/src/places.c:28-38 | a call runs the primitive's body exactly when places are built in and the argument count is within the registered range; a count outside it raises the arity error naming the primitive and its range; with places compiled out, a correctly sized call raises "not supported" |
| `Primitives.CompiledOutNeverRuns` | src/mzscheme/src/places.c:30-38 | without places, all four bindings exist and no call to them ever runs a body; the failure is "not supported" exactly when the count fits the arity |
| `Primitives.PlaceBodySeesOneOrTwo` | src/mzscheme/src/places.c:113-122 | because `place` is registered with arity 1..2, its body is only entered with one or two arguments |
| `PlaceCreate.Payload` | src/mzscheme/src/places.c:111-124 | the payload for one or two arguments is well formed (thunk mode or module mode, never both), records the count, gives back exactly those arguments, and carries the caller's collection paths |
| `PlaceCreate.Creator.Place` | src/mzscheme/src/places.c:100-131 | one or two arguments start exactly one new worker on that payload and return a new place handle in the caller's heap for which place? is true; any other count raises the arity error for "place" with range 1..2 and starts nothing |
| `PlaceCreate.PlaceP` | src/mzscheme/src/places.c:143-146 | returns a boolean, true exactly when the argument is a place handle |
| `PlaceCreate.PlacePIsTypeTest` | src/mzscheme/src/places.c:143-146 | a place handle answers #t; an object of another kind with the same fields, or a fixnum, answers #f |
| `Worker.Worker.NullOutRuntimeGlobals` | src/mzscheme/src/places.c:84-93 | afterwards the three thread pointers and two runstack pointers are NULL and both continuation-mark fields are 0; the reset is recorded in the trace; nothing else changes |
| `Worker.Worker.Start` | src/mzscheme/src/places.c:201-244 | the trace gains exactly the start-up events of the payload's mode, and the result is that start-up's result; instance init is recorded as seeing cleared globals whatever the thread-local storage held before |
| `Worker.SpawnedPayloadStarts` | src/mzscheme/src/places.c:124-127 | every payload a creator has handed to a worker is well formed, with argument count 1 or 2, so it meets the worker's start precondition |
| `Worker.BootstrapOrder` | src/mzscheme/src/places.c:216-243 | every start-up begins with the reset of the globals, the child heap, instance init on cleared globals, and the collection paths, in that order; it returns #t exactly when its last event is an application |
| `Worker.ThunkModeBootstrap` | src/mzscheme/src/places.c:227-232 | thunk mode then loads scheme/init and applies the thunk to zero arguments, and returns #t |
| `Worker.ModuleModeAbortsIff` | src/mzscheme/src/places.c:233-241 | module mode aborts exactly when the module or the channel is not transferable, and an aborted start-up applies nothing |
| `Worker.ModuleModeUsesCopies` | src/mzscheme/src/places.c:233-241 | with a canonical interner, module mode requires place-main from the new heap's copy of the module and applies it to one argument, the new heap's copy of the channel |
| `Master.Answer` | src/mzscheme/src/places.c:257-274 | a message aborts exactly when it is a kind 1 request whose payload deep copy refuses; otherwise kinds 1 and 3 get one reply to the sender with kind plus one: for 1, the module-path interning of the deep copy; for 3, the table interning of the symbol parts; every other kind gets none |
| `Master.MasterPlace.Step` | src/mzscheme/src/places.c:257-274 | takes the oldest message off the mailbox and appends its answer (as `Answer` gives it) to the sent replies, or records the abort; an empty mailbox changes nothing |
| `Master.MasterPlace.RunUntilBlocked` | src/mzscheme/src/places.c:250-275 | serving the mailbox sends exactly the queue's transcript, and leaves the mailbox empty unless it aborted |
| `Master.TranscriptAppend` | src/mzscheme/src/places.c:250-275 | serving a then b is serving a + b, and an abort while serving a ends the run there |
| `Master.TranscriptAbortsIff` | src/mzscheme/src/places.c:259-263 | serving a queue aborts exactly when some kind 1 request in it carries an untransferable value |
| `Master.TranscriptAnswersEach` | src/mzscheme/src/places.c:257-274 | without an abort, there is exactly one reply per kind 1 or 3 request, in arrival order, each to its requester with kind plus one and equal to that request's answer |
| `Master.SameSymbolSameReply` | src/mzscheme/src/places.c:264-270 | two symbol requests with the same parts, from any places, receive the same canonical object |

## Left out

- Thread plumbing is not modelled: `mz_proc_thread_create`, `mz_proc_thread_wait`, `mz_proc_thread_self`, `place-wait` and `place-sleep` (`mzrt_sleep`). A started worker is a payload appended to `Creator.spawned`, and a place handle's thread is that payload's index.
- Mailbox blocking and concurrency are not modelled. `pt_mbox_recv` on an empty mailbox blocks; `Step` returns `Blocked` instead, and `RunUntilBlocked` stops there instead of waiting forever.
- GC heap management is not modelled: `GC_construct_child_gc` is a trace event, `GC_switch_in_master_gc` is the master's `heap`, and the precise-GC traversers and `register_traversers` are left out.
- The stack base from `PROMPT_STACK` is a parameter, and the `printf` diagnostic is left out.
- `spawn_master_scheme_place` allocates the master's thread record and mailbox. That is left out; `MasterPlace`'s constructor stands for it.
- Calls into the runtime are opaque events with no modelled effect: `load_namespace`, `scheme_apply`, `scheme_dynamic_require` and `scheme_current_library_collection_paths`. Errors that `load_namespace` catches through its error buffer are swallowed in the code, so they have no event.
- The symbol and module-path tables behind the interning functions are not part of this model; the interners are function-valued parameters.
- Transfer.DeepCopyRoundTrip: equality is up to two flags the value type does not carry. Strings and paths are compared without their mutability: the copy is always a freshly allocated string or path, whatever the original's mutability (the `1` argument at places.c:180 and :183). Every symbol is treated as interned: places.c:187-188 re-interns any symbol, so an uninterned symbol comes back interned.
- Transfer.DeepCopyIdempotent: the same holds here; it is equality up to string and path mutability and the interned/uninterned distinction of symbols.
- The model is of a build with `MZ_PRECISE_GC`. Without it, `GC_construct_child_gc` does not run (places.c:219-221), so there is no `ConstructChildGc` event, and there is no master thread (places.c:246-292).
- Transfer.DeepCopy: for a fixnum, "allocates nothing" is stated only as "returns the identical value", because heap allocation is not modelled.
- Worker.Worker.Start: does not state what `scheme_place_instance_init` writes into the seven globals, because that function is not part of this model.
- PlaceCreate.Creator.Place: does not model the place object allocated before the arity check, which becomes garbage when the check fails.
- Fixnums are unbounded integers. The fixnum range does not matter here, because deep copy never looks at the number.
- The length of a symbol name is the length of its byte sequence. The separate `len` of a symbol-parts request is passed to the interner untouched.

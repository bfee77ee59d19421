// The master coordination thread (master_scheme_place): it owns the canonical
// tables for resolved module paths and symbols and serves requests that places
// post to its mailbox, answering each on the requester's own mailbox. The tables
// themselves live in the interning functions, which are opaque here.
module Master {
  import opened Values
  import opened Transfer

  /** A mailbox, named by the place that owns it. */
  type MailboxId = nat

  /** Scheme_Symbol_Parts: the arguments of an exact-symbol interning request. */
  datatype SymbolParts = SymbolParts(table: nat, kind: int, name: seq<byte>, len: int)

  datatype Payload = ObjectPayload(obj: Value) | PartsPayload(parts: SymbolParts) | NoPayload

  /** A received message: its kind, its payload and the mailbox to answer on. */
  datatype Message = Message(kind: int, payload: Payload, origin: MailboxId)

  /** A sent message: destination mailbox, kind and payload. */
  datatype Reply = Reply(to: MailboxId, kind: int, obj: Value)

  const InternModulePathRequest: int := 1
  const InternedModulePathReply: int := 2
  const InternSymbolRequest: int := 3
  const InternedSymbolReply: int := 4

  /** The interning workers that own the canonical tables, in the master's heap. */
  datatype Interners = Interners(
    exact: Interner,                        // scheme_intern_exact_symbol (used by deep copy)
    modulePath: Value -> Value,             // scheme_intern_resolved_module_path_worker
    inTable: SymbolParts -> Value)          // scheme_intern_exact_symbol_in_table_worker

  /** The payload the sender put in matches what the kind makes the master read. */
  predicate WellTyped(m: Message)
  {
    && (m.kind == InternModulePathRequest ==> m.payload.ObjectPayload?)
    && (m.kind == InternSymbolRequest ==> m.payload.PartsPayload?)
  }

  predicate Answered(m: Message)
  {
    m.kind == InternModulePathRequest || m.kind == InternSymbolRequest
  }

  /** The request makes the master abort: a module-path payload deep copy refuses. */
  predicate Fatal(m: Message)
    requires WellTyped(m)
  {
    m.kind == InternModulePathRequest && !Transferable(m.payload.obj)
  }

  /** One iteration of the master's loop on message `m`: the reply it sends, if any,
      or the abort that ends the process. */
  function Answer(m: Message, heap: HeapId, ints: Interners): (r: Result<Option<Reply>, Abort>)
    requires WellTyped(m)
    ensures r.Err? <==> Fatal(m)
    ensures r.Ok? ==> (r.value.Some? <==> Answered(m))
    ensures r.Ok? && r.value.Some? ==>
              r.value.value.to == m.origin && r.value.value.kind == m.kind + 1
    ensures m.kind == InternModulePathRequest && r.Ok? ==>
              r.value.value.obj == ints.modulePath(DeepCopy(m.payload.obj, heap, ints.exact).value)
    ensures m.kind == InternSymbolRequest ==>
              r == Ok(Some(Reply(m.origin, InternedSymbolReply, ints.inTable(m.payload.parts))))
  {
    if m.kind == InternModulePathRequest then
      match DeepCopy(m.payload.obj, heap, ints.exact)
      case Err(a) => Err(a)
      case Ok(copied) =>
        Ok(Some(Reply(m.origin, InternedModulePathReply, ints.modulePath(copied))))
    else if m.kind == InternSymbolRequest then
      Ok(Some(Reply(m.origin, InternedSymbolReply, ints.inTable(m.payload.parts))))
    else
      Ok(None)
  }

  /** What serving a queue of messages in order produces. */
  datatype Run = Run(replies: seq<Reply>, aborted: bool)

  predicate AllWellTyped(q: seq<Message>)
  {
    forall i :: 0 <= i < |q| ==> WellTyped(q[i])
  }

  /** The replies the master sends while serving `q` front to back, and whether it
      aborted on the way (after which it serves nothing more). */
  function Transcript(q: seq<Message>, heap: HeapId, ints: Interners): Run
    requires AllWellTyped(q)
  {
    if q == [] then Run([], false)
    else
      match Answer(q[0], heap, ints)
      case Err(_) => Run([], true)
      case Ok(None) => Transcript(q[1..], heap, ints)
      case Ok(Some(rep)) =>
        var rest := Transcript(q[1..], heap, ints);
        Run([rep] + rest.replies, rest.aborted)
  }

  /** The requests of `q` that get a reply, in order. */
  function AnsweredRequests(q: seq<Message>): (s: seq<Message>)
    ensures |s| <= |q|
    ensures forall i :: 0 <= i < |s| ==> s[i] in q && Answered(s[i])
  {
    if q == [] then []
    else if Answered(q[0]) then [q[0]] + AnsweredRequests(q[1..])
    else AnsweredRequests(q[1..])
  }

  /** Serving `a` then `b` is serving `a + b`; an abort in `a` ends it there. */
  lemma {:induction false} TranscriptAppend(a: seq<Message>, b: seq<Message>, heap: HeapId, ints: Interners)
    requires AllWellTyped(a) && AllWellTyped(b)
    ensures AllWellTyped(a + b)
    ensures var ta := Transcript(a, heap, ints);
      Transcript(a + b, heap, ints)
        == if ta.aborted then ta
           else Run(ta.replies + Transcript(b, heap, ints).replies, Transcript(b, heap, ints).aborted)
  {
    assert AllWellTyped(a + b) by {
      forall i | 0 <= i < |a + b| ensures WellTyped((a + b)[i]) {
        if i < |a| { assert (a + b)[i] == a[i]; } else { assert (a + b)[i] == b[i - |a|]; }
      }
    }
    if a == [] {
      assert a + b == b;
    } else {
      assert (a + b)[1..] == a[1..] + b;
      assert (a + b)[0] == a[0];
      TranscriptAppend(a[1..], b, heap, ints);
    }
  }

  /** The master aborts on a queue exactly when some module-path request in it
      carries a value deep copy refuses. */
  lemma {:induction false} TranscriptAbortsIff(q: seq<Message>, heap: HeapId, ints: Interners)
    requires AllWellTyped(q)
    ensures Transcript(q, heap, ints).aborted <==> exists i :: 0 <= i < |q| && Fatal(q[i])
  {
    if q != [] {
      TranscriptAbortsIff(q[1..], heap, ints);
      if exists i :: 0 <= i < |q[1..]| && Fatal(q[1..][i]) {
        var i :| 0 <= i < |q[1..]| && Fatal(q[1..][i]);
        assert Fatal(q[i + 1]);
      }
      if exists i :: 0 <= i < |q| && Fatal(q[i]) {
        var i :| 0 <= i < |q| && Fatal(q[i]);
        if i > 0 { assert Fatal(q[1..][i - 1]); }
      }
    }
  }

  /** Without an abort, the master sends exactly one reply per kind 1 or kind 3
      request, in arrival order, to the requester's mailbox, with the request's
      kind plus one; kind 5 and unknown kinds get nothing. */
  lemma {:induction false} TranscriptAnswersEach(q: seq<Message>, heap: HeapId, ints: Interners)
    requires AllWellTyped(q)
    requires !Transcript(q, heap, ints).aborted
    ensures var t, s := Transcript(q, heap, ints).replies, AnsweredRequests(q);
      && |t| == |s|
      && (forall i :: 0 <= i < |t| ==> t[i].to == s[i].origin && t[i].kind == s[i].kind + 1)
      && (forall i :: 0 <= i < |t| ==> Answer(s[i], heap, ints) == Ok(Some(t[i])))
  {
    if q != [] {
      TranscriptAnswersEach(q[1..], heap, ints);
    }
  }

  /** Canonicalization: two symbol requests for the same parts, from any two places,
      are answered with the same canonical symbol. */
  lemma SameSymbolSameReply(q: seq<Message>, heap: HeapId, ints: Interners, i: nat, j: nat)
    requires AllWellTyped(q)
    requires !Transcript(q, heap, ints).aborted
    requires i < |AnsweredRequests(q)| && j < |AnsweredRequests(q)|
    requires AnsweredRequests(q)[i].kind == AnsweredRequests(q)[j].kind == InternSymbolRequest
    requires AnsweredRequests(q)[i].payload == AnsweredRequests(q)[j].payload
    ensures var t := Transcript(q, heap, ints).replies;
      i < |t| && j < |t| && t[i].obj == t[j].obj
  {
    TranscriptAnswersEach(q, heap, ints);
  }

  /** One step of the loop's result. */
  datatype StepOutcome = Blocked | Served | Aborted

  /** The master thread: its mailbox, the replies it has sent, and whether the
      process has been aborted. */
  class MasterPlace {
    /** The master's own heap (GC_switch_in_master_gc). */
    const heap: HeapId
    const interners: Interners
    var mailbox: seq<Message>
    var sent: seq<Reply>
    var aborted: bool

    ghost predicate Valid()
      reads this
    {
      AllWellTyped(mailbox)
    }

    constructor (heap: HeapId, interners: Interners)
      ensures Valid()
      ensures this.heap == heap && this.interners == interners
      ensures mailbox == [] && sent == [] && !aborted
    {
      this.heap := heap;
      this.interners := interners;
      mailbox, sent, aborted := [], [], false;
    }

    /** A place posts a request to the master's mailbox. */
    method Post(m: Message)
      requires Valid() && WellTyped(m)
      modifies this`mailbox
      ensures Valid() && mailbox == old(mailbox) + [m]
    {
      mailbox := mailbox + [m];
    }

    /** One iteration of the loop: take the oldest message and answer it. With an
        empty mailbox the real receive blocks; here nothing happens. */
    method Step() returns (outcome: StepOutcome)
      requires Valid() && !aborted
      modifies this`mailbox, this`sent, this`aborted
      ensures Valid()
      ensures old(mailbox) == [] ==> outcome == Blocked && unchanged(this)
      ensures old(mailbox) != [] ==>
                && mailbox == old(mailbox)[1..]
                && var run := Transcript([old(mailbox)[0]], heap, interners);
                && sent == old(sent) + run.replies
                && aborted == run.aborted
                && outcome == (if aborted then Aborted else Served)
    {
      if mailbox == [] {
        return Blocked;
      }
      var m := mailbox[0];
      mailbox := mailbox[1..];
      assert [m][1..] == [];
      match Answer(m, heap, interners) {
        case Err(_) =>
          aborted := true;
          return Aborted;
        case Ok(None) =>
          // kind 5, and any other kind: nothing to answer
        case Ok(Some(reply)) =>
          sent := sent + [reply];
      }
      outcome := Served;
    }

    /** The master's receive loop, run for as long as there is mail: it serves the
        whole mailbox in order unless it aborts on the way. */
    method RunUntilBlocked()
      requires Valid() && !aborted
      modifies this`mailbox, this`sent, this`aborted
      ensures Valid()
      ensures var run := Transcript(old(mailbox), heap, interners);
        sent == old(sent) + run.replies && aborted == run.aborted
      ensures !aborted ==> mailbox == []
      ensures |mailbox| <= |old(mailbox)| && mailbox == old(mailbox)[|old(mailbox)| - |mailbox|..]
    {
      ghost var q := mailbox;
      ghost var k := 0;
      while mailbox != [] && !aborted
        invariant Valid()
        invariant 0 <= k <= |q| && mailbox == q[k..]
        invariant AllWellTyped(q[..k])
        invariant sent == old(sent) + Transcript(q[..k], heap, interners).replies
        invariant aborted == Transcript(q[..k], heap, interners).aborted
        decreases |mailbox|
      {
        assert q[k] == mailbox[0];
        var _ := Step();
        TranscriptAppend(q[..k], [q[k]], heap, interners);
        assert q[..k + 1] == q[..k] + [q[k]];
        k := k + 1;
      }
      TranscriptAppend(q[..k], q[k..], heap, interners);
      assert q[..k] + q[k..] == q;
    }
  }
}

/** The HTTP mode's single session slot. `GET /sse` opens an event stream
    and makes it the one current session, replacing any earlier one without
    closing it; `POST /messages` goes to the current session, or is answered
    400 when no stream has been opened yet. The stream framing and message
    handling of the SDK transport are not modelled; a request is an event
    and the reply says where it went. */
module SseRouting {
  import opened Wrappers

  /** Identifier of one event stream; the SDK gives every transport a fresh one. */
  type SessionId = string

  /** A client-to-server message body posted to `/messages`. */
  type Message = string

  datatype Request =
    | OpenStream(session: SessionId)   // GET /sse
    | PostMessage(message: Message)    // POST /messages

  datatype Reply =
    | Streaming(session: SessionId)
    | Rejected(status: int)
    | Delivered(session: SessionId, message: Message)

  const BadRequest: int := 400

  /** The `sseTransport` field: empty until the first stream opens. */
  type Slot = Option<SessionId>

  /** One request against the slot: the new slot and the reply. */
  function Step(slot: Slot, req: Request): (r: (Slot, Reply))
    ensures req.OpenStream? ==> r == (Some(req.session), Streaming(req.session))
    ensures req.PostMessage? && slot.None? ==> r == (slot, Rejected(BadRequest))
    ensures req.PostMessage? && slot.Some? ==> r == (slot, Delivered(slot.value, req.message))
  {
    match req
    case OpenStream(s) => (Some(s), Streaming(s))
    case PostMessage(m) =>
      if slot.None? then (slot, Rejected(BadRequest)) else (slot, Delivered(slot.value, m))
  }

  /** The slot after handling `reqs` in order, starting from `slot`. */
  function FinalSlot(slot: Slot, reqs: seq<Request>): Slot
    decreases |reqs|
  {
    if |reqs| == 0 then slot else FinalSlot(Step(slot, reqs[0]).0, reqs[1..])
  }

  /** The replies to `reqs`, handled in order starting from `slot`. */
  function Replies(slot: Slot, reqs: seq<Request>): (r: seq<Reply>)
    ensures |r| == |reqs|
    decreases |reqs|
  {
    if |reqs| == 0 then []
    else [Step(slot, reqs[0]).1] + Replies(Step(slot, reqs[0]).0, reqs[1..])
  }

  // ---------------------------------------------------------------------
  // Reference: the newest stream, read off the history backwards

  /** The session of the last `OpenStream` in `reqs`, if any. */
  function LatestOpened(reqs: seq<Request>): Option<SessionId> {
    if |reqs| == 0 then None
    else match reqs[|reqs| - 1]
      case OpenStream(s) => Some(s)
      case PostMessage(_) => LatestOpened(reqs[..|reqs| - 1])
  }

  /** The session current after `reqs`: the newest one opened, or the
      starting slot when none was. */
  function Current(slot: Slot, reqs: seq<Request>): Slot {
    if LatestOpened(reqs).Some? then LatestOpened(reqs) else slot
  }

  /** The reply the single slot calls for, given what came before. */
  function Expected(slot: Slot, before: seq<Request>, req: Request): Reply {
    match req
    case OpenStream(s) => Streaming(s)
    case PostMessage(m) =>
      match Current(slot, before)
      case None => Rejected(BadRequest)
      case Some(s) => Delivered(s, m)
  }

  lemma {:induction false} CurrentCons(slot: Slot, req: Request, rest: seq<Request>)
    ensures Current(slot, [req] + rest) == Current(Step(slot, req).0, rest)
  {
    var all := [req] + rest;
    if |rest| == 0 {
      assert all[..|all| - 1] == [];
    } else {
      assert all[..|all| - 1] == [req] + rest[..|rest| - 1];
      assert all[|all| - 1] == rest[|rest| - 1];
      CurrentCons(slot, req, rest[..|rest| - 1]);
    }
  }

  /** Running the slot forwards leaves exactly the newest stream in it. */
  lemma {:induction false} FinalSlotIsNewest(slot: Slot, reqs: seq<Request>)
    ensures FinalSlot(slot, reqs) == Current(slot, reqs)
    decreases |reqs|
  {
    if |reqs| > 0 {
      assert reqs == [reqs[0]] + reqs[1..];
      CurrentCons(slot, reqs[0], reqs[1..]);
      FinalSlotIsNewest(Step(slot, reqs[0]).0, reqs[1..]);
    }
  }

  /** The reply to the `i`-th request is the one the newest-stream
      reference calls for, given the requests before it. */
  lemma {:induction false} ReplyAt(slot: Slot, reqs: seq<Request>, i: nat)
    requires i < |reqs|
    ensures Replies(slot, reqs)[i] == Expected(slot, reqs[..i], reqs[i])
    decreases i
  {
    if i == 0 {
      assert reqs[..0] == [];
    } else {
      var next := Step(slot, reqs[0]).0;
      ReplyAt(next, reqs[1..], i - 1);
      assert reqs[..i] == [reqs[0]] + reqs[1..][..i - 1];
      CurrentCons(slot, reqs[0], reqs[1..][..i - 1]);
      assert Replies(slot, reqs)[i] == Replies(next, reqs[1..])[i - 1];
    }
  }

  /** Every reply is the one the newest-stream reference calls for. */
  lemma RepliesFollowNewest(slot: Slot, reqs: seq<Request>)
    ensures forall i :: 0 <= i < |reqs| ==> Replies(slot, reqs)[i] == Expected(slot, reqs[..i], reqs[i])
  {
    forall i | 0 <= i < |reqs|
      ensures Replies(slot, reqs)[i] == Expected(slot, reqs[..i], reqs[i])
    {
      ReplyAt(slot, reqs, i);
    }
  }

  // ---------------------------------------------------------------------
  // Consequences for a server that starts with an empty slot

  predicate NoStreamIn(reqs: seq<Request>) {
    forall t :: 0 <= t < |reqs| ==> reqs[t].PostMessage?
  }

  lemma {:induction false} NoStreamNoLatest(reqs: seq<Request>)
    requires NoStreamIn(reqs)
    ensures LatestOpened(reqs) == None
  {
    if |reqs| > 0 {
      NoStreamNoLatest(reqs[..|reqs| - 1]);
    }
  }

  lemma {:induction false} LastStreamIsLatest(reqs: seq<Request>, k: nat)
    requires k < |reqs| && reqs[k].OpenStream?
    requires NoStreamIn(reqs[k + 1..])
    ensures LatestOpened(reqs) == Some(reqs[k].session)
  {
    if k < |reqs| - 1 {
      assert reqs[k + 1..][|reqs| - 1 - (k + 1)] == reqs[|reqs| - 1];
      var shorter := reqs[..|reqs| - 1];
      assert shorter[k + 1..] == reqs[k + 1..][..|reqs| - 1 - (k + 1)];
      LastStreamIsLatest(shorter, k);
    }
  }

  lemma {:induction false} LatestHasWitness(reqs: seq<Request>) returns (k: nat)
    requires LatestOpened(reqs).Some?
    ensures k < |reqs| && reqs[k] == OpenStream(LatestOpened(reqs).value)
    ensures forall t :: k < t < |reqs| ==> reqs[t].PostMessage?
  {
    var last := reqs[|reqs| - 1];
    if last.OpenStream? {
      k := |reqs| - 1;
    } else {
      var shorter := reqs[..|reqs| - 1];
      k := LatestHasWitness(shorter);
      assert forall t :: k < t < |shorter| ==> reqs[t] == shorter[t];
    }
  }

  /** A post before any stream is opened is answered 400 and leaves the
      slot empty. */
  lemma PostWithoutStreamRejected(reqs: seq<Request>, i: nat)
    requires i < |reqs| && reqs[i].PostMessage?
    requires NoStreamIn(reqs[..i])
    ensures Replies(None, reqs)[i] == Rejected(BadRequest)
    ensures FinalSlot(None, reqs[..i + 1]) == None
  {
    ReplyAt(None, reqs, i);
    NoStreamNoLatest(reqs[..i]);
    assert NoStreamIn(reqs[..i + 1]) by {
      assert forall t :: 0 <= t < i ==> reqs[..i + 1][t] == reqs[..i][t];
    }
    NoStreamNoLatest(reqs[..i + 1]);
    FinalSlotIsNewest(None, reqs[..i + 1]);
  }

  /** A post goes to the most recently opened stream. */
  lemma NewestStreamReceives(reqs: seq<Request>, k: nat, i: nat)
    requires k < i < |reqs|
    requires reqs[k].OpenStream? && reqs[i].PostMessage?
    requires NoStreamIn(reqs[k + 1..i])
    ensures Replies(None, reqs)[i] == Delivered(reqs[k].session, reqs[i].message)
  {
    ReplyAt(None, reqs, i);
    var before := reqs[..i];
    assert before[k + 1..] == reqs[k + 1..i];
    LastStreamIsLatest(before, k);
  }

  /** Every stream has its own session; the SDK draws a fresh identifier
      for each. */
  predicate FreshSessions(reqs: seq<Request>) {
    forall a, b :: 0 <= a < b < |reqs| && reqs[a].OpenStream? && reqs[b].OpenStream?
      ==> reqs[a].session != reqs[b].session
  }

  /** Once a newer stream has opened, an earlier one receives nothing more:
      its client is orphaned. */
  lemma EarlierStreamDropped(reqs: seq<Request>, j: nat, k: nat, i: nat)
    requires FreshSessions(reqs)
    requires j < k < i < |reqs|
    requires reqs[j].OpenStream? && reqs[k].OpenStream?
    ensures !(Replies(None, reqs)[i].Delivered? && Replies(None, reqs)[i].session == reqs[j].session)
  {
    ReplyAt(None, reqs, i);
    var before := reqs[..i];
    if Replies(None, reqs)[i].Delivered? {
      assert LatestOpened(before).Some?;
      var w := LatestHasWitness(before);
      assert before[k] == reqs[k];
      assert w >= k;
      assert reqs[w] == before[w];
    }
  }
}

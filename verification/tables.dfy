/**
 tran_log and saf_queue updated in place: the repositories' statements, each against the function
 that says what it does to the tables.
 */
module Tables {
  import opened Store
  import Gateway
  import Codec

  /** QueueAdvice copies what may be stored, element by element. */
  method StoredElements(sent: Elements) returns (fields: Elements)
    ensures fields == sent - NOT_STORED
  {
    fields := map[];
    var left := sent.Keys;
    while left != {}
      invariant left <= sent.Keys
      invariant forall n :: n in fields <==> n in sent && n !in left && n !in NOT_STORED
      invariant forall n :: n in fields ==> fields[n] == sent[n]
    {
      Codec.Inhabited(left);
      var n :| n in left;
      if n !in NOT_STORED {
        fields := fields[n := sent[n]];
      }
      left := left - {n};
    }
    assert forall n :: n in fields <==> n in sent && n !in NOT_STORED;
    StoredAlike(sent, fields);
  }

  class Database {
    var tran: seq<Tran>
    var saf: seq<Saf>

    ghost function Contents(): Db
      reads this
    {
      Db(tran, saf)
    }

    constructor ()
      ensures Contents() == Db([], [])
    {
      tran, saf := [], [];
    }

    // tran_log.

    method InsertRow(row: Tran) returns (id: TranId)
      modifies this
      ensures id == old(|tran|) && Contents() == Insert(old(Contents()), row)
    {
      id := |tran|;
      tran := tran + [row];
    }

    /** The claim on the pre-authorization and the insert, or ErrNotCompletable and neither. */
    method InsertClaiming(row: Tran, preAuth: TranId) returns (id: Option<TranId>)
      modifies this
      ensures Contents() == InsertCompletion(old(Contents()), row, preAuth)
      ensures id == if Completable(old(Contents()), preAuth) then Some(old(|tran|)) else None
    {
      id := None;
      if Completable(Db(tran, saf), preAuth) {
        id := Some(|tran|);
        tran := tran[preAuth := tran[preAuth].(completedBy := id)] + [row];
      }
    }

    method FreeClaim(id: TranId)
      requires id < |tran|
      modifies this
      ensures Contents() == Gateway.FreeClaimOf(old(Contents()), id)
    {
      var original := tran[id].req.original;
      if original.Some? && original.value < |tran| && tran[original.value].completedBy == Some(id) {
        tran := tran[original.value := tran[original.value].(completedBy := None)];
      }
    }

    method SetStatus(id: TranId, status: Status, rc: string)
      requires id < |tran|
      modifies this
      ensures Contents() == UpdateStatus(old(Contents()), id, status, rc)
    {
      tran := tran[id := tran[id].(status := status, rc := rc)];
    }

    /** moved is false for ErrStateMoved. */
    method SetStatusFrom(id: TranId, from: Status, status: Status, rc: string) returns (moved: bool)
      requires id < |tran|
      modifies this
      ensures moved <==> old(tran[id].status) == from
      ensures Contents() == UpdateStatusFrom(old(Contents()), id, from, status, rc)
    {
      moved := tran[id].status == from;
      if moved {
        tran := tran[id := tran[id].(status := status, rc := rc)];
      }
    }

    method TimeOut(id: TranId) returns (moved: bool)
      requires id < |tran|
      modifies this
      ensures moved <==> old(tran[id].status) == Sent
      ensures Contents() == MarkTimedOut(old(Contents()), id)
    {
      moved := SetStatusFrom(id, Sent, TimedOut, tran[id].rc);
    }

    // Both tables, in one transaction.

    /** Queue: fails for a row never sent, or one that has left the state its caller read. */
    method Queue(id: TranId, from: Status, reason: string) returns (ok: bool)
      requires id < |tran|
      modifies this
      ensures ok <==> CanReverse(old(Contents()), id, from)
      ensures Contents() == QueueReversal(old(Contents()), id, from, reason)
    {
      var row := tran[id];
      ok := EverSent(row.req) && row.status == from;
      if ok {
        tran := tran[id := row.(status := ReversalPending)];
        saf := saf + [NewAdvice(id, Reversal0420, ReversalAdvice(row.req, reason), row.req.cardToken)];
      }
    }

    method Acknowledge(i: SafId)
      requires i < |saf| && saf[i].tran < |tran|
      modifies this
      ensures Contents() == MarkAcked(old(Contents()), i)
    {
      var row := saf[i];
      saf := saf[i := row.(status := Acked)];
      var moved;
      match row.advice
      case Reversal0420 => moved := SetStatusFrom(row.tran, ReversalPending, Reversed, tran[row.tran].rc);
      case Completion0220 => moved := SetStatusFrom(row.tran, TimedOut, Approved, RC_APPROVED);
    }

    // saf_queue.

    method RepeatAdvice(id: TranId, sent: Elements)
      requires id < |tran|
      modifies this
      ensures Contents() == QueueAdvice(old(Contents()), id, sent)
    {
      var fields := StoredElements(sent);
      saf := saf + [NewAdvice(id, Completion0220, fields, "")];
    }

    method SavePayload(i: SafId, fields: Elements)
      requires i < |saf|
      modifies this
      ensures Contents() == UpdatePayload(old(Contents()), i, fields)
    {
      saf := saf[i := saf[i].(fields := fields)];
    }

    method Reschedule(i: SafId, attempts: nat)
      requires i < |saf|
      modifies this
      ensures Contents() == MarkInFlight(old(Contents()), i, attempts)
    {
      saf := saf[i := saf[i].(status := InFlight, attempts := attempts)];
    }

    method Bury(i: SafId)
      requires i < |saf|
      modifies this
      ensures Contents() == MarkDead(old(Contents()), i)
    {
      saf := saf[i := saf[i].(status := Dead)];
    }

    /** ClaimDue: the first limit due rows in id order, leased in the same statement. */
    method Claim(due: set<SafId>, limit: nat) returns (ids: seq<SafId>)
      requires limit <= 50
      modifies this
      ensures Gateway.Claimables(old(Contents()), ids) && Contents() == Gateway.ClaimDue(old(Contents()), ids)
      ensures forall k :: 0 <= k < |ids| ==> ids[k] in due
      ensures |ids| < limit ==> forall i: SafId :: i < |saf| && i in due && Claimable(old(saf)[i]) ==> i in ids
      ensures |ids| <= limit
    {
      ghost var was := saf;
      ids := [];
      var i := 0;
      while i < |saf| && |ids| < limit
        invariant i <= |saf| == |was| && |ids| <= limit && tran == old(tran)
        invariant forall k :: 0 <= k < |ids| ==> ids[k] < i && ids[k] in due && Claimable(was[ids[k]])
        invariant forall k, l :: 0 <= k < l < |ids| ==> ids[k] < ids[l]
        invariant forall k: SafId :: k < |was| ==> saf[k] == if k in ids then was[k].(status := InFlight) else was[k]
        invariant forall k: SafId :: k < i && k in due && Claimable(was[k]) ==> k in ids
      {
        assert i !in ids;
        if i in due && Claimable(saf[i]) {
          saf := saf[i := saf[i].(status := InFlight)];
          ids := ids + [i];
        }
        i := i + 1;
      }
      assert saf == Gateway.ClaimDue(old(Contents()), ids).saf;
    }
  }
}

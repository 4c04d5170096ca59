/**
 One sweep over the tables, in place and undisturbed: which orphans it follows up, what it leaves, and
 exactly when a sweep makes progress.
 */
module Sweeper {
  import opened Store
  import opened Gateway
  import opened GatewayProofs
  import opened GatewayTheorems
  import opened Tables
  import opened Interleaving

  const SWEEP_BATCH: nat := 50

  // The sweep as a function of the tables.

  /** The first limit orphans from row from on, in id order. */
  function FirstOrphans(db: Db, cutoff: int, from: TranId, limit: nat): (ids: seq<TranId>)
    decreases |db.tran| - from
  {
    if from >= |db.tran| || limit == 0 then []
    else if IsOrphan(db, from, cutoff) then [from] + FirstOrphans(db, cutoff, from + 1, limit - 1)
    else FirstOrphans(db, cutoff, from + 1, limit)
  }

  /** followUp of a row as it is now. */
  function FollowedUp(db: Db, id: TranId): Db
    requires id < |db.tran|
  {
    if db.tran[id].status == Sent then Followed(MarkTimedOut(db, id), id, TimedOut)
    else Followed(db, id, db.tran[id].status)
  }

  /** The batch followed up in order; an id no row has is skipped. */
  function Swept(db: Db, ids: seq<TranId>): Db {
    if ids == [] then db
    else
      var before := Swept(db, ids[..|ids| - 1]);
      var id := ids[|ids| - 1];
      if id < |before.tran| then FollowedUp(before, id) else before
  }

  /** A reversal of this row cannot be built: it has no STAN, so followUp fails. */
  predicate NeverSent(req: Request) {
    req.tranType != Balance && req.tranType != Completion && !EverSent(req)
  }

  /** A completion that does not name its pre-authorization is left to an operator. */
  predicate Unnamed(req: Request) {
    req.tranType == Completion && req.originalRrn == ""
  }

  /** The sweeper cannot queue anything for this row, and nothing is queued. */
  predicate Stuck(db: Db, id: TranId) {
    id < |db.tran| && !HasAdvice(db, id) && (NeverSent(db.tran[id].req) || Unnamed(db.tran[id].req))
  }

  lemma {:induction false} OrphansInOrder(db: Db, cutoff: int, from: TranId, limit: nat)
    ensures var ids := FirstOrphans(db, cutoff, from, limit);
            && |ids| <= limit
            && (forall k :: 0 <= k < |ids| ==> from <= ids[k] && IsOrphan(db, ids[k], cutoff))
            && (forall k, l :: 0 <= k < l < |ids| ==> ids[k] < ids[l])
    decreases |db.tran| - from
  {
    if from < |db.tran| && limit > 0 {
      if IsOrphan(db, from, cutoff) {
        OrphansInOrder(db, cutoff, from + 1, limit - 1);
      } else {
        OrphansInOrder(db, cutoff, from + 1, limit);
      }
    }
  }

  /** Only a full batch leaves an orphan out, and then a later one than all it has. */
  lemma {:induction false} OrphanLeftOut(db: Db, cutoff: int, from: TranId, limit: nat, id: TranId)
    requires from <= id && IsOrphan(db, id, cutoff) && id !in FirstOrphans(db, cutoff, from, limit)
    ensures var ids := FirstOrphans(db, cutoff, from, limit);
            |ids| == limit && forall k :: 0 <= k < |ids| ==> ids[k] < id
    decreases |db.tran| - from
  {
    if limit > 0 {
      if IsOrphan(db, from, cutoff) {
        var rest := FirstOrphans(db, cutoff, from + 1, limit - 1);
        assert ([from] + rest)[0] == from;
        assert forall k :: 0 <= k < |rest| ==> ([from] + rest)[k + 1] == rest[k];
        OrphanLeftOut(db, cutoff, from + 1, limit - 1, id);
      } else {
        OrphanLeftOut(db, cutoff, from + 1, limit, id);
      }
    }
  }

  /** What a follow-up does to other rows: nothing a sweep looks at. */
  lemma FollowUpIsLocal(db: Db, id: TranId, k: TranId)
    requires id < |db.tran| && k < |db.tran| && k != id
    ensures var after := FollowedUp(db, id);
            && |after.tran| == |db.tran| && after.tran[k] == db.tran[k]
            && (HasAdvice(after, k) <==> HasAdvice(db, k))
  {
    FollowUpAppends(db, id, k);
    AdvicesOfOthers(db, FollowedUp(db, id), id, k);
  }

  lemma FollowUpAppends(db: Db, id: TranId, k: TranId)
    requires id < |db.tran| && k < |db.tran| && k != id
    ensures var after := FollowedUp(db, id);
            && |after.tran| == |db.tran| && after.tran[k] == db.tran[k]
            && |db.saf| <= |after.saf| <= |db.saf| + 1 && after.saf[..|db.saf|] == db.saf
            && (|after.saf| > |db.saf| ==> after.saf[|db.saf|].tran == id)
  {
  }

  lemma AdvicesOfOthers(db: Db, after: Db, id: TranId, k: TranId)
    requires k != id && |db.saf| <= |after.saf| <= |db.saf| + 1 && after.saf[..|db.saf|] == db.saf
    requires |after.saf| > |db.saf| ==> after.saf[|db.saf|].tran == id
    ensures HasAdvice(after, k) <==> HasAdvice(db, k)
  {
    assert forall i :: 0 <= i < |db.saf| ==> after.saf[i] == db.saf[i];
  }

  /** A followed-up orphan is one no more, unless it is stuck. */
  lemma FollowUpOfOrphan(db: Db, id: TranId, cutoff: int)
    requires IsOrphan(db, id, cutoff)
    ensures |FollowedUp(db, id).tran| == |db.tran| && FollowedUp(db, id).tran[id].req == db.tran[id].req
    ensures IsOrphan(FollowedUp(db, id), id, cutoff) <==> Stuck(db, id)
    ensures Stuck(db, id) ==> FollowedUp(db, id).saf == db.saf
  {
    var after := FollowedUp(db, id);
    assert after.saf == db.saf || after.saf[|db.saf|].tran == id;
  }

  /** What is left after a sweep: the orphans outside the batch and the stuck ones in it. */
  lemma {:induction false} SweptOrphans(db: Db, ids: seq<TranId>, cutoff: int, k: TranId)
    requires forall i :: 0 <= i < |ids| ==> IsOrphan(db, ids[i], cutoff)
    requires forall i, j :: 0 <= i < j < |ids| ==> ids[i] < ids[j]
    ensures |Swept(db, ids).tran| == |db.tran|
    ensures IsOrphan(Swept(db, ids), k, cutoff) <==> IsOrphan(db, k, cutoff) && (k !in ids || Stuck(db, k))
    ensures k < |db.tran| ==> Swept(db, ids).tran[k].req == db.tran[k].req
    ensures k < |db.tran| && k !in ids ==>
              Swept(db, ids).tran[k] == db.tran[k] && (HasAdvice(Swept(db, ids), k) <==> HasAdvice(db, k))
    decreases |ids|
  {
    if ids != [] {
      var most, id := ids[..|ids| - 1], ids[|ids| - 1];
      var before := Swept(db, most);
      assert forall j :: j in ids <==> j in most || j == id;
      SweptOrphans(db, most, cutoff, k);
      SweptOrphans(db, most, cutoff, id);
      assert id !in most;
      if k == id {
        FollowUpOfOrphan(before, id, cutoff);
      } else if k < |db.tran| {
        FollowUpIsLocal(before, id, k);
      } else {
        FollowUpOfOrphan(before, id, cutoff);
      }
    }
  }

  function Orphans(db: Db, cutoff: int): set<TranId> {
    set id: TranId | id < |db.tran| && IsOrphan(db, id, cutoff)
  }

  function Batch(db: Db, cutoff: int): seq<TranId> {
    FirstOrphans(db, cutoff, 0, SWEEP_BATCH)
  }

  function SweptOnce(db: Db, cutoff: int): Db {
    Swept(db, Batch(db, cutoff))
  }

  // What a sweep writes.

  /** The advice an orphan is owed: a 0420 for its time-out or its bad MAC, a completion's 0220 again, or none. */
  function OwedBy(id: TranId, row: Tran): seq<Saf> {
    match row.req.tranType
    case Balance => []
    case Completion =>
      if row.req.originalRrn == "" || row.req.sentAt.None? then []
      else [NewAdvice(id, Completion0220, CompletionAdvice(row.req), "")]
    case _ =>
      if !EverSent(row.req) then []
      else [NewAdvice(id, Reversal0420, ReversalAdvice(row.req, if row.status == Declined then "06" else "68"), row.req.cardToken)]
  }

  /** Its state after: on its way to be reversed, or an unknown outcome. */
  function RowSwept(row: Tran): Tran {
    if row.req.tranType != Balance && row.req.tranType != Completion && EverSent(row.req) then row.(status := ReversalPending)
    else if row.status == Sent then row.(status := TimedOut)
    else row
  }

  lemma FollowUpTells(db: Db, id: TranId)
    requires id < |db.tran| && OrphanShape(db, id)
    ensures FollowedUp(db, id).tran == db.tran[id := RowSwept(db.tran[id])]
    ensures FollowedUp(db, id).saf == db.saf + OwedBy(id, db.tran[id])
  {
    var row := db.tran[id];
    if row.status == Sent {
      var timed := MarkTimedOut(db, id);
      assert timed.tran == db.tran[id := row.(status := TimedOut)] && timed.saf == db.saf;
      FollowedTells(timed, id, TimedOut);
    } else {
      FollowedTells(db, id, row.status);
    }
  }

  lemma FollowedTells(db: Db, id: TranId, status: Status)
    requires id < |db.tran| && db.tran[id].status == status && (status == TimedOut || status == Declined)
    requires status == Declined ==> db.tran[id].req.tranType != Balance && db.tran[id].req.tranType != Completion
    ensures Followed(db, id, status).tran == db.tran[id := RowSwept(db.tran[id])]
    ensures Followed(db, id, status).saf == db.saf + OwedBy(id, db.tran[id])
  {
    var req := db.tran[id].req;
    if req.tranType == Completion && req.sentAt.Some? {
      CompletionKeys(req, "");
      PlainIsStored(CompletionAdvice(req));
    }
  }

  lemma PlainIsStored(message: Elements)
    requires message.Keys == COMPLETION_ELEMENTS
    ensures message - NOT_STORED == message
  {
    StoredAlike(message, message);
  }

  function OwedByAll(db: Db, ids: seq<TranId>): seq<Saf> {
    if ids == [] then []
    else
      var id := ids[|ids| - 1];
      OwedByAll(db, ids[..|ids| - 1]) + (if id < |db.tran| then OwedBy(id, db.tran[id]) else [])
  }

  /** Each orphan of the batch gets what it is owed, in order, and no other row or advice changes. */
  lemma {:induction false} SweptTells(db: Db, ids: seq<TranId>, cutoff: int)
    requires forall i :: 0 <= i < |ids| ==> IsOrphan(db, ids[i], cutoff)
    requires forall i, j :: 0 <= i < j < |ids| ==> ids[i] < ids[j]
    ensures |Swept(db, ids).tran| == |db.tran|
    ensures forall k: TranId :: k < |db.tran| ==> Swept(db, ids).tran[k] == if k in ids then RowSwept(db.tran[k]) else db.tran[k]
    ensures Swept(db, ids).saf == db.saf + OwedByAll(db, ids)
    decreases |ids|
  {
    if ids != [] {
      var most, id := ids[..|ids| - 1], ids[|ids| - 1];
      SweptTells(db, most, cutoff);
      SweptOrphans(db, most, cutoff, id);
      assert id !in most && forall k :: k in ids <==> k in most || k == id;
      LastTells(db, Swept(db, most), most, ids, id);
    }
  }

  /** The last orphan of a batch after the others. */
  lemma LastTells(db: Db, mid: Db, most: seq<TranId>, ids: seq<TranId>, id: TranId)
    requires id < |db.tran| == |mid.tran| && id !in most && OrphanShape(mid, id)
    requires ids != [] && most == ids[..|ids| - 1] && ids[|ids| - 1] == id && forall k :: k in ids <==> k in most || k == id
    requires forall k: TranId :: k < |db.tran| ==> mid.tran[k] == if k in most then RowSwept(db.tran[k]) else db.tran[k]
    requires mid.saf == db.saf + OwedByAll(db, most)
    ensures |FollowedUp(mid, id).tran| == |db.tran|
    ensures forall k: TranId :: k < |db.tran| ==> FollowedUp(mid, id).tran[k] == if k in ids then RowSwept(db.tran[k]) else db.tran[k]
    ensures FollowedUp(mid, id).saf == db.saf + OwedByAll(db, ids)
  {
    FollowUpTells(mid, id);
  }

  /** So one sweep writes exactly what its batch is owed. */
  lemma SweepTells(db: Db, cutoff: int)
    ensures |SweptOnce(db, cutoff).tran| == |db.tran|
    ensures forall k: TranId :: k < |db.tran| ==>
              SweptOnce(db, cutoff).tran[k] == if k in Batch(db, cutoff) then RowSwept(db.tran[k]) else db.tran[k]
    ensures SweptOnce(db, cutoff).saf == db.saf + OwedByAll(db, Batch(db, cutoff))
  {
    OrphansInOrder(db, cutoff, 0, SWEEP_BATCH);
    SweptTells(db, Batch(db, cutoff), cutoff);
  }

  /** A sweep loses exactly the orphans of its batch that are not stuck, and makes none. */
  lemma SweepLeaves(db: Db, cutoff: int)
    ensures Orphans(SweptOnce(db, cutoff), cutoff) ==
            Orphans(db, cutoff) - set id | id in Batch(db, cutoff) && !Stuck(db, id)
  {
    OrphansInOrder(db, cutoff, 0, SWEEP_BATCH);
    forall k: TranId
      ensures IsOrphan(SweptOnce(db, cutoff), k, cutoff) <==> IsOrphan(db, k, cutoff) && (k !in Batch(db, cutoff) || Stuck(db, k))
    {
      SweptOrphans(db, Batch(db, cutoff), cutoff, k);
    }
    SweptOrphans(db, Batch(db, cutoff), cutoff, 0);
  }

  /** A sweep makes progress exactly when one of the first 50 orphans is not stuck. */
  lemma SweepShrinks(db: Db, cutoff: int)
    ensures Orphans(SweptOnce(db, cutoff), cutoff) < Orphans(db, cutoff) <==>
            exists id :: id in Batch(db, cutoff) && !Stuck(db, id)
  {
    SweepLeaves(db, cutoff);
    OrphansInOrder(db, cutoff, 0, SWEEP_BATCH);
    forall id | id in Batch(db, cutoff) ensures id in Orphans(db, cutoff) {
      var k :| 0 <= k < |Batch(db, cutoff)| && Batch(db, cutoff)[k] == id;
    }
  }

  /** When nothing fails, that is a row that names what it repeats, or one that has an advice already. */
  lemma CleanSweepShrinks(db: Db, cutoff: int)
    requires Failures(db, Batch(db, cutoff)) == 0
    ensures Orphans(SweptOnce(db, cutoff), cutoff) < Orphans(db, cutoff) <==>
            exists id :: id in Batch(db, cutoff) && id < |db.tran| && (!Unnamed(db.tran[id].req) || HasAdvice(db, id))
  {
    SweepShrinks(db, cutoff);
    OrphansInOrder(db, cutoff, 0, SWEEP_BATCH);
    var batch := Batch(db, cutoff);
    forall id | id in batch ensures id < |db.tran| && !NeverSent(db.tran[id].req) {
      var k :| 0 <= k < |batch| && batch[k] == id;
      assert IsOrphan(db, batch[k], cutoff);
      NoFailures(db, batch, k);
    }
  }

  // Tables with no stuck orphan.

  ghost predicate NoneStuck(db: Db, cutoff: int) {
    forall id :: id in Orphans(db, cutoff) ==> !Stuck(db, id)
  }

  lemma BatchIsOrphans(db: Db, cutoff: int)
    ensures forall id :: id in Batch(db, cutoff) ==> id in Orphans(db, cutoff)
    ensures Orphans(db, cutoff) != {} ==> Batch(db, cutoff) != []
  {
    OrphansInOrder(db, cutoff, 0, SWEEP_BATCH);
    var batch := Batch(db, cutoff);
    forall id | id in batch ensures id in Orphans(db, cutoff) {
      var k :| 0 <= k < |batch| && batch[k] == id;
      assert IsOrphan(db, batch[k], cutoff);
    }
    if Orphans(db, cutoff) != {} {
      var id :| id in Orphans(db, cutoff);
      if id !in batch {
        OrphanLeftOut(db, cutoff, 0, SWEEP_BATCH, id);
      }
    }
  }

  /** A sweep sticks nothing, and strictly shrinks what is left to do. */
  lemma SweepUnsticks(db: Db, cutoff: int)
    requires NoneStuck(db, cutoff)
    ensures NoneStuck(SweptOnce(db, cutoff), cutoff)
    ensures Orphans(db, cutoff) != {} ==> Orphans(SweptOnce(db, cutoff), cutoff) < Orphans(db, cutoff)
    ensures Orphans(SweptOnce(db, cutoff), cutoff) <= Orphans(db, cutoff)
  {
    SweepLeaves(db, cutoff);
    BatchIsOrphans(db, cutoff);
    OrphansInOrder(db, cutoff, 0, SWEEP_BATCH);
    var after := SweptOnce(db, cutoff);
    forall id | id in Orphans(after, cutoff) ensures !Stuck(after, id) {
      assert id in Orphans(db, cutoff) && id !in Batch(db, cutoff);
      SweptOrphans(db, Batch(db, cutoff), cutoff, id);
    }
    if Orphans(db, cutoff) != {} {
      assert Batch(db, cutoff)[0] in Batch(db, cutoff);
      SweepShrinks(db, cutoff);
    }
  }

  function SweptTimes(db: Db, cutoff: int, n: nat): Db
    decreases n
  {
    if n == 0 then db else SweptTimes(SweptOnce(db, cutoff), cutoff, n - 1)
  }

  lemma SweepTakesOne(db: Db, after: Db, cutoff: int, n: nat)
    requires NoneStuck(db, cutoff) && |Orphans(db, cutoff)| <= n && n > 0 && after == SweptOnce(db, cutoff)
    ensures |Orphans(after, cutoff)| <= n - 1
  {
    SweepUnsticks(db, cutoff);
    if Orphans(db, cutoff) != {} {
      Fewer(Orphans(after, cutoff), Orphans(db, cutoff));
    } else {
      assert Orphans(after, cutoff) == {};
    }
  }

  /** Such tables are drained by as many sweeps as there are orphans. */
  lemma {:induction false} SweepsDrain(db: Db, cutoff: int, n: nat)
    requires NoneStuck(db, cutoff) && |Orphans(db, cutoff)| <= n
    ensures Orphans(SweptTimes(db, cutoff, n), cutoff) == {}
    decreases n
  {
    if n > 0 {
      SweepUnsticks(db, cutoff);
      SweepTakesOne(db, SweptOnce(db, cutoff), cutoff, n);
      SweepsDrain(SweptOnce(db, cutoff), cutoff, n - 1);
    }
  }

  lemma Fewer(a: set<TranId>, b: set<TranId>)
    requires a < b
    ensures |a| < |b|
  {
    var rest := b - a;
    assert b == a + rest && rest != {};
  }

  /** Fifty stuck orphans in front stop every later sweep: the promise fails, with or without other orphans. */
  lemma StuckBatchStaysStuck(db: Db, cutoff: int)
    requires forall id :: id in Batch(db, cutoff) ==> Stuck(db, id)
    ensures Orphans(SweptOnce(db, cutoff), cutoff) == Orphans(db, cutoff)
  {
    SweepLeaves(db, cutoff);
  }

  /** Such a table: one SENT completion from before original_rrn existed. */
  lemma StuckExample()
    ensures exists db: Db, cutoff: int :: Orphans(db, cutoff) != {} && forall id :: id in Batch(db, cutoff) ==> Stuck(db, id)
  {
    var sent := Some(Moment(0, "0101000000", "000000", "0101"));
    var req := Request(Completion, "0220", "1", "000000", 1, "704", "T", "M", "021", "000001", sent, "0101", "", None, "");
    var db := Db([Tran(req, Sent, "", None)], []);
    assert IsOrphan(db, 0, 1) && 0 in Orphans(db, 1);
    OrphansInOrder(db, 1, 0, SWEEP_BATCH);
    forall id | id in Batch(db, 1) ensures Stuck(db, id) {
      assert IsOrphan(db, id, 1);
    }
  }

  /** How many of the rows fail to get their follow-up. */
  function Failures(db: Db, ids: seq<TranId>): nat {
    if ids == [] then 0
    else
      var id := ids[|ids| - 1];
      Failures(db, ids[..|ids| - 1]) + (if id < |db.tran| && NeverSent(db.tran[id].req) then 1 else 0)
  }

  lemma {:induction false} NoFailures(db: Db, ids: seq<TranId>, k: nat)
    requires Failures(db, ids) == 0 && k < |ids| && ids[k] < |db.tran|
    ensures !NeverSent(db.tran[ids[k]].req)
  {
    if k < |ids| - 1 {
      NoFailures(db, ids[..|ids| - 1], k);
    }
  }

  // The sweep in place.

  method FindOrphans(t: Database, cutoff: int, limit: nat) returns (orphans: seq<TranId>)
    ensures orphans == FirstOrphans(t.Contents(), cutoff, 0, limit)
  {
    orphans := [];
    var id := 0;
    while id < |t.tran| && |orphans| < limit
      invariant id <= |t.tran| && |orphans| <= limit
      invariant FirstOrphans(t.Contents(), cutoff, 0, limit) == orphans + FirstOrphans(t.Contents(), cutoff, id, limit - |orphans|)
    {
      if IsOrphan(Db(t.tran, t.saf), id, cutoff) {
        orphans := orphans + [id];
      }
      id := id + 1;
    }
  }

  /** How a follow-up's two writes fare, and what the others do before each of them. */
  datatype Meets = Meets(timed: Fault, queued: Fault, others: World)

  ghost predicate Undisturbed(m: Meets) {
    m.timed == Fine && m.queued == Fine && Silent(m.others)
  }

  /** The sweeper still has this to do. */
  ghost predicate Owes(s: State, id: TranId, status: Status) {
    Task(id, status) in s.tasks && id < |s.db.tran|
  }

  /** What else it had to do, it still has. */
  ghost predicate OwesOthers(s: State, s': State, id: TranId) {
    forall task :: task in s.tasks && task.id != id ==> task in s'.tasks
  }

  method Turn(t: Database, steps: seq<Step>, ghost start: State, s: State) returns (s': State)
    requires Leads(start, s) && t.Contents() == s.db
    modifies t
    ensures Leads(start, s') && t.Contents() == s'.db && TasksKept(s, s')
    ensures steps == [] ==> s' == s
  {
    s' := Meanwhile(t, steps, OfSweeper, start, s);
    OthersKeepTasks(s, steps);
  }

  lemma SweepStepLeads(start: State, s: State, step: SweepStep)
    requires Leads(start, s)
    ensures Leads(start, ApplySweep(s, step))
  {
    LeadsOn(start, s, OfSweep(step));
  }

  /** followUp of an orphan that was read with this status; ok is false when it failed. */
  method FollowUp(t: Database, id: TranId, status: Status, m: Meets, ghost start: State, s: State) returns (ok: bool, s': State)
    requires Leads(start, s) && t.Contents() == s.db && Owes(s, id, status) && status in {Sent, TimedOut, Declined}
    modifies t
    ensures Leads(start, s') && t.Contents() == s'.db && |s.db.tran| <= |s'.db.tran| && OwesOthers(s, s', id)
    ensures Undisturbed(m) && old(t.tran[id].status) == status && OrphanShape(old(t.Contents()), id) ==>
              t.Contents() == FollowedUp(old(t.Contents()), id) && (ok <==> !NeverSent(old(t.tran[id].req)))
  {
    s' := s;
    if status == Sent {
      s' := Turn(t, m.others(0), start, s');
      if m.timed == Lost {
        return false, s';
      }
      SweepStepLeads(start, s', TimeOut(id));
      var moved := t.TimeOut(id);
      s' := DoTimeOut(s', id);
      if m.timed == Unsure || !moved {
        return m.timed != Unsure, s';
      }
    }
    ok, s' := QueueFollowUp(t, id, if status == Declined then Declined else TimedOut, m, start, s');
  }

  /** The second half: what the row owes once it is TIMED_OUT, or was DECLINED for its MAC. */
  method QueueFollowUp(t: Database, id: TranId, status: Status, m: Meets, ghost start: State, s: State) returns (ok: bool, s': State)
    requires Leads(start, s) && t.Contents() == s.db && Owes(s, id, status) && (status == TimedOut || status == Declined)
    modifies t
    ensures Leads(start, s') && t.Contents() == s'.db && |s.db.tran| <= |s'.db.tran| && OwesOthers(s, s', id)
    ensures Undisturbed(m) ==> t.Contents() == Followed(old(t.Contents()), id, status)
    ensures Undisturbed(m) && old(t.tran[id].status) == status && old(t.tran[id].req.sentAt.Some?) && old(t.tran[id].req.tranType) != Balance
            && (status == Declined ==> old(t.tran[id].req.tranType) != Completion) ==>
              (ok <==> !NeverSent(old(t.tran[id].req)))
    ensures old(t.tran[id].req.tranType) == Balance && status == TimedOut && Undisturbed(m) ==> ok
  {
    s' := Turn(t, m.others(1), start, s);
    if m.queued == Lost {
      return false, s';
    }
    SweepStepLeads(start, s', Follow(id, status));
    ok := QueueOwed(t, id, status);
    ok := ok && m.queued == Fine;
    s' := DoFollow(s', id, status);
  }

  /** The statement itself: a 0420, a repeat, or nothing. */
  method QueueOwed(t: Database, id: TranId, status: Status) returns (ok: bool)
    requires id < |t.tran| && (status == TimedOut || status == Declined)
    modifies t
    ensures t.Contents() == Followed(old(t.Contents()), id, status)
    ensures status == TimedOut && old(t.tran[id].req.tranType) in {Balance, Completion} ==> ok
    ensures status == Declined || old(t.tran[id].req.tranType) !in {Balance, Completion} ==>
              (ok <==> CanReverse(old(t.Contents()), id, status))
  {
    ok := true;
    var req := t.tran[id].req;
    if status == Declined {
      ok := t.Queue(id, Declined, REASON_MAC_FAILURE);
    } else {
      match req.tranType
      case Balance =>
      case Completion =>
        if req.originalRrn != "" && req.sentAt.Some? {
          t.RepeatAdvice(id, CompletionAdvice(req));
        }
      case _ =>
        ok := t.Queue(id, TimedOut, REASON_TIMEOUT);
    }
  }

  /** A batch as it was read: each orphan with its status. */
  ghost predicate Snapshot(db: Db, ids: seq<TranId>, statuses: seq<Status>) {
    && |statuses| == |ids|
    && (forall k :: 0 <= k < |ids| ==> ids[k] < |db.tran| && statuses[k] == db.tran[ids[k]].status && statuses[k] in {Sent, TimedOut, Declined})
  }

  /**
   SweepOnce: every orphan of the batch is attempted; the failures are counted, not fatal. Whatever
   fails and whoever interferes, it is a run; undisturbed, it is SweptOnce.
   */
  method SweepOnce(t: Database, cutoff: int, meets: nat -> Meets, ghost start: State, s: State) returns (errs: nat, s': State)
    requires Leads(start, s) && t.Contents() == s.db
    modifies t
    ensures Leads(start, s') && t.Contents() == s'.db
    ensures (forall n: nat :: Undisturbed(meets(n))) ==>
              && t.Contents() == SweptOnce(old(t.Contents()), cutoff)
              && errs == Failures(old(t.Contents()), Batch(old(t.Contents()), cutoff))
  {
    OrphansInOrder(t.Contents(), cutoff, 0, SWEEP_BATCH);
    var orphans := FindOrphans(t, cutoff, SWEEP_BATCH);
    var statuses := seq(|orphans|, k requires 0 <= k < |orphans| && orphans[k] < |t.tran| reads t => t.tran[orphans[k]].status);
    s' := Read(orphans, statuses, cutoff, start, s);
    errs, s' := FollowAll(t, orphans, statuses, cutoff, meets, t.Contents(), start, s');
  }

  /** The batch as it was read, in a table of that time. */
  ghost predicate Found(db: Db, ids: seq<TranId>, statuses: seq<Status>, cutoff: int) {
    && Snapshot(db, ids, statuses)
    && (forall k :: 0 <= k < |ids| ==> IsOrphan(db, ids[k], cutoff))
    && (forall k, l :: 0 <= k < l < |ids| ==> ids[k] < ids[l])
  }

  method FollowAll(t: Database, ids: seq<TranId>, statuses: seq<Status>, cutoff: int, meets: nat -> Meets,
                   ghost was: Db, ghost start: State, s: State) returns (errs: nat, s': State)
    requires Leads(start, s) && t.Contents() == s.db == was && Found(was, ids, statuses, cutoff)
    requires forall k :: 0 <= k < |ids| ==> Task(ids[k], statuses[k]) in s.tasks
    modifies t
    ensures Leads(start, s') && t.Contents() == s'.db
    ensures (forall n: nat :: Undisturbed(meets(n))) ==> t.Contents() == Swept(was, ids) && errs == Failures(was, ids)
  {
    ghost var calm := forall n: nat :: Undisturbed(meets(n));
    errs, s' := 0, s;
    var i := 0;
    while i < |ids|
      invariant i <= |ids| && Leads(start, s') && t.Contents() == s'.db && |was.tran| <= |s'.db.tran|
      invariant forall k :: i <= k < |ids| ==> Task(ids[k], statuses[k]) in s'.tasks
      invariant calm ==> t.Contents() == Swept(was, ids[..i]) && errs == Failures(was, ids[..i])
    {
      NextSwept(was, ids, statuses, cutoff, i);
      var ok;
      ok, s' := FollowUp(t, ids[i], statuses[i], meets(i), start, s');
      errs := if ok then errs else errs + 1;
      i := i + 1;
    }
    assert ids[..i] == ids;
  }

  /** Undisturbed, the next orphan is still as it was read, and following it up is the next of the sweep. */
  lemma NextSwept(was: Db, ids: seq<TranId>, statuses: seq<Status>, cutoff: int, i: nat)
    requires Found(was, ids, statuses, cutoff) && i < |ids|
    ensures var now := Swept(was, ids[..i]);
            && ids[i] < |now.tran| && now.tran[ids[i]].status == statuses[i] && now.tran[ids[i]].req == was.tran[ids[i]].req
            && OrphanShape(now, ids[i]) && Swept(was, ids[..i + 1]) == FollowedUp(now, ids[i])
    ensures Failures(was, ids[..i + 1]) == Failures(was, ids[..i]) + if NeverSent(was.tran[ids[i]].req) then 1 else 0
  {
    assert ids[..i + 1][..i] == ids[..i];
    SweptOrphans(was, ids[..i], cutoff, ids[i]);
  }

  /** FindOrphans as a step: the sweeper now owes every orphan it read. */
  method Read(orphans: seq<TranId>, statuses: seq<Status>, cutoff: int, ghost start: State, s: State) returns (s': State)
    requires Leads(start, s) && Snapshot(s.db, orphans, statuses)
    requires forall k :: 0 <= k < |orphans| ==> IsOrphan(s.db, orphans[k], cutoff)
    ensures Leads(start, s') && s'.db == s.db
    ensures forall k :: 0 <= k < |orphans| ==> Task(orphans[k], statuses[k]) in s'.tasks
  {
    var ids := set id | id in orphans;
    LeadsOn(start, s, OfSweep(Find(cutoff, ids)));
    s' := DoFind(s, cutoff, ids);
    forall k | 0 <= k < |orphans| ensures Task(orphans[k], statuses[k]) in s'.tasks {
      assert orphans[k] in ids;
    }
  }

  // A sweep is one of the gateway's runs, so all that holds of every run holds of it.

  lemma FollowUpLeads(start: State, s: State, id: TranId, cutoff: int) returns (s': State)
    requires Leads(start, s) && IsOrphan(s.db, id, cutoff)
    ensures Leads(start, s') && s'.db == FollowedUp(s.db, id) && s'.worker == s.worker && s'.wire == s.wire
  {
    var status := s.db.tran[id].status;
    var found := DoFind(s, cutoff, {id});
    LeadsOn(start, s, OfSweep(Find(cutoff, {id})));
    assert Task(id, status) in found.tasks;
    if status == Sent {
      var timedOut := DoTimeOut(found, id);
      LeadsOn(start, found, OfSweep(TimeOut(id)));
      assert Task(id, TimedOut) in timedOut.tasks;
      s' := DoFollow(timedOut, id, TimedOut);
      LeadsOn(start, timedOut, OfSweep(Follow(id, TimedOut)));
    } else {
      s' := DoFollow(found, id, status);
      LeadsOn(start, found, OfSweep(Follow(id, status)));
    }
  }

  lemma {:induction false} SweptLeads(s: State, ids: seq<TranId>, cutoff: int) returns (s': State)
    requires forall i :: 0 <= i < |ids| ==> IsOrphan(s.db, ids[i], cutoff)
    requires forall i, j :: 0 <= i < j < |ids| ==> ids[i] < ids[j]
    ensures Leads(s, s') && s'.db == Swept(s.db, ids)
    decreases |ids|
  {
    LeadsHere(s);
    s' := s;
    if ids != [] {
      var most, id := ids[..|ids| - 1], ids[|ids| - 1];
      s' := SweptLeads(s, most, cutoff);
      SweptOrphans(s.db, most, cutoff, id);
      s' := FollowUpLeads(s, s', id, cutoff);
    }
  }

  lemma SweepIsARun(s: State, cutoff: int) returns (s': State)
    ensures Leads(s, s') && s'.db == SweptOnce(s.db, cutoff)
  {
    OrphansInOrder(s.db, cutoff, 0, SWEEP_BATCH);
    s' := SweptLeads(s, Batch(s.db, cutoff), cutoff);
  }

  // Every state the gateway reaches.

  lemma ReachedNoneStuck(steps: seq<Step>, cutoff: int)
    ensures NoneStuck(Run(steps).db, cutoff)
  {
    WrittenAfter(Init(), steps);
  }

  /** In every state the gateway reaches, a sweep strictly shrinks a non-empty set of orphans, and none fails. */
  lemma EverySweepShrinks(steps: seq<Step>, cutoff: int)
    ensures var db := Run(steps).db;
            && (Orphans(db, cutoff) != {} ==> Orphans(SweptOnce(db, cutoff), cutoff) < Orphans(db, cutoff))
            && Failures(db, Batch(db, cutoff)) == 0
  {
    ReachedNoneStuck(steps, cutoff);
    SweepUnsticks(Run(steps).db, cutoff);
    WrittenAfter(Init(), steps);
    OrphansInOrder(Run(steps).db, cutoff, 0, SWEEP_BATCH);
    NoneFail(Run(steps).db, Batch(Run(steps).db, cutoff), cutoff);
  }

  lemma {:induction false} NoneFail(db: Db, ids: seq<TranId>, cutoff: int)
    requires AllWellWritten(db) && forall k :: 0 <= k < |ids| ==> IsOrphan(db, ids[k], cutoff)
    ensures Failures(db, ids) == 0
    decreases |ids|
  {
    if ids != [] {
      NoneFail(db, ids[..|ids| - 1], cutoff);
      assert IsOrphan(db, ids[|ids| - 1], cutoff);
    }
  }

  /** And as many sweeps as there are orphans leave none. */
  lemma EveryRunDrains(steps: seq<Step>, cutoff: int)
    ensures var db := Run(steps).db;
            Orphans(SweptTimes(db, cutoff, |Orphans(db, cutoff)|), cutoff) == {}
  {
    ReachedNoneStuck(steps, cutoff);
    SweepsDrain(Run(steps).db, cutoff, |Orphans(Run(steps).db, cutoff)|);
  }
}

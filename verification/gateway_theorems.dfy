/**
 What the gateway's invariant means: the promises about reversals, unknown outcomes and advices, each
 for every run and, where it says "for ever", for every way the run goes on.
 */
module GatewayTheorems {
  import opened Store
  import opened Gateway
  import opened GatewayProofs

  // Reversals.

  /** REVERSAL_PENDING is having an un-ACKED 0420, REVERSED is having an ACKED one, and there is one at most. */
  lemma OneReversalEach(steps: seq<Step>, id: TranId)
    requires id < |Run(steps).db.tran|
    ensures var db := Run(steps).db;
            && (db.tran[id].status == ReversalPending <==> exists i: SafId :: IsReversal(db, i, id) && db.saf[i].status != Acked)
            && (db.tran[id].status == Reversed <==> exists i: SafId :: IsReversal(db, i, id) && db.saf[i].status == Acked)
            && (forall i: SafId, j: SafId :: IsReversal(db, i, id) && IsReversal(db, j, id) ==> i == j)
  {
    Always(steps);
    var db := Run(steps).db;
    if Unwound(db.tran[id].status) {
      var i: SafId :| IsReversal(db, i, id);
    }
  }

  /** Queued advices stay with their transaction; what is named or ACKED stays so; what was sent stays sent. */
  ghost predicate Grows(s: State, s': State) {
    && |s.db.saf| <= |s'.db.saf|
    && (forall i: SafId :: i < |s.db.saf| ==> AdviceGrows(s.db.saf[i], s'.db.saf[i]))
    && s.wire <= s'.wire
  }

  ghost predicate AdviceGrows(row: Saf, after: Saf) {
    && after.tran == row.tran && after.advice == row.advice && after.cardToken == row.cardToken
    && after.maxAttempts == row.maxAttempts
    && (row.status == Acked ==> after == row)
    && (Stan(row.fields) != "" ==> after.fields == row.fields)
  }

  lemma FetchGrows(s: State, ids: seq<SafId>)
    ensures Grows(s, DoFetch(s, ids)) && |DoFetch(s, ids).db.saf| == |s.db.saf|
  {
    assert Claimables(s.db, ids) ==> forall i: SafId :: i in ids ==> Claimable(s.db.saf[i]);
  }

  /** The worker's statements on one advice that is not ACKED. */
  lemma RowGrows(s: State, s': State, i: SafId, row: Saf)
    requires i < |s.db.saf| && s.db.saf[i].status != Acked && s'.db.saf == s.db.saf[i := row] && s.wire <= s'.wire
    requires AdviceGrows(s.db.saf[i], row)
    ensures Grows(s, s') && |s'.db.saf| == |s.db.saf|
  {
  }

  lemma AckedSaf(db: Db, i: SafId)
    requires i < |db.saf| && db.saf[i].tran < |db.tran|
    ensures MarkAcked(db, i).saf == db.saf[i := db.saf[i].(status := Acked)]
  {
  }

  lemma ConcludeGrows(s: State)
    requires Invariant(s) && Working(s)
    ensures Grows(s, DoConclude(s)) && |DoConclude(s).db.saf| == |s.db.saf|
  {
    assert ClaimFits(s, 0);
    if s.worker.stage.Replied? {
      var i, row, reply := s.worker.batch[0].id, s.worker.batch[0].row, s.worker.stage.reply;
      var now, s' := s.db.saf[i], DoConclude(s);
      AckedSaf(s.db, i);
      if reply.Reply? && reply.rc == RC_LINK_DOWN {
        RowGrows(s, s', i, now.(status := InFlight, attempts := row.attempts));
      } else if reply.Reply? && reply.rc == RC_APPROVED && reply.macOk {
        RowGrows(s, s', i, now.(status := Acked));
      } else if row.attempts + 1 >= row.maxAttempts {
        RowGrows(s, s', i, now.(status := Dead));
      } else {
        RowGrows(s, s', i, now.(status := InFlight, attempts := row.attempts + 1));
      }
    }
  }

  lemma WorkerGrows(s: State, step: WorkerStep)
    requires Invariant(s)
    ensures Grows(s, ApplyWorker(s, step)) && |ApplyWorker(s, step).db.saf| == |s.db.saf|
  {
    if step.Fetch? {
      FetchGrows(s, step.ids);
    } else if Working(s) {
      assert ClaimFits(s, 0);
      var i := s.worker.batch[0].id;
      match step
      case Conclude => ConcludeGrows(s);
      case Name(stan, de7) => RowGrows(s, DoName(s, stan, de7), i, DoName(s, stan, de7).db.saf[i]);
      case FrameFails => RowGrows(s, DoFrameFails(s), i, DoFrameFails(s).db.saf[i]);
      case Deliver(refused) => RowGrows(s, DoDeliver(s, refused), i, DoDeliver(s, refused).db.saf[i]);
      case Hear(reply) => RowGrows(s, DoHear(s, reply), i, s.db.saf[i]);
      case Skip => RowGrows(s, Next(s), i, s.db.saf[i]);
    }
  }

  lemma StepGrows(s: State, step: Step)
    requires Invariant(s)
    ensures Grows(s, Apply(s, step))
  {
    match step
    case OfRequest(r) => RequestOnlyAppends(s, r);
    case OfSweep(w) => SweepOnlyAppends(s, w);
    case OfWorker(d) => WorkerGrows(s, d);
    case Crash =>
  }

  lemma {:induction false} AfterGrows(s: State, steps: seq<Step>)
    requires Invariant(s)
    ensures Grows(s, After(s, steps))
    decreases |steps|
  {
    if steps != [] {
      var next := Apply(s, steps[0]);
      StepKeeps(s, steps[0]);
      StepGrows(s, steps[0]);
      AfterGrows(next, steps[1..]);
      GrowsThen(s, next, After(s, steps));
    }
  }

  lemma GrowsThen(a: State, b: State, c: State)
    requires Grows(a, b) && Grows(b, c)
    ensures Grows(a, c)
  {
    forall i: SafId | i < |a.db.saf| ensures AdviceGrows(a.db.saf[i], c.db.saf[i]) {
      assert AdviceGrows(a.db.saf[i], b.db.saf[i]) && AdviceGrows(b.db.saf[i], c.db.saf[i]);
    }
  }

  /** REVERSED has no exit, and a transaction that is being reversed can only end REVERSED. */
  lemma UnwoundForEver(steps: seq<Step>, more: seq<Step>, id: TranId)
    requires id < |Run(steps).db.tran| && Unwound(Run(steps).db.tran[id].status)
    ensures id < |After(Run(steps), more).db.tran|
    ensures var later, now := After(Run(steps), more).db.tran[id].status, Run(steps).db.tran[id].status;
            Unwound(later) && (now == Reversed ==> later == Reversed)
  {
    var s, s' := Run(steps), After(Run(steps), more);
    Always(steps);
    AlwaysAfter(s, more);
    AfterGrows(s, more);
    var i: SafId :| IsReversal(s.db, i, id);
    assert AdviceGrows(s.db.saf[i], s'.db.saf[i]);
    assert IsReversal(s'.db, i, id);
  }

  // Unknown outcomes.

  /**
   A request that may be at the issuer without a recorded verified answer has an advice queued, or
   FindOrphans finds it once it is older than the cutoff.
   */
  lemma NothingIsForgotten(steps: seq<Step>, id: TranId, cutoff: int)
    requires id in Run(steps).reached && id !in Run(steps).settled
    ensures var db := Run(steps).db;
            && id < |db.tran| && db.tran[id].req.sentAt.Some?
            && (db.tran[id].req.tranType != Balance && db.tran[id].req.sentAt.value.at < cutoff ==>
                  HasAdvice(db, id) || IsOrphan(db, id, cutoff))
  {
    Always(steps);
    var s := Run(steps);
    assert Exposed(s, id) && ReachedFits(s, id);
  }

  /** A queued advice is never dropped. */
  lemma AdviceForEver(steps: seq<Step>, more: seq<Step>, id: TranId)
    requires HasAdvice(Run(steps).db, id)
    ensures HasAdvice(After(Run(steps), more).db, id)
  {
    var s, s' := Run(steps), After(Run(steps), more);
    Always(steps);
    AfterGrows(s, more);
    var i: SafId :| i < |s.db.saf| && s.db.saf[i].tran == id;
    assert AdviceGrows(s.db.saf[i], s'.db.saf[i]);
  }

  // Advices on the wire.

  /** All sends of one advice carry the same elements; the plain message can only be the first of them. */
  lemma SendsAreAlike(steps: seq<Step>, i: nat, j: nat)
    requires i < j < |Run(steps).wire| && Run(steps).wire[i].id == Run(steps).wire[j].id
    ensures var wire := Run(steps).wire;
            && wire[i].elements == wire[j].elements && wire[i].cardToken == wire[j].cardToken
            && Stan(wire[i].elements) != "" && wire[j].repeat
  {
    Always(steps);
  }

  /** From its first send on, an advice's stored elements, STAN and DE 7 with them, never change. */
  lemma SentPayloadIsFinal(steps: seq<Step>, more: seq<Step>, i: nat)
    requires i < |Run(steps).wire|
    ensures var sent := Run(steps).wire[i];
            && sent.id < |Run(steps).db.saf| && sent.id < |After(Run(steps), more).db.saf|
            && Run(steps).db.saf[sent.id].fields == sent.elements
            && After(Run(steps), more).db.saf[sent.id].fields == sent.elements
  {
    var s, s' := Run(steps), After(Run(steps), more);
    Always(steps);
    AlwaysAfter(s, more);
    AfterGrows(s, more);
    assert s'.wire[i] == s.wire[i];
  }

  /** What went out repeats the stored advice but for the identity the worker gave it. */
  lemma OnlyIdentityIsAdded(s: State, stan: string, de7: string)
    requires Invariant(s) && Working(s) && s.worker.stage.Fetched?
    ensures var id := s.worker.batch[0].id;
            var before, after := s.db.saf[id].fields, DoName(s, stan, de7).db.saf[id].fields;
            && after - {7, 11} == before - {7, 11}
            && (Stan(before) != "" ==> after == before)
  {
    assert ClaimFits(s, 0);
    var id := s.worker.batch[0].id;
    var before, after := s.db.saf[id].fields, DoName(s, stan, de7).db.saf[id].fields;
    assert after == before || after == before[11 := stan][7 := de7];
    assert forall n :: n in after - {7, 11} <==> n in before - {7, 11};
  }

  // Repeats of a completion.

  /** Every 0220 of a completion holds the advice rebuilt from its row. */
  ghost predicate RepeatFits(db: Db, i: SafId) {
    i < |db.saf| && db.saf[i].advice == Completion0220 ==>
      && db.saf[i].tran < |db.tran| && Sendable(db.tran[db.saf[i].tran].req)
      && db.saf[i].fields == CompletionAdvice(db.tran[db.saf[i].tran].req) && db.saf[i].cardToken == ""
  }

  ghost predicate RepeatsFit(db: Db) {
    forall i: SafId :: RepeatFits(db, i)
  }

  /** An advice was added, or none, and the old ones are as they were. */
  lemma AddedRepeats(db: Db, after: Db)
    requires RepeatsFit(db) && Writes(db, after) && |db.saf| <= |after.saf| <= |db.saf| + 1
    requires forall i: SafId :: i < |db.saf| ==> after.saf[i] == db.saf[i]
    requires |after.saf| == |db.saf| + 1 ==> RepeatFits(after, |db.saf|)
    ensures RepeatsFit(after)
  {
    forall i: SafId ensures RepeatFits(after, i) {
      assert RepeatFits(db, i);
    }
  }

  lemma QueueAdviceRepeats(db: Db, id: TranId, sent: Elements)
    requires RepeatsFit(db) && id < |db.tran| && Sendable(db.tran[id].req)
    requires sent - NOT_STORED == CompletionAdvice(db.tran[id].req)
    ensures RepeatsFit(QueueAdvice(db, id, sent))
  {
    AddedRepeats(db, QueueAdvice(db, id, sent));
  }

  lemma SettleRepeats(s: State, id: TranId, mac: string)
    requires Invariant(s) && RepeatsFit(s.db)
    ensures RepeatsFit(DoSettle(s, id, mac).db)
  {
    if id in s.requests && s.requests[id].Recorded? && id < |s.db.tran| {
      assert RequestFits(s, id);
      var req, o := s.db.tran[id].req, s.requests[id].outcome;
      SettleWrites(s, id, mac);
      match FollowUpOf(req.tranType, VerdictOf(req.tranType, o))
      case Repeat =>
        CompletionRepeatIsTheSameMessage(req, mac);
        QueueAdviceRepeats(s.db, id, CompletionMessage(req, mac));
      case _ =>
        AddedRepeats(s.db, DoSettle(s, id, mac).db);
    }
  }

  lemma RequestRepeats(s: State, step: RequestStep)
    requires Invariant(s) && RepeatsFit(s.db)
    ensures RepeatsFit(ApplyRequest(s, step).db)
  {
    match step
    case Settle(id, mac) => SettleRepeats(s, id, mac);
    case CancelQueue(id) =>
      SettleWrites(s, id, "");
      AddedRepeats(s.db, DoCancelQueue(s, id).db);
    case _ => EarlyRepeats(s, step);
  }

  lemma EarlyRepeats(s: State, step: RequestStep)
    requires RepeatsFit(s.db) && !step.Settle? && !step.CancelQueue?
    ensures RepeatsFit(ApplyRequest(s, step).db)
  {
    SameSaf(s, step);
    RequestWrites(s, step);
    AddedRepeats(s.db, ApplyRequest(s, step).db);
  }

  lemma SameSaf(s: State, step: RequestStep)
    requires !step.Settle? && !step.CancelQueue?
    ensures ApplyRequest(s, step).db.saf == s.db.saf
  {
  }

  lemma FollowRepeats(s: State, id: TranId, status: Status)
    requires Invariant(s) && RepeatsFit(s.db) && AllWellWritten(s.db)
    ensures RepeatsFit(DoFollow(s, id, status).db)
  {
    if Task(id, status) in s.tasks && status != Sent && id < |s.db.tran| {
      var req := s.db.tran[id].req;
      SweepWrites(s, Follow(id, status));
      if status != Declined && req.tranType == Completion && req.originalRrn != "" && req.sentAt.Some? {
        CompletionRepeatIsTheSameMessage(req, "");
        QueueAdviceRepeats(s.db, id, CompletionAdvice(req));
      } else {
        AddedRepeats(s.db, DoFollow(s, id, status).db);
      }
    }
  }

  lemma SweepRepeats(s: State, step: SweepStep)
    requires Invariant(s) && RepeatsFit(s.db) && AllWellWritten(s.db)
    ensures RepeatsFit(ApplySweep(s, step).db)
  {
    match step
    case Find(cutoff, ids) =>
    case TimeOut(id) =>
      SweepWrites(s, step);
      AddedRepeats(s.db, DoTimeOut(s, id).db);
    case Follow(id, status) => FollowRepeats(s, id, status);
  }

  /** The worker's statements keep an advice's elements; a 0220 has its STAN from the start. */
  lemma WorkerRepeats(s: State, step: WorkerStep)
    requires Invariant(s) && RepeatsFit(s.db)
    ensures RepeatsFit(ApplyWorker(s, step).db)
  {
    var s' := ApplyWorker(s, step);
    WorkerWrites(s, step);
    WorkerGrows(s, step);
    forall i: SafId ensures RepeatFits(s'.db, i) {
      assert RepeatFits(s.db, i);
      assert i < |s.db.saf| ==> AdviceGrows(s.db.saf[i], s'.db.saf[i]);
    }
  }

  lemma StepRepeats(s: State, step: Step)
    requires Invariant(s) && RepeatsFit(s.db) && AllWellWritten(s.db)
    ensures RepeatsFit(Apply(s, step).db)
  {
    match step
    case OfRequest(r) => RequestRepeats(s, r);
    case OfSweep(w) => SweepRepeats(s, w);
    case OfWorker(d) => WorkerRepeats(s, d);
    case Crash =>
  }

  predicate IsRepeat(db: Db, i: SafId) {
    i < |db.saf| && db.saf[i].advice == Completion0220
  }

  /** No 0220 has gone out plain, nor is about to. */
  ghost predicate AllRepeated(s: State) {
    && (forall j :: 0 <= j < |s.wire| && IsRepeat(s.db, s.wire[j].id) ==> s.wire[j].repeat)
    && (s.worker.batch != [] && s.worker.stage.Named? && IsRepeat(s.db, s.worker.batch[0].id) ==> s.worker.stage.repeat)
  }

  lemma SameIsRepeat(s: State, s': State, i: SafId)
    requires Grows(s, s') && i < |s.db.saf|
    ensures IsRepeat(s'.db, i) <==> IsRepeat(s.db, i)
  {
    assert AdviceGrows(s.db.saf[i], s'.db.saf[i]);
  }

  lemma IdleRepeated(s: State, s': State)
    requires Invariant(s) && AllRepeated(s) && Grows(s, s') && s'.wire == s.wire
    requires s'.worker == s.worker || !s'.worker.stage.Named?
    ensures AllRepeated(s')
  {
    forall j | 0 <= j < |s'.wire| && IsRepeat(s'.db, s'.wire[j].id) ensures s'.wire[j].repeat {
      SameIsRepeat(s, s', s.wire[j].id);
    }
    if s.worker.batch != [] {
      assert ClaimFits(s, 0);
      SameIsRepeat(s, s', s.worker.batch[0].id);
    }
  }

  lemma NameRepeated(s: State, stan: string, de7: string)
    requires Invariant(s) && RepeatsFit(s.db) && AllRepeated(s) && Working(s)
    ensures AllRepeated(DoName(s, stan, de7))
  {
    var s', i := DoName(s, stan, de7), s.worker.batch[0].id;
    WorkerGrows(s, Name(stan, de7));
    assert ClaimFits(s, 0) && RepeatFits(s.db, i);
    forall j | 0 <= j < |s'.wire| && IsRepeat(s'.db, s'.wire[j].id) ensures s'.wire[j].repeat {
      SameIsRepeat(s, s', s.wire[j].id);
    }
    SameIsRepeat(s, s', i);
  }

  lemma DeliverRepeated(s: State, refused: bool)
    requires Invariant(s) && AllRepeated(s) && Working(s)
    ensures AllRepeated(DoDeliver(s, refused))
  {
    WorkerGrows(s, Deliver(refused));
    if !s.worker.stage.Named? || refused {
      IdleRepeated(s, DoDeliver(s, refused));
    }
  }

  lemma WorkerRepeated(s: State, step: WorkerStep)
    requires Invariant(s) && RepeatsFit(s.db) && AllRepeated(s)
    ensures AllRepeated(ApplyWorker(s, step))
  {
    WorkerGrows(s, step);
    if step.Fetch? || !Working(s) {
      IdleRepeated(s, ApplyWorker(s, step));
    } else {
      match step
      case Name(stan, de7) => NameRepeated(s, stan, de7);
      case Deliver(refused) => DeliverRepeated(s, refused);
      case FrameFails => IdleRepeated(s, DoFrameFails(s));
      case Hear(reply) => IdleRepeated(s, DoHear(s, reply));
      case Conclude => IdleRepeated(s, DoConclude(s));
      case Skip => IdleRepeated(s, Next(s));
    }
  }

  lemma StepRepeated(s: State, step: Step)
    requires Invariant(s) && RepeatsFit(s.db) && AllRepeated(s)
    ensures AllRepeated(Apply(s, step))
  {
    StepGrows(s, step);
    match step
    case OfRequest(r) =>
      RequestOnlyAppends(s, r);
      IdleRepeated(s, ApplyRequest(s, r));
    case OfSweep(w) =>
      SweepOnlyAppends(s, w);
      IdleRepeated(s, ApplySweep(s, w));
    case OfWorker(d) => WorkerRepeated(s, d);
    case Crash => IdleRepeated(s, Apply(s, Crash));
  }

  lemma {:induction false} RepeatsAfter(s: State, steps: seq<Step>)
    requires Invariant(s) && RepeatsFit(s.db) && AllWellWritten(s.db) && AllRepeated(s)
    ensures RepeatsFit(After(s, steps).db) && AllRepeated(After(s, steps))
    decreases |steps|
  {
    if steps != [] {
      StepKeeps(s, steps[0]);
      StepWrites(s, steps[0]);
      StepRepeats(s, steps[0]);
      StepRepeated(s, steps[0]);
      RepeatsAfter(Apply(s, steps[0]), steps[1..]);
    }
  }

  /**
   However often a completion's 0220 was queued, all its sends carry the one message rebuilt from its
   row, and all of them are repeats.
   */
  lemma RepeatsAreAlike(steps: seq<Step>, i: nat)
    requires i < |Run(steps).wire| && IsRepeat(Run(steps).db, Run(steps).wire[i].id)
    ensures var s := Run(steps);
            var id := s.db.saf[s.wire[i].id].tran;
            && id < |s.db.tran| && s.db.tran[id].req.sentAt.Some?
            && s.wire[i].elements == CompletionAdvice(s.db.tran[id].req) && s.wire[i].repeat
  {
    Always(steps);
    Always([]);
    RepeatsAfter(Init(), steps);
    assert RepeatFits(Run(steps).db, Run(steps).wire[i].id);
  }

  // What ends a transaction.

  /** The advice of row id was answered "00" by a response whose MAC verified. */
  ghost predicate Confirmed(s: State, id: TranId, advice: Advice) {
    exists i: SafId ::
      i < |s.db.saf| && s.db.saf[i].tran == id && s.db.saf[i].advice == advice && Response(i, RC_APPROVED, true) in s.responses
  }

  lemma ReversedIsConfirmed(steps: seq<Step>, id: TranId)
    requires id < |Run(steps).db.tran| && Run(steps).db.tran[id].status == Reversed
    ensures Confirmed(Run(steps), id, Reversal0420)
  {
    OneReversalEach(steps, id);
    Always(steps);
    var s := Run(steps);
    var i: SafId :| IsReversal(s.db, i, id) && s.db.saf[i].status == Acked;
  }

  /** The only way out of TIMED_OUT into APPROVED is the ACK of a completion's 0220. */
  lemma LateApprovalIsConfirmed(steps: seq<Step>, step: Step, id: TranId)
    requires id < |Run(steps).db.tran| && Run(steps).db.tran[id].status == TimedOut
    requires id < |Apply(Run(steps), step).db.tran| && Apply(Run(steps), step).db.tran[id].status == Approved
    ensures step == OfWorker(Conclude) && Confirmed(Apply(Run(steps), step), id, Completion0220)
  {
    Always(steps);
    var s := Run(steps);
    match step
    case OfRequest(r) => TimedOutRequest(s, r, id);
    case OfSweep(w) => TimedOutSweep(s, w, id);
    case OfWorker(d) => TimedOutWorker(s, d, Apply(s, step), id);
    case Crash =>
  }

  lemma TimedOutRequest(s: State, step: RequestStep, id: TranId)
    requires Invariant(s) && id < |s.db.tran| && s.db.tran[id].status == TimedOut
    ensures id < |ApplyRequest(s, step).db.tran| && ApplyRequest(s, step).db.tran[id].status in {TimedOut, ReversalPending}
  {
    match step
    case MarkSent(k, fault) => TimedOutMarkSent(s, k, fault, id);
    case Settle(k, mac) => TimedOutSettle(s, k, mac, id);
    case Record(k, fault) => TimedOutRecord(s, k, fault, id);
    case _ => TimedOutOther(s, step, id);
  }

  lemma TimedOutMarkSent(s: State, k: TranId, fault: Fault, id: TranId)
    requires Invariant(s) && id < |s.db.tran| && s.db.tran[id].status == TimedOut
    ensures id < |DoMarkSent(s, k, fault).db.tran| && DoMarkSent(s, k, fault).db.tran[id].status == TimedOut
  {
    if k in s.requests {
      assert RequestFits(s, k);
    }
  }

  lemma TimedOutSettle(s: State, k: TranId, mac: string, id: TranId)
    requires id < |s.db.tran| && s.db.tran[id].status == TimedOut
    ensures id < |DoSettle(s, k, mac).db.tran| && DoSettle(s, k, mac).db.tran[id].status in {TimedOut, ReversalPending}
  {
  }

  lemma TimedOutRecord(s: State, k: TranId, fault: Fault, id: TranId)
    requires id < |s.db.tran| && s.db.tran[id].status == TimedOut
    ensures id < |DoRecord(s, k, fault).db.tran| && DoRecord(s, k, fault).db.tran[id].status == TimedOut
  {
  }

  lemma TimedOutOther(s: State, step: RequestStep, id: TranId)
    requires id < |s.db.tran| && s.db.tran[id].status == TimedOut && !step.MarkSent? && !step.Settle? && !step.Record?
    ensures id < |ApplyRequest(s, step).db.tran| && ApplyRequest(s, step).db.tran[id].status in {TimedOut, ReversalPending}
  {
  }

  lemma TimedOutSweep(s: State, step: SweepStep, id: TranId)
    requires id < |s.db.tran| && s.db.tran[id].status == TimedOut
    ensures id < |ApplySweep(s, step).db.tran| && ApplySweep(s, step).db.tran[id].status in {TimedOut, ReversalPending}
  {
  }

  lemma AckApproves(db: Db, i: SafId, id: TranId)
    requires i < |db.saf| && db.saf[i].tran < |db.tran| && id < |db.tran| && db.tran[id].status == TimedOut
    ensures MarkAcked(db, i).tran[id].status == Approved ==> db.saf[i].tran == id && db.saf[i].advice == Completion0220
  {
  }

  lemma TimedOutWorker(s: State, step: WorkerStep, s': State, id: TranId)
    requires Invariant(s) && id < |s.db.tran| && s.db.tran[id].status == TimedOut
    requires s' == ApplyWorker(s, step) && id < |s'.db.tran| && s'.db.tran[id].status == Approved
    ensures step.Conclude? && Confirmed(s', id, Completion0220)
  {
    if step.Conclude? && Working(s) && s.worker.stage.Replied? {
      var i := s.worker.batch[0].id;
      AckApproves(s.db, i, id);
      WorkerGrows(s, step);
      assert AdviceGrows(s.db.saf[i], s'.db.saf[i]);
      assert Response(i, RC_APPROVED, true) in s'.responses;
    }
  }

  // Attempts.

  /** An advice dies of exhaustion after exactly MaxAttempts counted failures; until then attempts counts them. */
  lemma ExhaustedAfterMaxAttempts(steps: seq<Step>, i: SafId)
    requires i < |Run(steps).db.saf|
    ensures var s := Run(steps);
            var row := s.db.saf[i];
            && (i in s.exhausted ==> row.status == Dead && s.counted[i] == row.maxAttempts)
            && (i !in s.exhausted ==> s.counted[i] == row.attempts < row.maxAttempts)
  {
    Always(steps);
    assert CountFits(Run(steps), i);
  }

  /** No STAN, not signed on, or RC 91. */
  predicate LinkOutage(s: State, step: WorkerStep)
    requires Working(s)
  {
    match step
    case Name(stan, _) => stan == "" && s.worker.stage.Fetched? && Stan(s.worker.batch[0].row.fields) == ""
    case Deliver(refused) => refused && s.worker.stage.Named?
    case Conclude => s.worker.stage.Replied? && s.worker.stage.reply.Reply? && s.worker.stage.reply.rc == RC_LINK_DOWN
    case _ => false
  }

  /** A link outage counts nothing and leaves the advice queued, whatever else it has been through. */
  lemma OutageCountsNothing(s: State, step: WorkerStep)
    requires Invariant(s) && Working(s) && LinkOutage(s, step)
    ensures ApplyWorker(s, step).db == s.db && ApplyWorker(s, step).counted == s.counted
    ensures s.db.saf[s.worker.batch[0].id].status == InFlight
  {
    assert ClaimFits(s, 0);
    var i := s.worker.batch[0].id;
    assert MarkInFlight(s.db, i, s.worker.batch[0].row.attempts).saf == s.db.saf;
  }

  /** A step's effect on one advice's attempts: they grow by the failures it counts. */
  ghost predicate CountsUp(s: State, s': State, i: SafId) {
    && i < |s.db.saf| && i < |s'.db.saf|
    && (s'.counted[i] == s.counted[i] || s'.counted[i] == s.counted[i] + 1)
    && s'.db.saf[i].attempts - s.db.saf[i].attempts == if i in s'.exhausted then 0 else s'.counted[i] - s.counted[i]
  }

  /** The worker is concluding a delivery of advice i. */
  predicate Concludes(s: State, step: Step, i: SafId) {
    step == OfWorker(Conclude) && s.worker.stage.Replied? && s.worker.batch != [] && s.worker.batch[0].id == i
  }

  lemma AppendsCountNothing(s: State, s': State, i: SafId)
    requires OnlyAppends(s, s') && CountsFit(s) && i < |s.db.saf|
    ensures CountsUp(s, s', i) && s'.counted[i] == s.counted[i]
  {
    assert CountFits(s, i);
  }

  lemma WorkerCounts(s: State, step: WorkerStep, i: SafId)
    requires Invariant(s) && i < |s.db.saf|
    ensures CountsUp(s, ApplyWorker(s, step), i)
    ensures ApplyWorker(s, step).counted[i] != s.counted[i] ==> Concludes(s, OfWorker(step), i)
  {
    WorkerDelivers(s, step);
    WorkerGrows(s, step);
    assert CountFits(s, i) && CountFits(ApplyWorker(s, step), i);
  }

  /** Attempts grow on counted failures only, by one, and only where the worker concludes a delivery. */
  lemma AttemptsOnlyCount(s: State, step: Step, i: SafId)
    requires Invariant(s) && i < |s.db.saf|
    ensures CountsUp(s, Apply(s, step), i)
    ensures Apply(s, step).counted[i] != s.counted[i] ==> Concludes(s, step, i)
  {
    match step
    case OfRequest(r) =>
      RequestOnlyAppends(s, r);
      AppendsCountNothing(s, ApplyRequest(s, r), i);
    case OfSweep(w) =>
      SweepOnlyAppends(s, w);
      AppendsCountNothing(s, ApplySweep(s, w), i);
    case OfWorker(d) => WorkerCounts(s, d, i);
    case Crash => assert CountFits(s, i);
  }

  // Rows.

  /** What the gateway writes in a row: everything that was sent can be reversed, or repeated, from it. */
  predicate WellWritten(req: Request) {
    req.sentAt.Some? ==> Sendable(req) && (req.tranType == Completion ==> req.originalRrn != "")
  }

  ghost predicate AllWellWritten(db: Db) {
    forall id: TranId :: id < |db.tran| ==> WellWritten(db.tran[id].req)
  }

  /** Rows keep what was written in them, and new ones are well written. */
  ghost predicate Writes(db: Db, after: Db) {
    && |db.tran| <= |after.tran|
    && (forall id: TranId :: id < |db.tran| ==> after.tran[id].req == db.tran[id].req)
    && (forall id: TranId :: |db.tran| <= id < |after.tran| ==> WellWritten(after.tran[id].req))
  }

  lemma InsertWrites(s: State, step: RequestStep)
    requires step.LinkDown? || step.Insert? || step.InsertClaim?
    ensures Writes(s.db, ApplyRequest(s, step).db)
  {
  }

  lemma SettleWrites(s: State, id: TranId, mac: string)
    ensures Writes(s.db, DoSettle(s, id, mac).db) && Writes(s.db, DoRelease(s, id).db) && Writes(s.db, DoCancelQueue(s, id).db)
  {
  }

  lemma RecordWrites(s: State, id: TranId, fault: Fault)
    ensures Writes(s.db, DoRecord(s, id, fault).db) && Writes(s.db, DoMarkSent(s, id, fault).db)
  {
  }

  lemma RequestWrites(s: State, step: RequestStep)
    ensures Writes(s.db, ApplyRequest(s, step).db)
  {
    match step
    case LinkDown(_) => InsertWrites(s, step);
    case Insert(_) => InsertWrites(s, step);
    case InsertClaim(_, _) => InsertWrites(s, step);
    case Settle(id, mac) => SettleWrites(s, id, mac);
    case Release(id) => SettleWrites(s, id, "");
    case CancelQueue(id) => SettleWrites(s, id, "");
    case Record(id, fault) => RecordWrites(s, id, fault);
    case MarkSent(id, fault) => RecordWrites(s, id, fault);
    case _ =>
  }

  lemma SweepWrites(s: State, step: SweepStep)
    ensures Writes(s.db, ApplySweep(s, step).db)
  {
  }

  lemma ConcludeWrites(s: State)
    requires Working(s)
    ensures Writes(s.db, DoConclude(s).db)
  {
    var i := s.worker.batch[0].id;
    AckWrites(s.db, i);
    assert DoConclude(s).db.tran == s.db.tran || DoConclude(s).db == MarkAcked(s.db, i);
  }

  lemma AckWrites(db: Db, i: SafId)
    requires i < |db.saf| && db.saf[i].tran < |db.tran|
    ensures Writes(db, MarkAcked(db, i))
  {
  }

  lemma WorkerWrites(s: State, step: WorkerStep)
    ensures Writes(s.db, ApplyWorker(s, step).db)
  {
    if step.Conclude? && Working(s) {
      ConcludeWrites(s);
    } else {
      assert ApplyWorker(s, step).db.tran == s.db.tran;
    }
  }

  lemma StepWrites(s: State, step: Step)
    ensures Writes(s.db, Apply(s, step).db)
  {
    match step
    case OfRequest(r) => RequestWrites(s, r);
    case OfSweep(w) => SweepWrites(s, w);
    case OfWorker(d) => WorkerWrites(s, d);
    case Crash =>
  }

  lemma {:induction false} WrittenAfter(s: State, steps: seq<Step>)
    requires AllWellWritten(s.db)
    ensures AllWellWritten(After(s, steps).db)
    decreases |steps|
  {
    if steps != [] {
      StepWrites(s, steps[0]);
      WrittenAfter(Apply(s, steps[0]), steps[1..]);
    }
  }
}

/**
 Completions of a pre-authorization: the claim InsertCompletion takes is held by every completion that
 may have consumed the hold, so there is at most one, in every run without a harmful fault; and what
 exactly a harmful fault is.
 */
module Completions {
  import opened Store
  import opened Gateway
  import opened GatewayProofs
  import opened GatewayTheorems
  import opened Sweeper

  /** The completion is SENT, TIMED_OUT or APPROVED, or its request may still make it so. */
  ghost predicate Consuming(s: State, c: TranId) {
    && c < |s.db.tran| && s.db.tran[c].req.tranType == Completion
    && match s.db.tran[c].status
       case Sent => true
       case TimedOut => true
       case Approved => true
       case Created => c in s.requests && !s.requests[c].Releasing?
       case _ => false
  }

  /** The completion holds its pre-authorization, which is approved and covers its amount. */
  ghost predicate HoldsClaim(db: Db, c: TranId) {
    && c < |db.tran|
    && match db.tran[c].req.original
       case None => false
       case Some(p) =>
         && p < |db.tran|
         && db.tran[p].req.tranType == PreAuth
         && db.tran[p].status == Approved
         && db.tran[p].completedBy == Some(c)
         && db.tran[c].req.amount <= db.tran[p].req.amount
  }

  ghost predicate IntentFits(s: State, intent: (TranId, int)) {
    && intent.0 < |s.db.tran|
    && s.db.tran[intent.0].req.tranType == PreAuth
    && intent.1 <= s.db.tran[intent.0].req.amount
  }

  /** The completion was sent to the issuer, or may be repeated to it, and has not been refused. */
  predicate MayHaveTaken(row: Tran) {
    row.req.tranType == Completion && row.status in {Sent, TimedOut, Approved}
  }

  /** A request that is about to free its claim consumed nothing. */
  ghost predicate FreesSafely(s: State, c: TranId) {
    && c in s.requests && c < |s.db.tran|
    && (s.requests[c].Releasing? ==> s.db.tran[c].req.tranType == Completion)
    && (s.db.tran[c].req.tranType == Completion ==>
          match s.requests[c]
          case Inserted => true
          case Attached => true
          case Releasing => s.db.tran[c].status == Created
          case Recorded(o, _) => VerdictOf(Completion, o).status == Declined ==> s.db.tran[c].status == Declined
          case _ => MayHaveTaken(s.db.tran[c]))
  }

  ghost predicate ClaimsHold(s: State) {
    && (forall c: TranId :: Consuming(s, c) ==> HoldsClaim(s.db, c))
    && (forall intent :: intent in s.intents ==> IntentFits(s, intent))
    && (forall c :: c in s.requests ==> FreesSafely(s, c))
  }

  predicate NotConsumed(row: Tran) {
    row.req.tranType == Completion && (row.status == Created || row.status == Declined)
  }

  /** A step that takes no claim and frees none: only request id, if any, moved. */
  ghost predicate Calm(s: State, s': State, id: TranId) {
    && |s.db.tran| <= |s'.db.tran|
    && (forall k: TranId :: k < |s.db.tran| ==>
          s'.db.tran[k].req == s.db.tran[k].req && s'.db.tran[k].completedBy == s.db.tran[k].completedBy)
    && (forall k: TranId :: k < |s.db.tran| && s.db.tran[k].req.tranType == PreAuth && s.db.tran[k].status == Approved ==>
          s'.db.tran[k].status == Approved)
    && (forall k: TranId :: k < |s.db.tran| && k != id && NotConsumed(s.db.tran[k]) ==> s'.db.tran[k].status == s.db.tran[k].status)
    && (forall k: TranId :: k < |s.db.tran| && k != id && MayHaveTaken(s.db.tran[k]) ==> MayHaveTaken(s'.db.tran[k]))
    && (forall c: TranId :: Consuming(s', c) ==> Consuming(s, c))
    && (forall k :: k in s'.requests && k != id ==> k in s.requests && s'.requests[k] == s.requests[k])
    && s'.intents <= s.intents
  }

  lemma CalmKeeps(s: State, s': State, id: TranId)
    requires ClaimsHold(s) && Calm(s, s', id)
    requires id in s'.requests ==> FreesSafely(s', id)
    ensures ClaimsHold(s')
  {
    forall c: TranId | Consuming(s', c) ensures HoldsClaim(s'.db, c) {
      assert Consuming(s, c) && HoldsClaim(s.db, c);
    }
    forall intent | intent in s'.intents ensures IntentFits(s', intent) {
      assert IntentFits(s, intent);
    }
    forall c | c in s'.requests ensures FreesSafely(s', c) {
      if c != id {
        assert FreesSafely(s, c);
      }
    }
  }

  /** A step that moves one row's state, and its request. */
  lemma RowKeeps(s: State, s': State, id: TranId, row: Tran)
    requires ClaimsHold(s) && id < |s.db.tran| && s'.db.tran == s.db.tran[id := row] && s'.intents == s.intents
    requires row.req == s.db.tran[id].req && row.completedBy == s.db.tran[id].completedBy
    requires row.req.tranType == PreAuth && s.db.tran[id].status == Approved ==> row.status == Approved
    requires Consuming(s', id) ==> Consuming(s, id)
    requires forall k :: k in s'.requests && k != id ==> k in s.requests && s'.requests[k] == s.requests[k]
    requires id in s'.requests ==> FreesSafely(s', id)
    ensures ClaimsHold(s')
  {
    forall c: TranId | Consuming(s', c) ensures Consuming(s, c) {
      assert c != id ==> s'.db.tran[c] == s.db.tran[c];
    }
    CalmKeeps(s, s', id);
  }

  // Harmful faults.

  predicate IsCompletion(db: Db, id: TranId) {
    id < |db.tran| && db.tran[id].req.tranType == Completion
  }

  /**
   A fault after which a completion frees its claim though its row may have taken the money: a SENT
   write that committed and failed, a history write that failed after it, or a refusal that could not
   be recorded in a row that is SENT, or that the sweeper has moved on.
   */
  predicate Harmful(s: State, step: Step) {
    && step.OfRequest?
    && match step.r
       case MarkSent(id, fault) => StageIs(s, id, Attached) && IsCompletion(s.db, id) && fault == Unsure
       case History(id, written) => StageIs(s, id, Marked) && IsCompletion(s.db, id) && !written
       case Record(id, fault) =>
         && IsCompletion(s.db, id) && id in s.requests && s.requests[id].Answered?
         && VerdictOf(Completion, s.requests[id].outcome).status == Declined
         && (fault == Lost || (fault == Unsure && s.db.tran[id].status != Sent))
       case _ => false
  }

  predicate NoHarm(s: State, steps: seq<Step>)
    decreases |steps|
  {
    steps == [] || (!Harmful(s, steps[0]) && NoHarm(Apply(s, steps[0]), steps[1..]))
  }

  /** In particular, crash-stop faults are harmless. */
  lemma {:induction false} CrashStopIsHarmless(s: State, steps: seq<Step>)
    requires AllCrashStop(steps)
    ensures NoHarm(s, steps)
    decreases |steps|
  {
    if steps != [] {
      assert CrashStop(steps[0]);
      CrashStopIsHarmless(Apply(s, steps[0]), steps[1..]);
    }
  }

  // Request steps.

  lemma InsertClaims(s: State, req: Request)
    requires ClaimsHold(s) && Sound(s)
    ensures ClaimsHold(DoInsert(s, req))
  {
    NewIdIsFree(s);
    CalmKeeps(s, DoInsert(s, req), |s.db.tran|);
  }

  lemma LinkDownClaims(s: State, req: Request)
    requires ClaimsHold(s) && Sound(s)
    ensures ClaimsHold(DoLinkDown(s, req))
  {
    NewIdIsFree(s);
    CalmKeeps(s, DoLinkDown(s, req), |s.db.tran|);
  }

  lemma LookUpClaims(s: State, preAuth: TranId, amount: int)
    requires ClaimsHold(s)
    ensures ClaimsHold(DoLookUp(s, preAuth, amount))
  {
    var s' := DoLookUp(s, preAuth, amount);
    forall intent | intent in s'.intents ensures IntentFits(s', intent) {
      assert intent in s.intents ==> IntentFits(s, intent);
    }
    forall c: TranId | Consuming(s', c) ensures HoldsClaim(s'.db, c) {
      assert Consuming(s, c);
    }
    forall c | c in s'.requests ensures FreesSafely(s', c) {
      assert FreesSafely(s, c);
    }
  }

  /** Taking the claim: nobody else held it, and the new completion does. */
  lemma InsertClaimClaims(s: State, req: Request, preAuth: TranId)
    requires ClaimsHold(s) && Sound(s)
    ensures ClaimsHold(DoInsertClaim(s, req, preAuth))
  {
    var s' := DoInsertClaim(s, req, preAuth);
    if s' != s {
      NewIdIsFree(s);
      var id := |s.db.tran|;
      assert IntentFits(s, (preAuth, req.amount));
      forall c: TranId | Consuming(s', c) ensures HoldsClaim(s'.db, c) {
        if c != id {
          assert Consuming(s, c) && HoldsClaim(s.db, c);
          assert s.db.tran[c].req.original != Some(preAuth);
        }
      }
      forall intent | intent in s'.intents ensures IntentFits(s', intent) {
        assert IntentFits(s, intent);
      }
      forall c | c in s'.requests ensures FreesSafely(s', c) {
        if c != id {
          assert FreesSafely(s, c);
        }
      }
    }
  }

  lemma AttachClaims(s: State, id: TranId, attached: bool)
    requires ClaimsHold(s) && Sound(s)
    ensures ClaimsHold(DoAttach(s, id, attached))
  {
    if StageIs(s, id, Inserted) {
      assert RequestFits(s, id);
      CalmKeeps(s, DoAttach(s, id, attached), id);
    }
  }

  lemma MarkSentClaims(s: State, id: TranId, fault: Fault)
    requires ClaimsHold(s) && Sound(s) && !Harmful(s, OfRequest(MarkSent(id, fault)))
    ensures ClaimsHold(DoMarkSent(s, id, fault))
  {
    if StageIs(s, id, Attached) {
      assert RequestFits(s, id);
      match fault
      case Lost => AbortClaims(s, id);
      case _ => RowKeeps(s, DoMarkSent(s, id, fault), id, s.db.tran[id].(status := Sent, rc := ""));
    }
  }

  /** Giving up before the send, with the row as it was inserted. */
  lemma AbortClaims(s: State, id: TranId)
    requires ClaimsHold(s) && id in s.requests && id < |s.db.tran| && s.db.tran[id].status == Created
    ensures ClaimsHold(Abort(s, id))
  {
    CalmKeeps(s, Abort(s, id), id);
  }

  /** A request moved on past its SENT write; no row changed. */
  lemma StageClaims(s: State, s': State, id: TranId)
    requires ClaimsHold(s) && id in s.requests && id < |s.db.tran|
    requires s.requests[id].Marked? || s.requests[id].Ready? || s.requests[id].Waiting?
    requires s'.db == s.db && s'.intents == s.intents && id in s'.requests
    requires s'.requests[id].Ready? || s'.requests[id].Waiting? || s'.requests[id].Answered?
    requires s.db.tran[id].status != Created
    requires s'.requests == s.requests[id := s'.requests[id]]
    ensures ClaimsHold(s')
  {
    assert FreesSafely(s, id);
    CalmKeeps(s, s', id);
  }

  lemma HistoryClaims(s: State, id: TranId, written: bool)
    requires ClaimsHold(s) && Sound(s) && !Harmful(s, OfRequest(History(id, written)))
    ensures ClaimsHold(DoHistory(s, id, written))
  {
    if StageIs(s, id, Marked) {
      assert RequestFits(s, id);
      if written {
        StageClaims(s, DoHistory(s, id, true), id);
      } else {
        CalmKeeps(s, DoHistory(s, id, false), id);
      }
    }
  }

  lemma SendClaims(s: State, id: TranId, refused: bool, outcome: Outcome)
    requires ClaimsHold(s) && Sound(s)
    ensures ClaimsHold(DoTransmit(s, id, refused)) && ClaimsHold(DoReceive(s, id, outcome))
  {
    if id in s.requests {
      assert RequestFits(s, id);
      assert Exposed(s, id) ==> ReachedFits(s, id);
      if s.requests[id].Ready? {
        StageClaims(s, DoTransmit(s, id, refused), id);
      } else if s.requests[id].Waiting? && !outcome.Refused? {
        StageClaims(s, DoReceive(s, id, outcome), id);
      }
    }
  }

  lemma RecordClaims(s: State, id: TranId, fault: Fault)
    requires ClaimsHold(s) && Sound(s) && !Harmful(s, OfRequest(Record(id, fault)))
    ensures ClaimsHold(DoRecord(s, id, fault))
  {
    if id in s.requests && s.requests[id].Answered? && id < |s.db.tran| {
      var o := s.requests[id].outcome;
      assert RequestFits(s, id);
      if fault == Lost {
        UnwrittenClaims(s, id, o);
      } else if fault == Unsure {
        WrittenClaims(s, id, o, Sent);
      } else if s.db.tran[id].status == Sent {
        WrittenClaims(s, id, o, VerdictOf(s.db.tran[id].req.tranType, o).status);
      } else {
        CalmKeeps(s, End(s, id), id);
      }
    }
  }

  lemma UnwrittenClaims(s: State, id: TranId, o: Outcome)
    requires ClaimsHold(s) && StageIs(s, id, Answered(o)) && s.db.tran[id].status != Created
    requires IsCompletion(s.db, id) ==> VerdictOf(Completion, o).status != Declined
    ensures ClaimsHold(At(s, id, Recorded(o, Sent)))
  {
    CalmKeeps(s, At(s, id, Recorded(o, Sent)), id);
  }

  lemma WrittenClaims(s: State, id: TranId, o: Outcome, current: Status)
    requires ClaimsHold(s) && StageIs(s, id, Answered(o)) && s.db.tran[id].status != Created
    requires IsCompletion(s.db, id) && VerdictOf(Completion, o).status == Declined ==> s.db.tran[id].status == Sent
    ensures ClaimsHold(Written(s, id, o, current))
  {
    var row, v := s.db.tran[id], VerdictOf(s.db.tran[id].req.tranType, o);
    assert FreesSafely(s, id);
    RowKeeps(s, Written(s, id, o, current), id, if row.status == Sent then row.(status := v.status, rc := v.rc) else row);
  }

  /** Freeing the claim of a completion that consumed nothing leaves every other claim alone. */
  lemma FreeClaims(s: State, s': State, id: TranId)
    requires ClaimsHold(s) && id < |s.db.tran| && !(s.db.tran[id].status in {Sent, TimedOut, Approved})
    requires s'.requests == s.requests - {id} && s'.intents == s.intents
    requires s'.db == FreeClaimOf(s.db, id)
    ensures ClaimsHold(s')
  {
    forall c: TranId | Consuming(s', c) ensures HoldsClaim(s'.db, c) {
      assert Consuming(s, c) && HoldsClaim(s.db, c) && c != id;
    }
    forall intent | intent in s'.intents ensures IntentFits(s', intent) {
      assert IntentFits(s, intent);
    }
    forall c | c in s'.requests ensures FreesSafely(s', c) {
      assert FreesSafely(s, c);
    }
  }

  lemma SettleClaims(s: State, id: TranId, mac: string)
    requires ClaimsHold(s) && Sound(s)
    ensures ClaimsHold(DoSettle(s, id, mac))
  {
    if id in s.requests && s.requests[id].Recorded? && id < |s.db.tran| {
      assert RequestFits(s, id);
      assert FreesSafely(s, id);
      var o, current := s.requests[id].outcome, s.requests[id].current;
      var t := s.db.tran[id].req.tranType;
      var s' := DoSettle(s, id, mac);
      match FollowUpOf(t, VerdictOf(t, o))
      case Nothing => SameRowsKeep(s, s');
      case FreeClaim => FreeClaims(s, s', id);
      case Repeat => SameRowsKeep(s, s');
      case Reverse(reason) => ReverseCalm(s, s', id, current, reason);
    }
  }

  /** A reversal never starts from an approved pre-authorization, nor touches a completion. */
  lemma ReverseCalm(s: State, s': State, id: TranId, from: Status, reason: string)
    requires ClaimsHold(s) && id < |s.db.tran| && s'.db == QueueReversal(s.db, id, from, reason)
    requires s.db.tran[id].req.tranType == PreAuth ==> from != Approved
    requires s'.requests == s.requests || s'.requests == s.requests - {id}
    requires id in s'.requests ==> s.db.tran[id].req.tranType != Completion
    requires s'.intents == s.intents
    ensures ClaimsHold(s')
  {
    if id in s'.requests {
      assert FreesSafely(s, id);
    }
    if CanReverse(s.db, id, from) {
      RowKeeps(s, s', id, s.db.tran[id].(status := ReversalPending));
    } else {
      SameRowsKeep(s, s');
    }
  }

  lemma ReleaseClaims(s: State, id: TranId)
    requires ClaimsHold(s)
    ensures ClaimsHold(DoRelease(s, id))
  {
    if StageIs(s, id, Releasing) {
      assert FreesSafely(s, id);
      FreeClaims(s, DoRelease(s, id), id);
    }
  }

  lemma CancelClaims(s: State, id: TranId)
    requires ClaimsHold(s) && Sound(s)
    ensures ClaimsHold(DoCancelRead(s, id)) && ClaimsHold(DoCancelQueue(s, id))
  {
    if id in s.requests {
      assert FreesSafely(s, id);
    }
    CalmKeeps(s, DoCancelRead(s, id), id);
    if id in s.cancels {
      assert CancelFits(s, id);
      ReverseCalm(s, DoCancelQueue(s, id), id, Approved, REASON_CANCELLATION);
    }
  }

  lemma RequestClaims(s: State, step: RequestStep)
    requires ClaimsHold(s) && Sound(s) && !Harmful(s, OfRequest(step))
    ensures ClaimsHold(ApplyRequest(s, step))
  {
    if BeforeSend(step) {
      SendingClaims(s, step);
    } else {
      SentClaims(s, step);
    }
  }

  lemma SendingClaims(s: State, step: RequestStep)
    requires ClaimsHold(s) && Sound(s) && !Harmful(s, OfRequest(step)) && BeforeSend(step)
    ensures ClaimsHold(ApplyRequest(s, step))
  {
    match step
    case LinkDown(req) => LinkDownClaims(s, req);
    case Insert(req) => InsertClaims(s, req);
    case LookUp(preAuth, amount) => LookUpClaims(s, preAuth, amount);
    case InsertClaim(req, preAuth) => InsertClaimClaims(s, req, preAuth);
    case Attach(id, attached) => AttachClaims(s, id, attached);
    case MarkSent(id, fault) => MarkSentClaims(s, id, fault);
    case History(id, written) => HistoryClaims(s, id, written);
  }

  lemma SentClaims(s: State, step: RequestStep)
    requires ClaimsHold(s) && Sound(s) && !Harmful(s, OfRequest(step)) && !BeforeSend(step)
    ensures ClaimsHold(ApplyRequest(s, step))
  {
    match step
    case Transmit(id, refused) => SendClaims(s, id, refused, NoAnswer);
    case Receive(id, outcome) => SendClaims(s, id, true, outcome);
    case Record(id, fault) => RecordClaims(s, id, fault);
    case Settle(id, mac) => SettleClaims(s, id, mac);
    case Release(id) => ReleaseClaims(s, id);
    case CancelRead(id) => CancelClaims(s, id);
    case CancelQueue(id) => CancelClaims(s, id);
  }

  // Sweeper, worker and crash.

  /** The rows' states are as they were, and so are the requests. */
  lemma SameRowsKeep(s: State, s': State)
    requires ClaimsHold(s) && s'.db.tran == s.db.tran && s'.intents <= s.intents
    requires forall k :: k in s'.requests ==> k in s.requests && s'.requests[k] == s.requests[k]
    ensures ClaimsHold(s')
  {
    CalmKeeps(s, s', |s'.db.tran|);
  }

  lemma TimeOutClaims(s: State, id: TranId)
    requires ClaimsHold(s) && Sound(s)
    ensures ClaimsHold(DoTimeOut(s, id))
  {
    if id in s.requests {
      assert FreesSafely(s, id);
    }
    if id < |s.db.tran| {
      RowKeeps(s, DoTimeOut(s, id), id, DoTimeOut(s, id).db.tran[id]);
    }
  }

  lemma FollowClaims(s: State, id: TranId, status: Status)
    requires ClaimsHold(s) && Sound(s)
    ensures ClaimsHold(DoFollow(s, id, status))
  {
    if Task(id, status) in s.tasks && status != Sent && id < |s.db.tran| {
      assert TaskFits(s, Task(id, status));
      var s' := DoFollow(s, id, status);
      var t := s.db.tran[id].req.tranType;
      if status == Declined {
        ReverseCalm(s, s', id, Declined, REASON_MAC_FAILURE);
      } else if t == Balance || t == Completion {
        SameRowsKeep(s, s');
      } else {
        ReverseCalm(s, s', id, TimedOut, REASON_TIMEOUT);
      }
    }
  }

  lemma SweepClaims(s: State, step: SweepStep)
    requires ClaimsHold(s) && Sound(s)
    ensures ClaimsHold(ApplySweep(s, step))
  {
    match step
    case Find(cutoff, ids) => SameRowsKeep(s, DoFind(s, cutoff, ids));
    case TimeOut(id) => TimeOutClaims(s, id);
    case Follow(id, status) => FollowClaims(s, id, status);
  }

  /** An ACK ends a reversal, or approves a completion that already held its claim. */
  lemma AckClaims(s: State, s': State, i: SafId)
    requires ClaimsHold(s) && i < |s.db.saf| && s.db.saf[i].tran < |s.db.tran|
    requires s'.db.tran == MarkAcked(s.db, i).tran && s'.requests == s.requests && s'.intents == s.intents
    ensures ClaimsHold(s')
  {
    var id := s.db.saf[i].tran;
    if id in s.requests {
      assert FreesSafely(s, id);
    }
    RowKeeps(s, s', id, s'.db.tran[id]);
  }

  lemma ConcludeClaims(s: State)
    requires ClaimsHold(s) && Sound(s) && Working(s)
    ensures ClaimsHold(DoConclude(s))
  {
    var s' := DoConclude(s);
    if s.worker.stage.Replied? {
      var reply := s.worker.stage.reply;
      if reply.Reply? && reply.rc == RC_APPROVED && reply.macOk {
        AckClaims(s, s', s.worker.batch[0].id);
      } else {
        SameRowsKeep(s, s');
      }
    }
  }

  lemma WorkerClaims(s: State, step: WorkerStep)
    requires ClaimsHold(s) && Sound(s)
    ensures ClaimsHold(ApplyWorker(s, step))
  {
    if step.Conclude? && Working(s) {
      ConcludeClaims(s);
    } else {
      SameRowsKeep(s, ApplyWorker(s, step));
    }
  }

  lemma StepClaims(s: State, step: Step)
    requires ClaimsHold(s) && Sound(s) && !Harmful(s, step)
    ensures ClaimsHold(Apply(s, step))
  {
    match step
    case OfRequest(r) => RequestClaims(s, r);
    case OfSweep(w) => SweepClaims(s, w);
    case OfWorker(d) => WorkerClaims(s, d);
    case Crash => SameRowsKeep(s, Apply(s, Crash));
  }

  lemma {:induction false} ClaimsAfter(s: State, steps: seq<Step>)
    requires ClaimsHold(s) && Invariant(s) && NoHarm(s, steps)
    ensures ClaimsHold(After(s, steps))
    decreases |steps|
  {
    if steps != [] {
      StepKeeps(s, steps[0]);
      StepClaims(s, steps[0]);
      ClaimsAfter(Apply(s, steps[0]), steps[1..]);
    }
  }

  lemma ClaimsAlways(steps: seq<Step>)
    requires NoHarm(Init(), steps)
    ensures ClaimsHold(Run(steps))
  {
    Always([]);
    ClaimsAfter(Init(), steps);
  }

  // What follows.

  /** A completion that may have taken the money is the one its approved pre-authorization names, for no more than was held. */
  lemma CompletionHoldsClaim(steps: seq<Step>, c: TranId)
    requires NoHarm(Init(), steps) && c < |Run(steps).db.tran| && MayHaveTaken(Run(steps).db.tran[c])
    ensures HoldsClaim(Run(steps).db, c)
  {
    ClaimsAlways(steps);
    assert Consuming(Run(steps), c);
  }

  lemma OneCompletionEach(steps: seq<Step>, c: TranId, d: TranId)
    requires NoHarm(Init(), steps) && c < |Run(steps).db.tran| && d < |Run(steps).db.tran|
    requires MayHaveTaken(Run(steps).db.tran[c]) && MayHaveTaken(Run(steps).db.tran[d])
    requires Run(steps).db.tran[c].req.original == Run(steps).db.tran[d].req.original
    ensures c == d
  {
    CompletionHoldsClaim(steps, c);
    CompletionHoldsClaim(steps, d);
  }

  predicate HeldApproved(db: Db, p: TranId) {
    p < |db.tran| && db.tran[p].req.tranType == PreAuth && db.tran[p].status == Approved
  }

  ghost predicate StaysHeld(db: Db, after: Db, p: TranId)
    requires p < |db.tran|
  {
    p < |after.tran| && after.tran[p].req == db.tran[p].req && after.tran[p].status == Approved
  }

  /** Whatever fails or crashes, no step takes an approved pre-authorization out of APPROVED. */
  lemma ApprovedStep(s: State, step: Step, p: TranId)
    requires Invariant(s) && HeldApproved(s.db, p)
    ensures StaysHeld(s.db, Apply(s, step).db, p)
  {
    match step
    case OfRequest(r) => ApprovedRequestStep(s, r, p);
    case OfSweep(w) =>
    case OfWorker(d) => ApprovedWorkerStep(s, d, p);
    case Crash =>
  }

  lemma ApprovedWorkerStep(s: State, step: WorkerStep, p: TranId)
    requires HeldApproved(s.db, p)
    ensures StaysHeld(s.db, ApplyWorker(s, step).db, p)
  {
    if step.Conclude? && Working(s) && s.worker.stage.Replied? {
      var i := s.worker.batch[0].id;
      assert StaysHeld(s.db, MarkAcked(s.db, i), p);
    }
  }

  lemma ApprovedSettle(s: State, id: TranId, mac: string, p: TranId)
    requires Invariant(s) && HeldApproved(s.db, p)
    ensures StaysHeld(s.db, DoSettle(s, id, mac).db, p)
  {
    if id == p && id in s.requests {
      assert RequestFits(s, id);
    }
  }

  lemma ApprovedCancel(s: State, id: TranId, p: TranId)
    requires Invariant(s) && HeldApproved(s.db, p)
    ensures StaysHeld(s.db, DoCancelQueue(s, id).db, p)
  {
    if id in s.cancels {
      assert CancelFits(s, id);
    }
  }

  lemma ApprovedMarkSent(s: State, id: TranId, fault: Fault, p: TranId)
    requires Invariant(s) && HeldApproved(s.db, p)
    ensures StaysHeld(s.db, DoMarkSent(s, id, fault).db, p)
  {
    if id in s.requests {
      assert RequestFits(s, id);
    }
  }

  lemma ApprovedRecord(s: State, id: TranId, fault: Fault, p: TranId)
    requires HeldApproved(s.db, p)
    ensures StaysHeld(s.db, DoRecord(s, id, fault).db, p)
  {
  }

  lemma ApprovedRelease(s: State, id: TranId, p: TranId)
    requires HeldApproved(s.db, p)
    ensures StaysHeld(s.db, DoRelease(s, id).db, p)
  {
  }

  lemma ApprovedRequestStep(s: State, step: RequestStep, p: TranId)
    requires Invariant(s) && HeldApproved(s.db, p)
    ensures StaysHeld(s.db, ApplyRequest(s, step).db, p)
  {
    match step
    case Settle(id, mac) => ApprovedSettle(s, id, mac, p);
    case CancelQueue(id) => ApprovedCancel(s, id, p);
    case MarkSent(id, fault) => ApprovedMarkSent(s, id, fault, p);
    case Record(id, fault) => ApprovedRecord(s, id, fault, p);
    case Release(id) => ApprovedRelease(s, id, p);
    case Insert(req) => ApprovedInsert(s, req, p);
    case LinkDown(req) => ApprovedInsert(s, req, p);
    case InsertClaim(req, preAuth) => ApprovedClaim(s, req, preAuth, p);
    case _ => QuietStep(s, step);
  }

  /** Steps that write no row. */
  lemma QuietStep(s: State, step: RequestStep)
    requires step.LookUp? || step.Attach? || step.History? || step.Transmit? || step.Receive? || step.CancelRead?
    ensures ApplyRequest(s, step).db == s.db
  {
  }

  lemma ApprovedInsert(s: State, req: Request, p: TranId)
    requires HeldApproved(s.db, p)
    ensures StaysHeld(s.db, DoInsert(s, req).db, p) && StaysHeld(s.db, DoLinkDown(s, req).db, p)
  {
  }

  lemma ApprovedClaim(s: State, req: Request, preAuth: TranId, p: TranId)
    requires HeldApproved(s.db, p)
    ensures StaysHeld(s.db, DoInsertClaim(s, req, preAuth).db, p)
  {
  }

  lemma {:induction false} HeldAfter(s: State, steps: seq<Step>, p: TranId)
    requires Invariant(s) && HeldApproved(s.db, p)
    ensures StaysHeld(s.db, After(s, steps).db, p)
    decreases |steps|
  {
    if steps != [] {
      StepKeeps(s, steps[0]);
      ApprovedStep(s, steps[0], p);
      HeldAfter(Apply(s, steps[0]), steps[1..], p);
    }
  }

  lemma ApprovedForEver(steps: seq<Step>, more: seq<Step>, p: TranId)
    requires HeldApproved(Run(steps).db, p)
    ensures StaysHeld(Run(steps).db, After(Run(steps), more).db, p)
  {
    Always(steps);
    HeldAfter(Run(steps), more, p);
  }

  // What a harmful fault does.

  /** The claim was held, and after the freeing step it is not, though the completion may have taken the money. */
  ghost predicate Broken(s: State, s': State, id: TranId) {
    && id < |s.db.tran| && |s'.db.tran| == |s.db.tran| && MayHaveTaken(s'.db.tran[id]) && !HoldsClaim(s'.db, id)
    && s'.db.tran[id].req == s.db.tran[id].req && s.db.tran[id].req.original.Some?
    && Completable(s'.db, s.db.tran[id].req.original.value)
    && s'.db.tran[s.db.tran[id].req.original.value].req == s.db.tran[s.db.tran[id].req.original.value].req
  }

  lemma FreedBreaks(s: State, s': State, id: TranId)
    requires HoldsClaim(s.db, id) && id < |s.db.tran| && s.db.tran[id].req.tranType == Completion
    requires s'.db == FreeClaimOf(s.db, id) && MayHaveTaken(s.db.tran[id])
    ensures Broken(s, s', id)
  {
  }

  lemma SentBreaks(s: State, id: TranId)
    requires Invariant(s) && ClaimsHold(s) && Harmful(s, OfRequest(MarkSent(id, Unsure)))
    ensures Broken(s, DoRelease(DoMarkSent(s, id, Unsure), id), id)
  {
    assert RequestFits(s, id) && Consuming(s, id);
    var marked := DoMarkSent(s, id, Unsure);
    assert HoldsClaim(marked.db, id) && StageIs(marked, id, Releasing);
    FreedBreaks(marked, DoRelease(marked, id), id);
  }

  lemma HistoryBreaks(s: State, id: TranId)
    requires Invariant(s) && ClaimsHold(s) && Harmful(s, OfRequest(History(id, false)))
    ensures Broken(s, DoRelease(DoHistory(s, id, false), id), id)
  {
    assert FreesSafely(s, id) && Consuming(s, id);
    var failed := DoHistory(s, id, false);
    assert StageIs(failed, id, Releasing);
    FreedBreaks(failed, DoRelease(failed, id), id);
  }

  lemma RecordBreaks(s: State, id: TranId, fault: Fault, mac: string)
    requires Invariant(s) && ClaimsHold(s) && Harmful(s, OfRequest(Record(id, fault)))
    ensures Broken(s, DoSettle(DoRecord(s, id, fault), id, mac), id)
  {
    assert FreesSafely(s, id) && Consuming(s, id);
    var recorded := DoRecord(s, id, fault);
    assert recorded.db == s.db && recorded.requests[id] == Recorded(s.requests[id].outcome, Sent);
    FreedBreaks(recorded, DoSettle(recorded, id, mac), id);
  }

  /** The fault, and the step with which its request then frees the claim. */
  function Harmed(s: State, step: RequestStep, mac: string): State {
    match step
    case MarkSent(id, fault) => DoRelease(DoMarkSent(s, id, fault), id)
    case History(id, written) => DoRelease(DoHistory(s, id, written), id)
    case Record(id, fault) => DoSettle(DoRecord(s, id, fault), id, mac)
    case _ => s
  }

  /**
   The condition is exact: wherever the claims hold, a harmless step keeps them (StepClaims), and a
   harmful one, with the freeing it leads its request to, leaves a completion that may have taken the
   money without its claim, and its pre-authorization free to be completed again.
   */
  lemma HarmBreaks(s: State, step: Step, mac: string)
    requires Invariant(s) && ClaimsHold(s) && Harmful(s, step)
    ensures Broken(s, Harmed(s, step.r, mac), step.r.id)
  {
    match step.r
    case MarkSent(id, _) => SentBreaks(s, id);
    case History(id, _) => HistoryBreaks(s, id);
    case Record(id, fault) => RecordBreaks(s, id, fault, mac);
    case _ =>
  }

  /** In runs: the first harmful step ends the claims' hold. */
  lemma FirstHarmBreaks(steps: seq<Step>, step: Step, mac: string)
    requires NoHarm(Init(), steps) && Harmful(Run(steps), step)
    ensures Broken(Run(steps), Harmed(Run(steps), step.r, mac), step.r.id)
  {
    Always(steps);
    ClaimsAlways(steps);
    HarmBreaks(Run(steps), step, mac);
  }

  lemma LeadsTwo(s: State, a: RequestStep, b: RequestStep)
    ensures Leads(s, ApplyRequest(ApplyRequest(s, a), b))
  {
    LeadsHere(s);
    LeadsRequest(s, s, a);
    LeadsRequest(s, ApplyRequest(s, a), b);
  }

  lemma HarmedLeads(s: State, step: RequestStep, mac: string)
    ensures Leads(s, Harmed(s, step, mac))
  {
    match step
    case MarkSent(id, fault) => LeadsTwo(s, step, Release(id));
    case History(id, written) => LeadsTwo(s, step, Release(id));
    case Record(id, fault) => LeadsTwo(s, step, Settle(id, mac));
    case _ => LeadsHere(s);
  }

  // Completing it again.

  predicate Captures(req: Request, pre: TranId, db: Db) {
    Completable(db, pre) && Sendable(req) && Names(req, pre) && req.amount <= db.tran[pre].req.amount
  }

  /** A completion of pre, up to its SENT write. */
  lemma Captured(start: State, s: State, req: Request, pre: TranId, fault: Fault) returns (after: State)
    requires Leads(start, s) && Captures(req, pre, s.db) && fault != Lost
    ensures Leads(start, after)
    ensures after.db.tran == s.db.tran[pre := s.db.tran[pre].(completedBy := Some(|s.db.tran|))] + [Tran(req, Sent, "", None)]
    ensures StageIs(after, |s.db.tran|, if fault == Fine then Marked else Releasing)
  {
    var id := |s.db.tran|;
    var looked := DoLookUp(s, pre, req.amount);
    LeadsRequest(start, s, LookUp(pre, req.amount));
    var claimed := DoInsertClaim(looked, req, pre);
    LeadsRequest(start, looked, InsertClaim(req, pre));
    assert claimed.db.tran == s.db.tran[pre := s.db.tran[pre].(completedBy := Some(id))] + [Tran(req, Created, "", None)];
    var attached := DoAttach(claimed, id, true);
    LeadsRequest(start, claimed, Attach(id, true));
    after := DoMarkSent(attached, id, fault);
    LeadsRequest(start, attached, MarkSent(id, fault));
  }

  /** So after any harmful fault another completion of the same pre-authorization can go out. */
  lemma HarmLetsTwo(s: State, step: Step, req: Request, mac: string) returns (after: State)
    requires Invariant(s) && ClaimsHold(s) && Harmful(s, step) && Sendable(req)
    requires s.db.tran[step.r.id].req.original.Some?
    requires Names(req, s.db.tran[step.r.id].req.original.value)
    requires req.original.value < |s.db.tran| && req.amount <= s.db.tran[req.original.value].req.amount
    ensures Leads(s, after)
    ensures var tran, first, second := after.db.tran, step.r.id, |s.db.tran|;
            && first < second && |tran| == second + 1 && MayHaveTaken(tran[first]) && MayHaveTaken(tran[second])
            && tran[first].req.original == tran[second].req.original
  {
    HarmedLeads(s, step.r, mac);
    HarmBreaks(s, step, mac);
    after := Captured(s, Harmed(s, step.r, mac), req, req.original.value, Fine);
  }

  // Both approved by the issuer.

  /** The sweeper queues a SENT completion's 0220, and the worker has it approved. */
  lemma RepeatApproved(start: State, s: State, c: TranId) returns (s': State)
    requires Leads(start, s) && s.worker == IDLE && c < |s.db.tran|
    requires s.db.tran[c].req.tranType == Completion && s.db.tran[c].status == Sent
    requires Sendable(s.db.tran[c].req) && s.db.tran[c].req.originalRrn != ""
    ensures Leads(start, s') && s'.worker == IDLE
    ensures s'.db.tran == s.db.tran[c := s.db.tran[c].(status := Approved, rc := RC_APPROVED)]
    ensures |s'.wire| == |s.wire| + 1 && s'.wire[|s.wire|].elements == CompletionAdvice(s.db.tran[c].req)
  {
    var req := s.db.tran[c].req;
    var swept := FollowUpLeads(start, s, c, req.sentAt.value.at + 1);
    CompletionRepeatIsTheSameMessage(req, "");
    assert swept.db.tran == s.db.tran[c := s.db.tran[c].(status := TimedOut)];
    assert swept.db.saf == s.db.saf + [NewAdvice(c, Completion0220, CompletionAdvice(req), "")];
    s' := AdviceApproved(start, swept, |s.db.saf|, c);
  }

  lemma AdviceApproved(start: State, s: State, i: SafId, c: TranId) returns (s': State)
    requires Leads(start, s) && s.worker == IDLE && i < |s.db.saf| && s.db.saf[i].tran == c < |s.db.tran|
    requires s.db.saf[i].advice == Completion0220 && s.db.saf[i].status == Pending && Stan(s.db.saf[i].fields) != ""
    requires s.db.tran[c].status == TimedOut
    ensures Leads(start, s') && s'.worker == IDLE
    ensures s'.db.tran == s.db.tran[c := s.db.tran[c].(status := Approved, rc := RC_APPROVED)]
    ensures |s'.wire| == |s.wire| + 1 && s'.wire[|s.wire|].elements == s.db.saf[i].fields
  {
    LeadsOn(start, s, OfWorker(Fetch([i])));
    var fetched := DoFetch(s, [i]);
    assert fetched.worker.batch[0] == Claim(i, s.db.saf[i].(status := InFlight)) && Working(fetched);
    LeadsOn(start, fetched, OfWorker(Name("", "")));
    var named := DoName(fetched, "", "");
    LeadsOn(start, named, OfWorker(Deliver(false)));
    var sent := DoDeliver(named, false);
    s' := HeardApproval(start, sent, i, c);
  }

  lemma HeardApproval(start: State, s: State, i: SafId, c: TranId) returns (s': State)
    requires Leads(start, s) && Working(s) && |s.worker.batch| == 1 && s.worker.batch[0].id == i && s.worker.stage.OnWire?
    requires s.db.saf[i].tran == c && s.db.saf[i].advice == Completion0220 && s.db.tran[c].status == TimedOut
    ensures Leads(start, s') && s'.worker == IDLE && s'.wire == s.wire
    ensures s'.db.tran == s.db.tran[c := s.db.tran[c].(status := Approved, rc := RC_APPROVED)]
  {
    LeadsOn(start, s, OfWorker(Hear(Reply(RC_APPROVED, true))));
    var heard := DoHear(s, Reply(RC_APPROVED, true));
    LeadsOn(start, heard, OfWorker(Conclude));
    s' := DoConclude(heard);
  }

  /**
   The worst case: from any approved pre-authorization nobody has completed, one SENT write that
   commits and fails leads to two different completions of it that the issuer both approved.
   */
  lemma BothApproved(s: State, first: Request, second: Request, pre: TranId) returns (after: State)
    requires Captures(first, pre, s.db) && Captures(second, pre, s.db)
    ensures Leads(s, after)
    ensures var tran, id := after.db.tran, |s.db.tran|;
            && |tran| == id + 2 && tran[id].req == first && tran[id + 1].req == second
            && tran[id].status == Approved && tran[id + 1].status == Approved
  {
    var id := |s.db.tran|;
    var both := BothSent(s, first, second, pre);
    LeadsOn(s, both, Crash);
    after := RepeatApproved(s, Apply(both, Crash), id);
    after := RepeatApproved(s, after, id + 1);
  }

  lemma BothSent(s: State, first: Request, second: Request, pre: TranId) returns (after: State)
    requires Captures(first, pre, s.db) && Captures(second, pre, s.db)
    ensures Leads(s, after)
    ensures var tran, id := after.db.tran, |s.db.tran|;
            && |tran| == id + 2 && tran[id] == Tran(first, Sent, "", None) && tran[id + 1] == Tran(second, Sent, "", None)
  {
    var id := |s.db.tran|;
    LeadsHere(s);
    var claimed := Captured(s, s, first, pre, Unsure);
    var freed := DoRelease(claimed, id);
    LeadsRequest(s, claimed, Release(id));
    assert freed.db.tran == claimed.db.tran[pre := claimed.db.tran[pre].(completedBy := None)];
    after := Captured(s, freed, second, pre, Fine);
  }

  /** Such a pre-authorization is reached from the empty tables. */
  lemma HoldIsReached(req: Request) returns (s: State)
    requires Sendable(req) && req.tranType == PreAuth
    ensures Leads(Init(), s) && Completable(s.db, 0) && s.db.tran[0].req == req
  {
    assert After(Init(), []) == Init();
    LeadsRequest(Init(), Init(), Insert(req));
    s := HoldSent(DoInsert(Init(), req), req);
    s := HoldAnswered(s, req);
  }

  lemma HoldSent(s: State, req: Request) returns (s': State)
    requires Leads(Init(), s) && s.db.tran == [Tran(req, Created, "", None)] && StageIs(s, 0, Inserted)
    ensures Leads(Init(), s') && s'.db.tran == [Tran(req, Sent, "", None)] && StageIs(s', 0, Ready)
  {
    LeadsRequest(Init(), s, Attach(0, true));
    s' := DoAttach(s, 0, true);
    LeadsRequest(Init(), s', MarkSent(0, Fine));
    s' := DoMarkSent(s', 0, Fine);
    LeadsRequest(Init(), s', History(0, true));
    s' := DoHistory(s', 0, true);
  }

  lemma HoldAnswered(s: State, req: Request) returns (s': State)
    requires s.db.tran == [Tran(req, Sent, "", None)] && StageIs(s, 0, Ready) && req.tranType == PreAuth && Leads(Init(), s)
    ensures Leads(Init(), s') && s'.db.tran == [Tran(req, Approved, RC_APPROVED, None)]
  {
    LeadsRequest(Init(), s, Transmit(0, false));
    s' := DoTransmit(s, 0, false);
    LeadsRequest(Init(), s', Receive(0, Answer(RC_APPROVED, true)));
    s' := HoldRecorded(DoReceive(s', 0, Answer(RC_APPROVED, true)), req);
  }

  lemma HoldRecorded(s: State, req: Request) returns (s': State)
    requires s.db.tran == [Tran(req, Sent, "", None)] && StageIs(s, 0, Answered(Answer(RC_APPROVED, true)))
    requires req.tranType == PreAuth && Leads(Init(), s)
    ensures Leads(Init(), s') && s'.db.tran == [Tran(req, Approved, RC_APPROVED, None)]
  {
    LeadsRequest(Init(), s, Record(0, Fine));
    s' := DoRecord(s, 0, Fine);
  }
}

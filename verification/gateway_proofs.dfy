/**
 What holds in every state the gateway can reach, whatever interleaves, crashes or fails.
 */
module GatewayProofs {
  import opened Store
  import opened Gateway

  // The invariant of requests, sweeper and cancellations.

  ghost predicate RequestFits(s: State, id: TranId) {
    && id in s.requests && id < |s.db.tran| && Sendable(s.db.tran[id].req)
    && match s.requests[id]
       case Inserted => s.db.tran[id].status == Created && id !in s.reached
       case Attached => s.db.tran[id].status == Created && id !in s.reached
       case Marked => s.db.tran[id].status != Created && id !in s.reached
       case Ready => s.db.tran[id].status != Created && id !in s.reached
       case Waiting => id in s.reached
       case Answered(o) => (id in s.reached <==> !o.Refused?) && s.db.tran[id].status != Created
       case Recorded(o, current) =>
         (id in s.reached <==> !o.Refused?) && (current == Sent || current == VerdictOf(s.db.tran[id].req.tranType, o).status)
       case Releasing => true
  }

  /** A request that may be at the issuer without a recorded verified answer, and what covers it. */
  ghost predicate Covered(db: Db, id: TranId)
    requires id < |db.tran|
  {
    var row := db.tran[id];
    || HasAdvice(db, id)
    || row.status == Sent
    || row.status == TimedOut
    || (row.status == Declined && row.rc == RC_MAC_FAILURE && row.req.tranType != Completion)
  }

  /** The request may be at the issuer, or is about to be sent. */
  ghost predicate Exposed(s: State, id: TranId) {
    id in s.reached || (id in s.requests && (s.requests[id].Marked? || s.requests[id].Ready?))
  }

  ghost predicate ReachedFits(s: State, id: TranId) {
    && id < |s.db.tran| && Sendable(s.db.tran[id].req) && s.db.tran[id].status != Created
    && (id !in s.settled && s.db.tran[id].req.tranType != Balance ==> Covered(s.db, id))
  }

  ghost predicate TaskFits(s: State, task: Task) {
    && task.id < |s.db.tran|
    && (task.status == Sent || task.status == TimedOut
        || (task.status == Declined && s.db.tran[task.id].req.tranType != Completion))
  }

  ghost predicate CancelFits(s: State, id: TranId) {
    id < |s.db.tran| && s.db.tran[id].req.tranType == Purchase
  }

  ghost predicate RequestsFit(s: State) {
    forall id :: id in s.requests ==> RequestFits(s, id)
  }

  ghost predicate AllReachedFit(s: State) {
    forall id: TranId :: Exposed(s, id) ==> ReachedFits(s, id)
  }

  ghost predicate TasksFit(s: State) {
    && (forall task :: task in s.tasks ==> TaskFits(s, task))
    && (forall id :: id in s.cancels ==> CancelFits(s, id))
  }

  ghost predicate Sound(s: State) {
    ReversalsMatch(s.db) && RequestsFit(s) && AllReachedFit(s) && TasksFit(s)
  }

  // A statement about one row leaves the others' facts alone.

  /** after is before with new rows, advices only added or updated in place, and other rows as they were. */
  ghost predicate OnlyRow(before: Db, after: Db, id: TranId) {
    && |before.tran| <= |after.tran|
    && (forall k: TranId :: k < |before.tran| ==> after.tran[k].req == before.tran[k].req)
    && (forall k: TranId :: k < |before.tran| && k != id ==>
          after.tran[k].status == before.tran[k].status && after.tran[k].rc == before.tran[k].rc)
    && |before.saf| <= |after.saf|
    && (forall i: SafId :: i < |before.saf| ==> after.saf[i].tran == before.saf[i].tran)
  }

  lemma AdviceKept(before: Db, after: Db, id: TranId, k: TranId)
    requires OnlyRow(before, after, id) && HasAdvice(before, k)
    ensures HasAdvice(after, k)
  {
    var i :| 0 <= i < |before.saf| && before.saf[i].tran == k;
    assert after.saf[i].tran == k;
  }

  /** Everything but row id keeps what it had, when only that row's process moved. */
  lemma OthersKeep(s: State, s': State, id: TranId)
    requires Sound(s) && OnlyRow(s.db, s'.db, id)
    requires forall k :: k in s'.requests && k != id ==> k in s.requests && s'.requests[k] == s.requests[k]
    requires forall k :: k in s'.reached <==> k in s.reached || (k == id && k in s'.reached)
    requires forall k :: k in s.settled ==> k in s'.settled
    requires s'.tasks <= s.tasks + {Task(id, TimedOut)}
    requires s'.cancels <= s.cancels
    requires id < |s'.db.tran|
    requires ReversalsMatch(s'.db)
    requires id in s'.requests ==> RequestFits(s', id)
    requires Exposed(s', id) ==> ReachedFits(s', id)
    ensures Sound(s')
  {
    forall k | k in s'.requests ensures RequestFits(s', k) {
      if k != id {
        assert RequestFits(s, k);
      }
    }
    forall k: TranId | Exposed(s', k) ensures ReachedFits(s', k) {
      if k != id {
        assert Exposed(s, k) && ReachedFits(s, k);
        if HasAdvice(s.db, k) {
          AdviceKept(s.db, s'.db, id, k);
        }
      }
    }
    forall task | task in s'.tasks ensures TaskFits(s', task) {
      if task in s.tasks {
        assert TaskFits(s, task);
      }
    }
    forall k | k in s'.cancels ensures CancelFits(s', k) {
      assert CancelFits(s, k);
    }
  }

  lemma InsertSound(s: State, req: Request)
    requires Sound(s)
    ensures Sound(DoInsert(s, req)) && Sound(DoLinkDown(s, req))
  {
    NewIdIsFree(s);
    var created, down := Tran(req, Created, "", None), Tran(req, Declined, RC_LINK_DOWN, None);
    InsertKeeps(s.db, created);
    InsertKeeps(s.db, down);
    if DoInsert(s, req) != s {
      OthersKeep(s, DoInsert(s, req), |s.db.tran|);
    }
    if DoLinkDown(s, req) != s {
      OthersKeep(s, DoLinkDown(s, req), |s.db.tran|);
    }
  }

  lemma NewIdIsFree(s: State)
    requires Sound(s)
    ensures |s.db.tran| !in s.reached && |s.db.tran| !in s.requests
  {
    var id := |s.db.tran|;
    assert Exposed(s, id) ==> ReachedFits(s, id);
    assert id in s.requests ==> RequestFits(s, id);
  }

  lemma InsertClaimSound(s: State, req: Request, preAuth: TranId)
    requires Sound(s)
    ensures Sound(DoInsertClaim(s, req, preAuth))
  {
    var s', row := DoInsertClaim(s, req, preAuth), Tran(req, Created, "", None);
    if s' != s {
      NewIdIsFree(s);
      ClaimKeeps(s.db, row, preAuth);
      ClaimOnlyAdds(s.db, row, preAuth);
      OthersKeep(s, s', |s.db.tran|);
    }
  }

  lemma ClaimOnlyAdds(db: Db, row: Tran, preAuth: TranId)
    requires Completable(db, preAuth)
    ensures var after := InsertCompletion(db, row, preAuth);
            OnlyRow(db, after, |db.tran|) && |after.tran| == |db.tran| + 1 && after.tran[|db.tran|] == row && after.saf == db.saf
  {
  }

  /** A step that moves only one request's stage. */
  lemma StageSound(s: State, s': State, id: TranId)
    requires Sound(s) && s'.db == s.db && s'.settled == s.settled && s'.tasks == s.tasks && s'.cancels == s.cancels
    requires id < |s.db.tran| && s'.reached == s.reached
    requires forall k :: k in s'.requests && k != id ==> k in s.requests && s'.requests[k] == s.requests[k]
    requires id in s'.requests ==> RequestFits(s', id)
    requires Exposed(s', id) ==> Exposed(s, id)
    ensures Sound(s')
  {
    if Exposed(s, id) {
      assert ReachedFits(s, id);
    }
    OthersKeep(s, s', id);
  }

  lemma AttachSound(s: State, id: TranId, attached: bool, written: bool)
    requires Sound(s)
    ensures Sound(DoAttach(s, id, attached)) && Sound(DoHistory(s, id, written))
  {
    if id in s.requests {
      assert RequestFits(s, id);
    }
    if DoAttach(s, id, attached) != s {
      StageSound(s, DoAttach(s, id, attached), id);
    }
    if DoHistory(s, id, written) != s {
      StageSound(s, DoHistory(s, id, written), id);
    }
  }

  lemma TransmitSound(s: State, id: TranId, refused: bool)
    requires Sound(s)
    ensures Sound(DoTransmit(s, id, refused))
  {
    if StageIs(s, id, Ready) {
      assert RequestFits(s, id);
      assert Exposed(s, id) && ReachedFits(s, id);
      OthersKeep(s, DoTransmit(s, id, refused), id);
    }
  }

  lemma ReceiveSound(s: State, id: TranId, outcome: Outcome)
    requires Sound(s)
    ensures Sound(DoReceive(s, id, outcome))
  {
    if StageIs(s, id, Waiting) && !outcome.Refused? {
      assert RequestFits(s, id);
      assert Exposed(s, id) && ReachedFits(s, id);
      StageSound(s, DoReceive(s, id, outcome), id);
    }
  }

  lemma MarkSentSound(s: State, id: TranId, fault: Fault)
    requires Sound(s)
    ensures Sound(DoMarkSent(s, id, fault))
  {
    if StageIs(s, id, Attached) {
      assert RequestFits(s, id);
      match fault
      case Lost => StageSound(s, Abort(s, id), id);
      case _ => SentWriteSound(s, DoMarkSent(s, id, fault), id);
    }
  }

  /** The row became SENT, and its request went on or gave up. */
  lemma SentWriteSound(s: State, s': State, id: TranId)
    requires Sound(s) && StageIs(s, id, Attached) && s.db.tran[id].status == Created && id !in s.reached
    requires s'.db == UpdateStatus(s.db, id, Sent, "") && s'.reached == s.reached && s'.settled == s.settled
    requires s'.tasks == s.tasks && s'.cancels == s.cancels
    requires forall k :: k in s'.requests && k != id ==> k in s.requests && s'.requests[k] == s.requests[k]
    requires id in s'.requests ==> s'.requests[id].Marked? || s'.requests[id].Releasing?
    ensures Sound(s')
  {
    assert RequestFits(s, id);
    UpdateStatusKeeps(s.db, id, Sent, "");
    OthersKeep(s, s', id);
  }

  /** A guarded move between states that owe no 0420. */
  lemma MovedFrom(db: Db, id: TranId, from: Status, status: Status, rc: string)
    requires ReversalsMatch(db) && id < |db.tran| && !Unwound(from) && !Unwound(status)
    ensures var after := UpdateStatusFrom(db, id, from, status, rc);
            ReversalsMatch(after) && OnlyRow(db, after, id) && after.saf == db.saf && |after.tran| == |db.tran|
  {
    if db.tran[id].status == from {
      UpdateStatusKeeps(db, id, status, rc);
    }
  }

  lemma RecordSound(s: State, id: TranId, fault: Fault)
    requires Sound(s)
    ensures Sound(DoRecord(s, id, fault))
  {
    if id in s.requests && s.requests[id].Answered? && id < |s.db.tran| {
      var o := s.requests[id].outcome;
      assert RequestFits(s, id);
      if fault == Lost {
        StageSound(s, At(s, id, Recorded(o, Sent)), id);
      } else if fault == Unsure {
        WriteSound(s, id, o, Sent);
      } else if s.db.tran[id].status == Sent {
        WriteSound(s, id, o, VerdictOf(s.db.tran[id].req.tranType, o).status);
      } else {
        StageSound(s, End(s, id), id);
      }
    }
  }

  lemma WriteSound(s: State, id: TranId, o: Outcome, current: Status)
    requires Sound(s) && StageIs(s, id, Answered(o))
    requires current == Sent || current == VerdictOf(s.db.tran[id].req.tranType, o).status
    ensures Sound(Written(s, id, o, current))
  {
    var v := VerdictOf(s.db.tran[id].req.tranType, o);
    var s' := Written(s, id, o, current);
    assert RequestFits(s, id);
    MovedFrom(s.db, id, Sent, v.status, v.rc);
    if id in s.reached {
      assert Exposed(s, id) && ReachedFits(s, id);
      RecordedCovered(s, id, o, v, s');
    }
    OthersKeep(s, s', id);
  }

  lemma RecordedCovered(s: State, id: TranId, o: Outcome, v: Verdict, s': State)
    requires ReachedFits(s, id) && id < |s.db.tran| && v == VerdictOf(s.db.tran[id].req.tranType, o) && !o.Refused?
    requires || (s'.db == s.db && s'.settled == s.settled)
             || (s'.db == UpdateStatusFrom(s.db, id, Sent, v.status, v.rc)
              && s'.settled == (if s.db.tran[id].status == Sent && o.Answer? && o.macOk then s.settled + {id} else s.settled))
    ensures ReachedFits(s', id)
  {
    if HasAdvice(s.db, id) {
      AdviceKept(s.db, s'.db, id, id);
    }
  }

  lemma ReleaseOnlyClaims(db: Db, id: TranId)
    requires id < |db.tran| && ReversalsMatch(db)
    ensures OnlyRow(db, FreeClaimOf(db, id), id) && ReversalsMatch(FreeClaimOf(db, id))
    ensures FreeClaimOf(db, id).tran[id].status == db.tran[id].status && FreeClaimOf(db, id).tran[id].rc == db.tran[id].rc
    ensures FreeClaimOf(db, id).saf == db.saf
  {
    if db.tran[id].req.original.Some? {
      ReleaseKeeps(db, db.tran[id].req.original.value, id);
    }
  }

  /** A queued advice covers its transaction. */
  lemma QueuedCovers(db: Db, after: Db, id: TranId)
    requires |after.saf| == |db.saf| + 1 && after.saf[|db.saf|].tran == id && id < |after.tran|
    ensures HasAdvice(after, id)
  {
  }

  lemma ReleaseSound(s: State, id: TranId)
    requires Sound(s)
    ensures Sound(DoRelease(s, id))
  {
    if StageIs(s, id, Releasing) {
      ReleaseOnlyClaims(s.db, id);
      SameOrQueued(s, DoRelease(s, id), id);
      OthersKeep(s, DoRelease(s, id), id);
    }
  }

  lemma SettleSound(s: State, id: TranId, mac: string)
    requires Sound(s)
    ensures Sound(DoSettle(s, id, mac))
  {
    if id in s.requests && s.requests[id].Recorded? && id < |s.db.tran| {
      assert RequestFits(s, id);
      var s' := DoSettle(s, id, mac);
      SettledDb(s.db, id, s.requests[id].outcome, s.requests[id].current, mac);
      SameOrQueued(s, s', id);
      OthersKeep(s, s', id);
    }
  }

  /** The row kept its state and advices, or got one more advice. */
  ghost predicate SameOrQueuedRow(db: Db, after: Db, id: TranId)
    requires id < |db.tran| && id < |after.tran|
  {
    || (after.saf == db.saf && after.tran[id].status == db.tran[id].status && after.tran[id].rc == db.tran[id].rc)
    || (|after.saf| == |db.saf| + 1 && after.saf[|db.saf|].tran == id
        && (after.tran[id].status == Created ==> db.tran[id].status == Created))
  }

  lemma QueueReversalRow(db: Db, id: TranId, from: Status, reason: string)
    requires id < |db.tran|
    ensures OnlyRow(db, QueueReversal(db, id, from, reason), id)
    ensures SameOrQueuedRow(db, QueueReversal(db, id, from, reason), id)
  {
  }

  lemma QueueAdviceRow(db: Db, id: TranId, sent: Elements)
    requires id < |db.tran|
    ensures OnlyRow(db, QueueAdvice(db, id, sent), id)
    ensures SameOrQueuedRow(db, QueueAdvice(db, id, sent), id)
  {
  }

  lemma SettledDb(db: Db, id: TranId, o: Outcome, current: Status, mac: string)
    requires ReversalsMatch(db) && id < |db.tran| && !Unwound(current)
    ensures var after := Settled(db, id, o, current, mac);
            ReversalsMatch(after) && OnlyRow(db, after, id) && SameOrQueuedRow(db, after, id)
  {
    var req := db.tran[id].req;
    match FollowUpOf(req.tranType, VerdictOf(req.tranType, o))
    case Nothing =>
    case FreeClaim => ReleaseOnlyClaims(db, id);
    case Repeat =>
      if req.sentAt.Some? {
        QueueAdviceKeeps(db, id, CompletionMessage(req, mac));
        QueueAdviceRow(db, id, CompletionMessage(req, mac));
      }
    case Reverse(reason) =>
      QueueReversalKeeps(db, id, current, reason);
      QueueReversalRow(db, id, current, reason);
  }

  lemma FollowedDb(db: Db, id: TranId, status: Status)
    requires ReversalsMatch(db) && id < |db.tran|
    ensures var after := Followed(db, id, status);
            ReversalsMatch(after) && OnlyRow(db, after, id) && SameOrQueuedRow(db, after, id)
  {
    var req := db.tran[id].req;
    if status == Declined {
      QueueReversalKeeps(db, id, Declined, REASON_MAC_FAILURE);
      QueueReversalRow(db, id, Declined, REASON_MAC_FAILURE);
    } else if req.tranType == Completion {
      if req.sentAt.Some? {
        QueueAdviceKeeps(db, id, CompletionAdvice(req));
        QueueAdviceRow(db, id, CompletionAdvice(req));
      }
    } else {
      QueueReversalKeeps(db, id, TimedOut, REASON_TIMEOUT);
      QueueReversalRow(db, id, TimedOut, REASON_TIMEOUT);
    }
  }

  lemma SameOrQueued(s: State, s': State, id: TranId)
    requires Sound(s) && id < |s.db.tran| && OnlyRow(s.db, s'.db, id)
    requires s'.reached == s.reached && s'.settled == s.settled
    requires SameOrQueuedRow(s.db, s'.db, id)
    requires Exposed(s', id) ==> Exposed(s, id)
    ensures Exposed(s', id) ==> ReachedFits(s', id)
  {
    if Exposed(s', id) {
      assert ReachedFits(s, id);
      if |s'.db.saf| == |s.db.saf| + 1 && s'.db.saf[|s.db.saf|].tran == id {
        QueuedCovers(s.db, s'.db, id);
      } else if HasAdvice(s.db, id) {
        AdviceKept(s.db, s'.db, id, id);
      }
    }
  }

  lemma CancelQueueSound(s: State, id: TranId)
    requires Sound(s)
    ensures Sound(DoCancelQueue(s, id))
  {
    if id in s.cancels {
      assert CancelFits(s, id);
      var s' := DoCancelQueue(s, id);
      QueueReversalKeeps(s.db, id, Approved, REASON_CANCELLATION);
      QueueReversalRow(s.db, id, Approved, REASON_CANCELLATION);
      ApprovedRequest(s, s', id);
      SameOrQueued(s, s', id);
      OthersKeep(s, s', id);
    }
  }

  /** A request whose row moved on keeps its own place. */
  lemma ApprovedRequest(s: State, s': State, id: TranId)
    requires RequestsFit(s) && id < |s.db.tran| && id < |s'.db.tran| && s'.db.tran[id].req == s.db.tran[id].req
    requires s'.requests == s.requests && s'.reached == s.reached
    requires s'.db.tran[id].status == s.db.tran[id].status || (s.db.tran[id].status != Created && s'.db.tran[id].status != Created)
    ensures id in s'.requests ==> RequestFits(s', id)
  {
    if id in s.requests {
      assert RequestFits(s, id);
    }
  }

  /** Reading adds to what a process knows, and changes no row. */
  lemma ReadSound(s: State, s': State)
    requires Sound(s) && s'.db == s.db && s'.requests == s.requests && s'.reached == s.reached && s'.settled == s.settled
    requires forall task :: task in s'.tasks && task !in s.tasks ==> TaskFits(s, task)
    requires forall id :: id in s'.cancels && id !in s.cancels ==> CancelFits(s, id)
    ensures Sound(s')
  {
    forall k | k in s'.requests ensures RequestFits(s', k) {
      assert RequestFits(s, k);
    }
    forall k: TranId | Exposed(s', k) ensures ReachedFits(s', k) {
      assert Exposed(s, k) && ReachedFits(s, k);
    }
    forall task | task in s'.tasks ensures TaskFits(s', task) {
      assert TaskFits(s, task);
    }
    forall k | k in s'.cancels ensures CancelFits(s', k) {
      assert CancelFits(s, k);
    }
  }

  lemma FindSound(s: State, cutoff: int, ids: set<TranId>)
    requires Sound(s)
    ensures Sound(DoFind(s, cutoff, ids))
  {
    var s' := DoFind(s, cutoff, ids);
    forall task | task in s'.tasks && task !in s.tasks ensures TaskFits(s, task) {
      assert IsOrphan(s.db, task.id, cutoff);
    }
    ReadSound(s, s');
  }

  lemma TimeOutSound(s: State, id: TranId)
    requires Sound(s)
    ensures Sound(DoTimeOut(s, id))
  {
    if Task(id, Sent) in s.tasks && id < |s.db.tran| {
      var s' := DoTimeOut(s, id);
      if s.db.tran[id].status == Sent {
        UpdateStatusKeeps(s.db, id, TimedOut, s.db.tran[id].rc);
      }
      ApprovedRequest(s, s', id);
      if Exposed(s, id) {
        assert ReachedFits(s, id);
        if HasAdvice(s.db, id) {
          AdviceKept(s.db, s'.db, id, id);
        }
      }
      OthersKeep(s, s', id);
    }
  }

  lemma FollowSound(s: State, id: TranId, status: Status)
    requires Sound(s)
    ensures Sound(DoFollow(s, id, status))
  {
    if Task(id, status) in s.tasks && status != Sent && id < |s.db.tran| {
      assert TaskFits(s, Task(id, status));
      var s' := DoFollow(s, id, status);
      FollowedDb(s.db, id, status);
      FollowedFrom(s.db, id, status);
      ApprovedRequest(s, s', id);
      SameOrQueued(s, s', id);
      OthersKeep(s, s', id);
    }
  }

  lemma FollowedFrom(db: Db, id: TranId, status: Status)
    requires id < |db.tran|
    ensures var after := Followed(db, id, status).tran[id].status;
            after == db.tran[id].status || (db.tran[id].status != Created && after == ReversalPending)
  {
  }

  /** The steps of a request before its send. */
  predicate BeforeSend(step: RequestStep) {
    step.LinkDown? || step.Insert? || step.LookUp? || step.InsertClaim? || step.Attach? || step.MarkSent? || step.History?
  }

  lemma SendingSound(s: State, step: RequestStep)
    requires Sound(s) && BeforeSend(step)
    ensures Sound(ApplyRequest(s, step))
  {
    match step
    case LinkDown(req) => InsertSound(s, req);
    case Insert(req) => InsertSound(s, req);
    case LookUp(preAuth, amount) => ReadSound(s, DoLookUp(s, preAuth, amount));
    case InsertClaim(req, preAuth) => InsertClaimSound(s, req, preAuth);
    case Attach(id, attached) => AttachSound(s, id, attached, true);
    case MarkSent(id, fault) => MarkSentSound(s, id, fault);
    case History(id, written) => AttachSound(s, id, true, written);
  }

  lemma SentSound(s: State, step: RequestStep)
    requires Sound(s) && !BeforeSend(step)
    ensures Sound(ApplyRequest(s, step))
  {
    match step
    case Transmit(id, refused) => TransmitSound(s, id, refused);
    case Receive(id, outcome) => ReceiveSound(s, id, outcome);
    case Record(id, fault) => RecordSound(s, id, fault);
    case Settle(id, mac) => SettleSound(s, id, mac);
    case Release(id) => ReleaseSound(s, id);
    case CancelRead(id) => ReadSound(s, DoCancelRead(s, id));
    case CancelQueue(id) => CancelQueueSound(s, id);
  }

  lemma RequestSound(s: State, step: RequestStep)
    requires Sound(s)
    ensures Sound(ApplyRequest(s, step))
  {
    if BeforeSend(step) {
      SendingSound(s, step);
    } else {
      SentSound(s, step);
    }
  }

  lemma SweepSound(s: State, step: SweepStep)
    requires Sound(s)
    ensures Sound(ApplySweep(s, step))
  {
    match step
    case Find(cutoff, ids) => FindSound(s, cutoff, ids);
    case TimeOut(id) => TimeOutSound(s, id);
    case Follow(id, status) => FollowSound(s, id, status);
  }

  // The worker.

  /** The snapshot a claim holds is the row's, but for the payload once the worker has named it. */
  ghost predicate ClaimFits(s: State, k: nat)
    requires k < |s.worker.batch|
  {
    var c := s.worker.batch[k];
    && c.id < |s.db.saf|
    && s.db.saf[c.id].status == InFlight
    && (k > 0 || s.worker.stage.Fetched? ==> s.db.saf[c.id] == c.row)
    && s.db.saf[c.id].(fields := c.row.fields) == c.row
  }

  ghost predicate NoSend(s: State, id: SafId) {
    forall j :: 0 <= j < |s.wire| ==> s.wire[j].id != id
  }

  ghost predicate StageFits(s: State) {
    s.worker.batch != [] && s.worker.batch[0].id < |s.db.saf| ==>
      var id := s.worker.batch[0].id;
      match s.worker.stage
      case Fetched => true
      case Named(fields, repeat) =>
        s.db.saf[id].fields == fields && Stan(fields) != "" && (!repeat ==> NoSend(s, id))
      case OnWire => Stan(s.db.saf[id].fields) != ""
      case Replied(reply) =>
        Stan(s.db.saf[id].fields) != "" && (reply.Reply? ==> Response(id, reply.rc, reply.macOk) in s.responses)
  }

  ghost predicate BatchFits(s: State) {
    && (forall k :: 0 <= k < |s.worker.batch| ==> ClaimFits(s, k))
    && (forall k, l :: 0 <= k < l < |s.worker.batch| ==> s.worker.batch[k].id < s.worker.batch[l].id)
    && StageFits(s)
  }

  /** Every send carried the payload the row still has, and only the first one can be the plain advice. */
  ghost predicate WireFits(s: State) {
    && (forall j :: 0 <= j < |s.wire| ==>
          && s.wire[j].id < |s.db.saf|
          && Stan(s.db.saf[s.wire[j].id].fields) != ""
          && s.wire[j].elements == s.db.saf[s.wire[j].id].fields
          && s.wire[j].cardToken == s.db.saf[s.wire[j].id].cardToken)
    && (forall i, j :: 0 <= i < j < |s.wire| && s.wire[i].id == s.wire[j].id ==> s.wire[j].repeat)
  }

  ghost predicate AcksFit(s: State) {
    forall i: SafId :: i < |s.db.saf| && s.db.saf[i].status == Acked ==> Response(i, RC_APPROVED, true) in s.responses
  }

  ghost predicate CountFits(s: State, i: SafId)
    requires i < |s.db.saf|
  {
    var row := s.db.saf[i];
    && row.attempts < row.maxAttempts
    && s.counted[i] == (if i in s.exhausted then row.maxAttempts else row.attempts)
    && (i in s.exhausted ==> row.status == Dead && row.attempts == row.maxAttempts - 1)
  }

  ghost predicate CountsFit(s: State) {
    && (forall i: SafId :: i < |s.db.saf| ==> CountFits(s, i))
    && (forall i: SafId :: i >= |s.db.saf| ==> s.counted[i] == 0 && i !in s.exhausted)
  }

  ghost predicate Delivering(s: State) {
    BatchFits(s) && WireFits(s) && AcksFit(s) && CountsFit(s)
  }

  /** Steps of requests and sweeper only append fresh advices. */
  ghost predicate OnlyAppends(s: State, s': State) {
    && |s.db.saf| <= |s'.db.saf|
    && (forall i :: 0 <= i < |s.db.saf| ==> s'.db.saf[i] == s.db.saf[i])
    && (forall i :: |s.db.saf| <= i < |s'.db.saf| ==>
          s'.db.saf[i].status == Pending && s'.db.saf[i].attempts == 0 && s'.db.saf[i].maxAttempts == MAX_ATTEMPTS)
    && s'.worker == s.worker && s'.wire == s.wire && s'.responses == s.responses
    && s'.counted == s.counted && s'.exhausted == s.exhausted
  }

  lemma AppendsDeliver(s: State, s': State)
    requires Delivering(s) && OnlyAppends(s, s')
    ensures Delivering(s')
  {
    forall k | 0 <= k < |s'.worker.batch| ensures ClaimFits(s', k) {
      assert ClaimFits(s, k);
    }
    assert StageFits(s') by {
      if s.worker.batch != [] {
        assert ClaimFits(s, 0);
        assert s.worker.stage.Named? ==> (NoSend(s, s.worker.batch[0].id) <==> NoSend(s', s.worker.batch[0].id));
      }
    }
    forall i: SafId | i < |s'.db.saf| ensures CountFits(s', i) {
      if i < |s.db.saf| {
        assert CountFits(s, i);
      }
    }
  }

  lemma RequestOnlyAppends(s: State, step: RequestStep)
    ensures OnlyAppends(s, ApplyRequest(s, step))
  {
    match step
    case Settle(id, mac) => SettleOnlyAppends(s, id, mac);
    case Release(id) => SettleOnlyAppends(s, id, "");
    case CancelQueue(id) => CancelOnlyAppends(s, id);
    case Record(id, fault) => RecordOnlyAppends(s, id, fault);
    case _ => EarlyOnlyAppends(s, step);
  }

  lemma SettleOnlyAppends(s: State, id: TranId, mac: string)
    ensures OnlyAppends(s, DoSettle(s, id, mac)) && OnlyAppends(s, DoRelease(s, id))
  {
  }

  lemma CancelOnlyAppends(s: State, id: TranId)
    ensures OnlyAppends(s, DoCancelQueue(s, id))
  {
  }

  lemma RecordOnlyAppends(s: State, id: TranId, fault: Fault)
    ensures OnlyAppends(s, DoRecord(s, id, fault))
  {
  }

  lemma EarlyOnlyAppends(s: State, step: RequestStep)
    requires !step.Settle? && !step.Release? && !step.CancelQueue? && !step.Record?
    ensures OnlyAppends(s, ApplyRequest(s, step))
  {
    if step.Insert? || step.InsertClaim? || step.LinkDown? || step.MarkSent? {
      RowOnlyAppends(s, step);
    }
  }

  lemma RowOnlyAppends(s: State, step: RequestStep)
    requires step.Insert? || step.InsertClaim? || step.LinkDown? || step.MarkSent?
    ensures OnlyAppends(s, ApplyRequest(s, step))
  {
  }

  lemma SweepOnlyAppends(s: State, step: SweepStep)
    ensures OnlyAppends(s, ApplySweep(s, step))
  {
  }

  // Worker steps on the tables.

  lemma ClaimDueKeeps(db: Db, ids: seq<SafId>)
    requires ReversalsMatch(db) && Claimables(db, ids)
    ensures ReversalsMatch(ClaimDue(db, ids))
  {
    var after := ClaimDue(db, ids);
    assert forall i :: 0 <= i < |db.saf| ==> after.saf[i].advice == db.saf[i].advice && after.saf[i].tran == db.saf[i].tran;
    assert forall i :: 0 <= i < |db.saf| ==> (after.saf[i].status == Acked <==> db.saf[i].status == Acked);
    CarryWitness(db, after);
  }

  /** The worker touches advices, and on an ACK one transaction its advice covers. */
  lemma WorkerRowSound(s: State, s': State, id: TranId)
    requires Sound(s) && id < |s.db.tran| && HasAdvice(s.db, id)
    requires OnlyRow(s.db, s'.db, id) && |s'.db.tran| == |s.db.tran| && ReversalsMatch(s'.db)
    requires s'.db.tran[id].status == s.db.tran[id].status || (s.db.tran[id].status != Created && s'.db.tran[id].status != Created)
    requires s'.requests == s.requests && s'.reached == s.reached && s'.settled == s.settled
    requires s'.tasks == s.tasks && s'.cancels == s.cancels
    ensures Sound(s')
  {
    AdviceKept(s.db, s'.db, id, id);
    ApprovedRequest(s, s', id);
    if Exposed(s', id) {
      assert Exposed(s, id) && ReachedFits(s, id);
    }
    OthersKeep(s, s', id);
  }

  lemma FetchSound(s: State, ids: seq<SafId>)
    requires Sound(s)
    ensures Sound(DoFetch(s, ids))
  {
    if s.worker.batch == [] && Claimables(s.db, ids) {
      ClaimDueKeeps(s.db, ids);
      RowsUntouched(s, DoFetch(s, ids));
    }
  }

  lemma RowsUntouched(s: State, s': State)
    requires Sound(s) && ReversalsMatch(s'.db) && s'.db.tran == s.db.tran
    requires |s'.db.saf| == |s.db.saf| && forall i: SafId :: i < |s.db.saf| ==> s'.db.saf[i].tran == s.db.saf[i].tran
    requires s'.requests == s.requests && s'.reached == s.reached && s'.settled == s.settled
    requires s'.tasks == s.tasks && s'.cancels == s.cancels
    ensures Sound(s')
  {
    forall k | k in s'.requests ensures RequestFits(s', k) {
      assert RequestFits(s, k);
    }
    forall k: TranId | Exposed(s', k) ensures ReachedFits(s', k) {
      assert Exposed(s, k) && ReachedFits(s, k);
      if HasAdvice(s.db, k) {
        AdviceKept(s.db, s'.db, k, k);
      }
    }
    forall task | task in s'.tasks ensures TaskFits(s', task) {
      assert TaskFits(s, task);
    }
    forall k | k in s'.cancels ensures CancelFits(s', k) {
      assert CancelFits(s, k);
    }
  }

  /** An update of one unacknowledged advice in place. */
  lemma UpdatedSound(s: State, s': State, i: SafId, row: Saf)
    requires Sound(s) && i < |s.db.saf| && s.db.saf[i].status != Acked
    requires row.tran == s.db.saf[i].tran && row.advice == s.db.saf[i].advice && row.status != Acked
    requires s'.db == SetSaf(s.db, i, row)
    requires s'.requests == s.requests && s'.reached == s.reached && s'.settled == s.settled
    requires s'.tasks == s.tasks && s'.cancels == s.cancels
    ensures Sound(s')
  {
    SetSafKeeps(s.db, i, row);
    RowsUntouched(s, s');
  }

  lemma AckedAdvice(db: Db, i: SafId)
    requires ReversalsMatch(db) && i < |db.saf| && db.saf[i].status != Acked
    ensures ReversalsMatch(MarkAcked(db, i)) && OnlyRow(db, MarkAcked(db, i), db.saf[i].tran)
    ensures |MarkAcked(db, i).tran| == |db.tran|
    ensures HasAdvice(db, db.saf[i].tran)
    ensures var id := db.saf[i].tran;
            MarkAcked(db, i).tran[id].status == db.tran[id].status
            || (db.tran[id].status != Created && MarkAcked(db, i).tran[id].status != Created)
  {
    MarkAckedKeeps(db, i);
  }

  lemma NameSound(s: State, stan: string, de7: string)
    requires Sound(s) && Delivering(s) && Working(s)
    ensures Sound(DoName(s, stan, de7))
  {
    assert ClaimFits(s, 0);
    var id, row := s.worker.batch[0].id, s.worker.batch[0].row;
    var now := s.db.saf[id];
    var s' := DoName(s, stan, de7);
    if !s.worker.stage.Fetched? || Stan(row.fields) != "" {
      RowsUntouched(s, s');
    } else if stan == "" {
      UpdatedSound(s, s', id, now.(status := InFlight, attempts := row.attempts));
    } else {
      UpdatedSound(s, s', id, now.(fields := row.fields[11 := stan][7 := de7]));
    }
  }

  lemma DeliverSound(s: State, refused: bool)
    requires Sound(s) && Delivering(s) && Working(s)
    ensures Sound(DoDeliver(s, refused)) && Sound(DoFrameFails(s))
  {
    assert ClaimFits(s, 0);
    var id, row := s.worker.batch[0].id, s.worker.batch[0].row;
    var now := s.db.saf[id];
    if !s.worker.stage.Named? {
    } else {
      UpdatedSound(s, DoFrameFails(s), id, now.(status := Dead));
      if refused {
        UpdatedSound(s, DoDeliver(s, refused), id, now.(status := InFlight, attempts := row.attempts));
      } else {
        RowsUntouched(s, DoDeliver(s, refused));
      }
    }
  }

  lemma ConcludeSound(s: State)
    requires Sound(s) && Delivering(s) && Working(s)
    ensures Sound(DoConclude(s))
  {
    if s.worker.stage.Replied? {
      assert ClaimFits(s, 0);
      var id, row, reply := s.worker.batch[0].id, s.worker.batch[0].row, s.worker.stage.reply;
      var now := s.db.saf[id];
      var s' := DoConclude(s);
      if reply.Reply? && reply.rc == RC_LINK_DOWN {
        UpdatedSound(s, s', id, now.(status := InFlight, attempts := row.attempts));
      } else if reply.Reply? && reply.rc == RC_APPROVED && reply.macOk {
        AckedAdvice(s.db, id);
        WorkerRowSound(s, s', now.tran);
      } else if row.attempts + 1 >= row.maxAttempts {
        UpdatedSound(s, s', id, now.(status := Dead));
      } else {
        UpdatedSound(s, s', id, now.(status := InFlight, attempts := row.attempts + 1));
      }
    }
  }

  lemma WorkerSound(s: State, step: WorkerStep)
    requires Sound(s) && Delivering(s)
    ensures Sound(ApplyWorker(s, step))
  {
    if step.Fetch? {
      FetchSound(s, step.ids);
    } else if Working(s) {
      match step
      case Name(stan, de7) => NameSound(s, stan, de7);
      case FrameFails => DeliverSound(s, true);
      case Deliver(refused) => DeliverSound(s, refused);
      case Conclude => ConcludeSound(s);
      case Hear(reply) => RowsUntouched(s, DoHear(s, reply));
      case Skip => RowsUntouched(s, Next(s));
    }
  }

  lemma FetchDelivers(s: State, ids: seq<SafId>)
    requires Delivering(s)
    ensures Delivering(DoFetch(s, ids))
  {
    var s' := DoFetch(s, ids);
    if s.worker.batch == [] && Claimables(s.db, ids) {
      forall i: SafId | i < |s'.db.saf| ensures CountFits(s', i) {
        assert CountFits(s, i);
        assert i in ids ==> Claimable(s.db.saf[i]);
      }
      forall i: SafId | i < |s'.db.saf| && s'.db.saf[i].status == Acked ensures Response(i, RC_APPROVED, true) in s'.responses {
        assert s.db.saf[i].status == Acked;
      }
    }
  }

  /** The worker is done with its first row; the rest of the batch still fits. */
  lemma NextFits(s: State, s': State)
    requires BatchFits(s) && s.worker.batch != []
    requires s'.worker == Worker(s.worker.batch[1..], Fetched)
    requires |s'.db.saf| == |s.db.saf| && forall i: SafId :: i < |s.db.saf| && i != s.worker.batch[0].id ==> s'.db.saf[i] == s.db.saf[i]
    ensures BatchFits(s')
  {
    forall k | 0 <= k < |s'.worker.batch| ensures ClaimFits(s', k) {
      assert ClaimFits(s, k + 1);
      assert s.worker.batch[0].id < s.worker.batch[k + 1].id;
    }
  }

  /** Rescheduling, dead-lettering or acknowledging the first row of the batch. */
  lemma DoneDelivers(s: State, s': State, row: Saf)
    requires Delivering(s) && Working(s)
    requires s'.worker == Worker(s.worker.batch[1..], Fetched) && s'.wire == s.wire && s'.responses == s.responses
    requires s'.db.saf == s.db.saf[s.worker.batch[0].id := row]
    requires row.fields == s.db.saf[s.worker.batch[0].id].fields && row.cardToken == s.db.saf[s.worker.batch[0].id].cardToken
    requires row.status == Acked ==> Response(s.worker.batch[0].id, RC_APPROVED, true) in s.responses
    requires forall i :: i != s.worker.batch[0].id ==> s'.counted[i] == s.counted[i] && (i in s'.exhausted <==> i in s.exhausted)
    requires CountFits(s', s.worker.batch[0].id)
    ensures Delivering(s')
  {
    NextFits(s, s');
    forall i: SafId | i < |s'.db.saf| ensures CountFits(s', i) {
      if i != s.worker.batch[0].id {
        assert CountFits(s, i);
      }
    }
  }

  lemma SkipDelivers(s: State)
    requires Delivering(s) && Working(s)
    ensures Delivering(Next(s))
  {
    var id := s.worker.batch[0].id;
    assert CountFits(s, id);
    DoneDelivers(s, Next(s), s.db.saf[id]);
  }

  /** Only the payload of the first row changed, from one that was never sent. */
  lemma NamedDelivers(s: State, s': State, fields: Elements)
    requires Delivering(s) && Working(s) && s.worker.stage.Fetched? && Stan(fields) != ""
    requires Stan(s.db.saf[s.worker.batch[0].id].fields) == ""
    requires s' == s.(db := UpdatePayload(s.db, s.worker.batch[0].id, fields), worker := s.worker.(stage := Named(fields, false)))
    ensures Delivering(s')
  {
    var id := s.worker.batch[0].id;
    assert NoSend(s', id);
    forall k | 0 <= k < |s'.worker.batch| ensures ClaimFits(s', k) {
      assert ClaimFits(s, k);
      assert k > 0 ==> id < s.worker.batch[k].id;
    }
    forall i: SafId | i < |s'.db.saf| ensures CountFits(s', i) {
      assert CountFits(s, i);
    }
  }

  /** Only the worker's own stage, the wire and the responses moved on. */
  lemma StageDelivers(s: State, s': State)
    requires Delivering(s) && s'.db == s.db && s'.counted == s.counted && s'.exhausted == s.exhausted
    requires s'.worker.batch == s.worker.batch && (s.worker.stage.Fetched? || !s'.worker.stage.Fetched?)
    requires s.responses <= s'.responses && StageFits(s') && WireFits(s')
    ensures Delivering(s')
  {
    forall k | 0 <= k < |s'.worker.batch| ensures ClaimFits(s', k) {
      assert ClaimFits(s, k);
    }
    forall i: SafId | i < |s'.db.saf| ensures CountFits(s', i) {
      assert CountFits(s, i);
    }
  }

  lemma NameDelivers(s: State, stan: string, de7: string)
    requires Delivering(s) && Working(s)
    ensures Delivering(DoName(s, stan, de7))
  {
    assert ClaimFits(s, 0);
    var id, row := s.worker.batch[0].id, s.worker.batch[0].row;
    assert CountFits(s, id);
    var s' := DoName(s, stan, de7);
    if !s.worker.stage.Fetched? {
    } else if Stan(row.fields) != "" {
      StageDelivers(s, s');
    } else if stan == "" {
      DoneDelivers(s, s', s.db.saf[id].(status := InFlight, attempts := row.attempts));
    } else {
      NamedDelivers(s, s', row.fields[11 := stan][7 := de7]);
    }
  }

  lemma DeliverDelivers(s: State, refused: bool)
    requires Delivering(s) && Working(s)
    ensures Delivering(DoDeliver(s, refused)) && Delivering(DoFrameFails(s))
  {
    assert ClaimFits(s, 0);
    var id, row := s.worker.batch[0].id, s.worker.batch[0].row;
    assert CountFits(s, id);
    if s.worker.stage.Named? {
      DoneDelivers(s, DoFrameFails(s), s.db.saf[id].(status := Dead));
      if refused {
        DoneDelivers(s, DoDeliver(s, refused), s.db.saf[id].(status := InFlight, attempts := row.attempts));
      } else {
        SentDelivers(s, DoDeliver(s, refused));
      }
    }
  }

  lemma SentDelivers(s: State, s': State)
    requires Delivering(s) && Working(s) && s.worker.stage.Named?
    requires s' == DoDeliver(s, false)
    ensures Delivering(s')
  {
    assert ClaimFits(s, 0);
    var id := s.worker.batch[0].id;
    assert !s.worker.stage.repeat ==> NoSend(s, id);
    forall i, j | 0 <= i < j < |s'.wire| && s'.wire[i].id == s'.wire[j].id ensures s'.wire[j].repeat {
    }
    StageDelivers(s, s');
  }

  lemma ConcludeDelivers(s: State)
    requires Delivering(s) && Working(s)
    ensures Delivering(DoConclude(s))
  {
    if s.worker.stage.Replied? {
      assert ClaimFits(s, 0);
      var id, row, reply := s.worker.batch[0].id, s.worker.batch[0].row, s.worker.stage.reply;
      assert CountFits(s, id);
      var now := s.db.saf[id];
      var s' := DoConclude(s);
      if reply.Reply? && reply.rc == RC_LINK_DOWN {
        DoneDelivers(s, s', now.(status := InFlight, attempts := row.attempts));
      } else if reply.Reply? && reply.rc == RC_APPROVED && reply.macOk {
        DoneDelivers(s, s', now.(status := Acked));
      } else if row.attempts + 1 >= row.maxAttempts {
        DoneDelivers(s, s', now.(status := Dead));
      } else {
        DoneDelivers(s, s', now.(status := InFlight, attempts := row.attempts + 1));
      }
    }
  }

  lemma WorkerDelivers(s: State, step: WorkerStep)
    requires Delivering(s)
    ensures Delivering(ApplyWorker(s, step))
  {
    if step.Fetch? {
      FetchDelivers(s, step.ids);
    } else if Working(s) {
      match step
      case Name(stan, de7) => NameDelivers(s, stan, de7);
      case FrameFails => DeliverDelivers(s, true);
      case Deliver(refused) => DeliverDelivers(s, refused);
      case Conclude => ConcludeDelivers(s);
      case Hear(reply) => StageDelivers(s, DoHear(s, reply));
      case Skip => SkipDelivers(s);
    }
  }

  // Every run.

  ghost predicate Invariant(s: State) {
    Sound(s) && Delivering(s)
  }

  lemma StepKeeps(s: State, step: Step)
    requires Invariant(s)
    ensures Invariant(Apply(s, step))
  {
    match step
    case OfRequest(r) =>
      RequestSound(s, r);
      RequestOnlyAppends(s, r);
      AppendsDeliver(s, ApplyRequest(s, r));
    case OfSweep(w) =>
      SweepSound(s, w);
      SweepOnlyAppends(s, w);
      AppendsDeliver(s, ApplySweep(s, w));
    case OfWorker(d) =>
      WorkerSound(s, d);
      WorkerDelivers(s, d);
    case Crash =>
      CrashKeeps(s);
  }

  lemma CrashKeeps(s: State)
    requires Invariant(s)
    ensures Invariant(Apply(s, Crash))
  {
    var s' := Apply(s, Crash);
    forall k: TranId | Exposed(s', k) ensures ReachedFits(s', k) {
      assert Exposed(s, k) && ReachedFits(s, k);
    }
    forall i: SafId | i < |s'.db.saf| ensures CountFits(s', i) {
      assert CountFits(s, i);
    }
  }

  lemma {:induction false} AlwaysAfter(s: State, steps: seq<Step>)
    requires Invariant(s)
    ensures Invariant(After(s, steps))
    decreases |steps|
  {
    if steps != [] {
      StepKeeps(s, steps[0]);
      AlwaysAfter(Apply(s, steps[0]), steps[1..]);
    }
  }

  lemma Always(steps: seq<Step>)
    ensures Invariant(Run(steps))
  {
    AlwaysAfter(Init(), steps);
  }

  // Reaching one state from another.

  /** Some steps lead from s to s'. */
  ghost predicate Leads(s: State, s': State) {
    exists steps :: After(s, steps) == s'
  }

  lemma {:induction false} AfterJoin(s: State, a: seq<Step>, b: seq<Step>)
    ensures After(s, a + b) == After(After(s, a), b)
    decreases |a|
  {
    if a == [] {
      assert a + b == b;
    } else {
      assert (a + b)[1..] == a[1..] + b;
      AfterJoin(Apply(s, a[0]), a[1..], b);
      JoinStep(s, Apply(s, a[0]), a, b);
    }
  }

  lemma JoinStep(s: State, next: State, a: seq<Step>, b: seq<Step>)
    requires a != [] && After(s, a + b) == After(next, a[1..] + b) && After(s, a) == After(next, a[1..])
    requires After(next, a[1..] + b) == After(After(next, a[1..]), b)
    ensures After(s, a + b) == After(After(s, a), b)
  {
  }

  lemma LeadsAfter(s: State, s': State, more: seq<Step>)
    requires Leads(s, s')
    ensures Leads(s, After(s', more))
  {
    var steps :| After(s, steps) == s';
    AfterJoin(s, steps, more);
  }

  lemma LeadsHere(s: State)
    ensures Leads(s, s)
  {
    assert After(s, []) == s;
  }

  lemma LeadsOn(s: State, s': State, step: Step)
    requires Leads(s, s')
    ensures Leads(s, Apply(s', step))
  {
    LeadsAfter(s, s', [step]);
    assert [step][1..] == [];
    assert After(Apply(s', step), []) == Apply(s', step);
  }

  lemma LeadsRequest(s: State, s': State, r: RequestStep)
    requires Leads(s, s')
    ensures Leads(s, ApplyRequest(s', r))
  {
    LeadsOn(s, s', OfRequest(r));
  }

  /** The invariant holds of all that can be reached. */
  lemma LeadsKeeps(s: State, s': State)
    requires Invariant(s) && Leads(s, s')
    ensures Invariant(s')
  {
    var steps :| After(s, steps) == s';
    AlwaysAfter(s, steps);
  }
}

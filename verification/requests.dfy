/**
 A request from its insert to its follow-up, in place: whatever fails and whatever the other processes
 do between its statements, it is one of the gateway's runs; and what each outcome leaves in the tables
 when nothing disturbs it.
 */
module Requests {
  import opened Store
  import opened Gateway
  import opened GatewayProofs
  import opened Tables
  import opened Interleaving
  import GatewayTheorems

  /** What the request meets: AttachRRN's answer, how its writes fare, the issuer, and the MAC it was sent with. */
  datatype Meets = Meets(attached: bool, marked: Fault, history: bool, outcome: Outcome, recorded: Fault, mac: string)

  /** Every statement commits and nobody else acts. */
  ghost predicate Undisturbed(m: Meets, w: World) {
    m.marked == Fine && m.history && m.recorded == Fine && Silent(w)
  }

  /** Nothing proves what the issuer did. */
  predicate Unknown(o: Outcome) {
    o.NoAnswer? || (o.Answer? && !o.macOk)
  }

  predicate IsApproval(t: TranType, o: Outcome) {
    o.Answer? && o.macOk && (o.rc == RC_APPROVED || (o.rc == RC_PARTIAL && t != Purchase))
  }

  /** The advice an unknown outcome owes: a completion's own message again, otherwise a 0420. */
  function Owed(req: Request, id: TranId, o: Outcome): Saf
    requires EverSent(req)
  {
    if req.tranType == Completion then NewAdvice(id, Completion0220, CompletionAdvice(req), "")
    else
      var reason := if o.NoAnswer? then REASON_TIMEOUT else REASON_MAC_FAILURE;
      NewAdvice(id, Reversal0420, ReversalAdvice(req, reason), req.cardToken)
  }

  /** The issuer's code as it is recorded; a response without one is a format error. */
  function Code(rc: string): string {
    if rc == "" then "30" else rc
  }

  /** The state and the response code an outcome leaves in the row. */
  ghost predicate RowTells(row: Tran, t: TranType, o: Outcome) {
    match o
    case Refused => row.status == Declined && row.rc == "91"
    case NoAnswer =>
      && row.rc == ""
      && row.status == (if t == Completion || t == Balance then TimedOut else ReversalPending)
    case Answer(rc, true) =>
      && row.rc == Code(rc)
      && row.status == (if IsApproval(t, o) then Approved else Declined)
    case Answer(_, false) =>
      && row.rc == (if t == Completion then "" else "96")
      && row.status == (if t == Completion then TimedOut else if t == Balance then Declined else ReversalPending)
  }

  /** The issuer refused it, or never saw it. */
  predicate KnownDeclined(t: TranType, o: Outcome) {
    o.Refused? || (o.Answer? && o.macOk && !IsApproval(t, o))
  }

  /** No other row changes, but that a completion which was declined frees the hold it had. */
  ghost predicate OthersTell(before: Db, after: Db, req: Request, id: TranId, o: Outcome) {
    && |after.tran| == |before.tran|
    && (forall k: TranId :: k < |before.tran| && k != id ==>
          after.tran[k] ==
          if req.tranType == Completion && KnownDeclined(Completion, o) && req.original == Some(k) && before.tran[k].completedBy == Some(id)
          then before.tran[k].(completedBy := None) else before.tran[k])
  }

  /**
   What a sent request leaves: its row as the outcome tells it, and nothing queued; or, for an unknown
   outcome that may have moved money, exactly the advice it owes.
   */
  ghost predicate Leaves(before: Db, after: Db, req: Request, id: TranId, o: Outcome)
    requires EverSent(req)
  {
    && id < |after.tran| && after.tran[id].req == req && RowTells(after.tran[id], req.tranType, o)
    && after.saf == (if Unknown(o) && req.tranType != Balance then before.saf + [Owed(req, id, o)] else before.saf)
    && (req.tranType == Completion && KnownDeclined(Completion, o) && req.original.Some? && req.original.value < |after.tran| ==>
          req.original.value == id || after.tran[req.original.value].completedBy != Some(id))
  }

  // A request that is not sent.

  /** It lost its key, or a write before the send failed. */
  predicate NotSent(m: Meets) {
    !m.attached || m.marked != Fine || !m.history
  }

  /** Its row is SENT if that write committed. */
  function MarkedAs(db: Db, id: TranId, m: Meets): Db
    requires id < |db.tran|
  {
    if m.attached && m.marked != Lost then Db(db.tran[id := db.tran[id].(status := Sent, rc := "")], db.saf) else db
  }

  /** A completion's hold names it no more; nothing else changes. */
  ghost predicate Freed(before: Db, after: Db, id: TranId) {
    && id < |before.tran| == |after.tran| && after.saf == before.saf
    && forall k: TranId :: k < |before.tran| ==>
         after.tran[k] ==
         if before.tran[id].req.tranType == Completion && before.tran[id].req.original == Some(k) && before.tran[k].completedBy == Some(id)
         then before.tran[k].(completedBy := None) else before.tran[k]
  }

  // Each step of a request leads on.

  lemma AttachLeads(start: State, s: State, id: TranId, attached: bool)
    requires Leads(start, s)
    ensures Leads(start, DoAttach(s, id, attached))
  {
    LeadsRequest(start, s, Attach(id, attached));
  }

  lemma MarkSentLeads(start: State, s: State, id: TranId, fault: Fault)
    requires Leads(start, s)
    ensures Leads(start, DoMarkSent(s, id, fault))
  {
    LeadsRequest(start, s, MarkSent(id, fault));
  }

  lemma HistoryLeads(start: State, s: State, id: TranId, written: bool)
    requires Leads(start, s)
    ensures Leads(start, DoHistory(s, id, written))
  {
    LeadsRequest(start, s, History(id, written));
  }

  lemma TransmitLeads(start: State, s: State, id: TranId, refused: bool)
    requires Leads(start, s)
    ensures Leads(start, DoTransmit(s, id, refused))
  {
    LeadsRequest(start, s, Transmit(id, refused));
  }

  lemma ReceiveLeads(start: State, s: State, id: TranId, outcome: Outcome)
    requires Leads(start, s)
    ensures Leads(start, DoReceive(s, id, outcome))
  {
    LeadsRequest(start, s, Receive(id, outcome));
  }

  lemma RecordLeads(start: State, s: State, id: TranId, fault: Fault)
    requires Leads(start, s)
    ensures Leads(start, DoRecord(s, id, fault))
  {
    LeadsRequest(start, s, Record(id, fault));
  }

  lemma SettleLeads(start: State, s: State, id: TranId, mac: string)
    requires Leads(start, s)
    ensures Leads(start, DoSettle(s, id, mac))
  {
    LeadsRequest(start, s, Settle(id, mac));
  }

  lemma ReleaseLeads(start: State, s: State, id: TranId)
    requires Leads(start, s)
    ensures Leads(start, DoRelease(s, id))
  {
    LeadsRequest(start, s, Release(id));
  }

  /** sendPurchase and sendAndRecord, from the row's insert on. */
  method SendAndRecord(t: Database, id: TranId, m: Meets, w: World, ghost start: State, s: State) returns (s': State)
    requires Leads(start, s) && t.Contents() == s.db && StageIs(s, id, Inserted) && Sendable(t.tran[id].req)
    modifies t
    ensures Leads(start, s') && t.Contents() == s'.db && id !in s'.requests
    ensures Undisturbed(m, w) && m.attached && old(t.tran[id].status) == Created ==>
              && Leaves(old(t.Contents()), t.Contents(), old(t.tran[id].req), id, m.outcome)
              && OthersTell(old(t.Contents()), t.Contents(), old(t.tran[id].req), id, m.outcome)
              && Observed(s, s', id, m.outcome)
    ensures Silent(w) && NotSent(m) ==>
              Freed(MarkedAs(old(t.Contents()), id, m), t.Contents(), id) && s'.reached == s.reached && s'.settled == s.settled
  {
    s' := Turn(t, id, w(0), start, s);
    AttachLeads(start, s', id, m.attached);
    s' := DoAttach(s', id, m.attached);
    if m.attached {
      s' := MarkAndSend(t, id, m, w, start, s');
    } else {
      s' := GiveUp(t, id, w, start, s');
    }
  }

  /**
   The insert before it: a completion passes the quick check and takes its claim. None is a refusal
   that wrote nothing.
   */
  method Submit(t: Database, req: Request, m: Meets, w: World, ghost start: State, s: State) returns (id: Option<TranId>, s': State)
    requires Leads(start, s) && t.Contents() == s.db && Sendable(req)
    requires req.tranType == Completion ==> req.original.Some? && req.originalRrn != ""
    modifies t
    ensures Leads(start, s') && t.Contents() == s'.db
    ensures Silent(w) && id.None? ==> t.Contents() == old(t.Contents())
    ensures Silent(w) ==> (id.None? <==> req.tranType == Completion && !Payable(old(t.Contents()), req))
    ensures Undisturbed(m, w) && id.Some? && m.attached ==>
              && id.value == old(|t.tran|) && Leaves(old(t.Contents()), t.Contents(), req, id.value, m.outcome)
              && HoldTells(old(t.Contents()), t.Contents(), req, id.value, m.outcome)
              && Observed(s, s', id.value, m.outcome)
    ensures Silent(w) && id.Some? && NotSent(m) ==>
              && t.tran == old(t.tran) + [Tran(req, if m.attached && m.marked != Lost then Sent else Created, "", None)]
              && t.saf == old(t.saf) && s'.reached == s.reached && s'.settled == s.settled
  {
    ghost var before := t.Contents();
    id, s' := InsertFirst(t, req, w, start, s);
    if id.Some? {
      ghost var entered := t.Contents();
      s' := SendAndRecord(t, id.value, m, w, start, s');
      if Silent(w) && NotSent(m) {
        NothingButItsRow(before, entered, t.Contents(), req, m);
      }
      if Undisturbed(m, w) && m.attached {
        HoldIs(before, entered, t.Contents(), req, m.outcome);
      }
    }
  }

  lemma NothingButItsRow(before: Db, entered: Db, after: Db, req: Request, m: Meets)
    requires Entered(before, entered, req) && Freed(MarkedAs(entered, |before.tran|, m), after, |before.tran|)
    requires req.tranType == Completion ==> req.original.Some? && Payable(before, req)
    ensures after.tran == before.tran + [Tran(req, if m.attached && m.marked != Lost then Sent else Created, "", None)]
    ensures after.saf == before.saf
  {
  }

  lemma HoldIs(before: Db, entered: Db, after: Db, req: Request, o: Outcome)
    requires EverSent(req) && Entered(before, entered, req) && OthersTell(entered, after, req, |before.tran|, o)
    requires Leaves(entered, after, req, |before.tran|, o)
    ensures Leaves(before, after, req, |before.tran|, o) && HoldTells(before, after, req, |before.tran|, o)
  {
  }

  method InsertFirst(t: Database, req: Request, w: World, ghost start: State, s: State) returns (id: Option<TranId>, s': State)
    requires Leads(start, s) && t.Contents() == s.db && Sendable(req)
    requires req.tranType == Completion ==> req.original.Some? && req.originalRrn != ""
    modifies t
    ensures Leads(start, s') && t.Contents() == s'.db
    ensures id.Some? ==> StageIs(s', id.value, Inserted) && t.tran[id.value] == Tran(req, Created, "", None)
    ensures Silent(w) ==> (id.None? <==> req.tranType == Completion && !Payable(old(t.Contents()), req))
    ensures Silent(w) && id.None? ==> t.Contents() == old(t.Contents())
    ensures Silent(w) && id.Some? ==>
              id.value == old(|t.tran|) && Entered(old(t.Contents()), t.Contents(), req) && s'.reached == s.reached && s'.settled == s.settled
  {
    s' := s;
    if req.tranType != Completion {
      LeadsRequest(start, s', Insert(req));
      var n := t.InsertRow(Tran(req, Created, "", None));
      s' := DoInsert(s', req);
      id := Some(n);
    } else {
      id, s' := TakeClaim(t, req, w, start, s');
    }
  }

  /** The row is in, and a completion holds its pre-authorization, which nobody held. */
  ghost predicate Entered(before: Db, after: Db, req: Request) {
    var id := |before.tran|;
    && |after.tran| == id + 1 && after.saf == before.saf && after.tran[id] == Tran(req, Created, "", None)
    && (forall k: TranId :: k < id ==>
          if req.tranType == Completion && req.original == Some(k)
          then before.tran[k].completedBy.None? && after.tran[k] == before.tran[k].(completedBy := Some(id))
          else after.tran[k] == before.tran[k])
  }

  /** A completion's hold names it unless it was declined; no other row changes. */
  ghost predicate HoldTells(before: Db, after: Db, req: Request, id: TranId, o: Outcome) {
    && |after.tran| == |before.tran| + 1
    && (forall k: TranId :: k < |before.tran| ==>
          after.tran[k] ==
          if req.tranType == Completion && req.original == Some(k)
          then before.tran[k].(completedBy := if KnownDeclined(Completion, o) then None else Some(id)) else before.tran[k])
  }

  /** It was on the wire unless the link refused it, and its verified answer was recorded. */
  ghost predicate Observed(s: State, s': State, id: TranId, o: Outcome) {
    && s'.reached == (if o.Refused? then s.reached else s.reached + {id})
    && s'.settled == (if o.Answer? && o.macOk then s.settled + {id} else s.settled)
  }

  /** The pre-authorization can be completed for this amount. */
  predicate Payable(db: Db, req: Request)
    requires req.original.Some?
  {
    Completable(db, req.original.value) && req.amount <= db.tran[req.original.value].req.amount
  }

  /** createCompletion's check and, later, the claim; the hold may be gone by then. */
  method TakeClaim(t: Database, req: Request, w: World, ghost start: State, s: State) returns (id: Option<TranId>, s': State)
    requires Leads(start, s) && t.Contents() == s.db && Sendable(req)
    requires req.tranType == Completion && req.original.Some? && req.originalRrn != ""
    modifies t
    ensures Leads(start, s') && t.Contents() == s'.db
    ensures id.Some? ==> StageIs(s', id.value, Inserted) && t.tran[id.value] == Tran(req, Created, "", None)
    ensures Silent(w) ==> (id.Some? <==> Payable(old(t.Contents()), req))
    ensures Silent(w) && id.None? ==> t.Contents() == old(t.Contents())
    ensures Silent(w) && id.Some? ==>
              && id.value == old(|t.tran|) && t.Contents() == InsertCompletion(old(t.Contents()), Tran(req, Created, "", None), req.original.value)
              && s'.reached == s.reached && s'.settled == s.settled
  {
    id, s' := None, s;
    var preAuth := req.original.value;
    if !Payable(Db(t.tran, t.saf), req) {
      return;
    }
    LeadsRequest(start, s', LookUp(preAuth, req.amount));
    s' := DoLookUp(s', preAuth, req.amount);
    ghost var looked := s';
    s' := Meanwhile(t, w(8), OfRow(|t.tran|), start, s');
    OthersKeepIntents(looked, w(8), OfRow(|looked.db.tran|), (preAuth, req.amount));
    LeadsRequest(start, s', InsertClaim(req, preAuth));
    id := t.InsertClaiming(Tran(req, Created, "", None), preAuth);
    s' := DoInsertClaim(s', req, preAuth);
  }

  /** What a completion's request learned stays with it. */
  lemma {:induction false} OthersKeepIntents(s: State, steps: seq<Step>, p: Process, intent: (TranId, int))
    requires intent in s.intents
    ensures intent in After(s, Others(steps, p)).intents
    decreases |steps|
  {
    if steps != [] {
      OthersStep(s, steps, p);
      if Foreign(steps[0], p) {
        IntentsGrow(s, steps[0]);
        OthersKeepIntents(Apply(s, steps[0]), steps[1..], p, intent);
      } else {
        OthersKeepIntents(s, steps[1..], p, intent);
      }
    }
  }

  lemma IntentsGrow(s: State, step: Step)
    requires !step.Crash?
    ensures s.intents <= Apply(s, step).intents
  {
  }

  // cancelPurchase.

  /** Only an approved purchase that was sent holds money to give back. */
  predicate Cancellable(row: Tran) {
    row.req.tranType == Purchase && row.status == Approved && EverSent(row.req)
  }

  /**
   cancelPurchase: the row is read and, later, its 0420 queued from the state it was in; by then
   others, another cancellation among them, may have moved it.
   */
  method Cancel(t: Database, id: TranId, w: World, ghost start: State, s: State) returns (ok: bool, s': State)
    requires Leads(start, s) && t.Contents() == s.db && id < |t.tran|
    modifies t
    ensures Leads(start, s') && t.Contents() == s'.db
    ensures Silent(w) ==> (ok <==> Cancellable(old(t.tran[id])))
    ensures Silent(w) && !ok ==> t.Contents() == old(t.Contents())
    ensures Silent(w) && ok ==>
              var row := old(t.tran[id]);
              && t.tran == old(t.tran)[id := row.(status := ReversalPending)]
              && t.saf == old(t.saf) + [NewAdvice(id, Reversal0420, ReversalAdvice(row.req, "17"), row.req.cardToken)]
  {
    ok, s' := false, s;
    if t.tran[id].req.tranType == Purchase && t.tran[id].status == Approved {
      CancelReadLeads(start, s, id);
      s' := Meanwhile(t, w(0), OfCancel, start, DoCancelRead(s, id));
      OthersKeepCancel(DoCancelRead(s, id), w(0), id);
      ok, s' := QueueCancel(t, id, start, s');
    }
  }

  method QueueCancel(t: Database, id: TranId, ghost start: State, s: State) returns (ok: bool, s': State)
    requires Leads(start, s) && t.Contents() == s.db && id in s.cancels && id < |s.db.tran|
    modifies t
    ensures Leads(start, s') && t.Contents() == s'.db
    ensures ok <==> CanReverse(old(t.Contents()), id, Approved)
    ensures t.Contents() == QueueReversal(old(t.Contents()), id, Approved, REASON_CANCELLATION)
  {
    LeadsRequest(start, s, CancelQueue(id));
    ok := t.Queue(id, Approved, REASON_CANCELLATION);
    s' := DoCancelQueue(s, id);
  }

  lemma CancelReadLeads(start: State, s: State, id: TranId)
    requires Leads(start, s)
    ensures Leads(start, DoCancelRead(s, id))
  {
    LeadsRequest(start, s, CancelRead(id));
  }

  /** What a cancellation read stays with it, and its row stays there. */
  lemma {:induction false} OthersKeepCancel(s: State, steps: seq<Step>, id: TranId)
    requires id in s.cancels && id < |s.db.tran|
    ensures id in After(s, Others(steps, OfCancel)).cancels && id < |After(s, Others(steps, OfCancel)).db.tran|
    decreases |steps|
  {
    if steps != [] {
      OthersStep(s, steps, OfCancel);
      if Foreign(steps[0], OfCancel) {
        CancelsGrow(s, steps[0]);
        GatewayTheorems.StepWrites(s, steps[0]);
        OthersKeepCancel(Apply(s, steps[0]), steps[1..], id);
      } else {
        OthersKeepCancel(s, steps[1..], id);
      }
    }
  }

  lemma CancelsGrow(s: State, step: Step)
    requires !step.Crash?
    ensures s.cancels <= Apply(s, step).cancels
  {
  }

  /** The others take their turn, and leave this request where it is. */
  method Turn(t: Database, id: TranId, steps: seq<Step>, ghost start: State, s: State) returns (s': State)
    requires Leads(start, s) && t.Contents() == s.db && id < |s.db.tran|
    modifies t
    ensures Leads(start, s') && t.Contents() == s'.db && Unmoved(s, s', id)
    ensures steps == [] ==> s' == s
  {
    s' := Meanwhile(t, steps, OfRow(id), start, s);
    OthersLeave(s, steps, id);
  }

  /** The SENT write, its history, and the send. */
  method MarkAndSend(t: Database, id: TranId, m: Meets, w: World, ghost start: State, s: State) returns (s': State)
    requires Leads(start, s) && t.Contents() == s.db && StageIs(s, id, Attached) && Sendable(t.tran[id].req)
    modifies t
    ensures Leads(start, s') && t.Contents() == s'.db && id !in s'.requests
    ensures Undisturbed(m, w) ==>
              && Leaves(old(t.Contents()), t.Contents(), old(t.tran[id].req), id, m.outcome)
              && OthersTell(old(t.Contents()), t.Contents(), old(t.tran[id].req), id, m.outcome)
              && Observed(s, s', id, m.outcome)
    ensures Silent(w) && m.attached && NotSent(m) ==>
              Freed(MarkedAs(old(t.Contents()), id, m), t.Contents(), id) && s'.reached == s.reached && s'.settled == s.settled
  {
    ghost var was := t.Contents();
    s' := Turn(t, id, w(1), start, s);
    if m.marked != Lost {
      t.SetStatus(id, Sent, "");
    }
    MarkSentLeads(start, s', id, m.marked);
    s' := DoMarkSent(s', id, m.marked);
    if m.marked != Fine {
      s' := GiveUp(t, id, w, start, s');
      return;
    }
    ghost var marked := t.Contents();
    s' := RecordSending(t, id, m, w, start, s');
    if Undisturbed(m, w) {
      MarkedFirst(was, marked, t.Contents(), was.tran[id].req, id, m.outcome);
    }
  }

  /** Marking the row SENT first changes nothing of what the outcome leaves. */
  lemma MarkedFirst(before: Db, marked: Db, after: Db, req: Request, id: TranId, o: Outcome)
    requires EverSent(req) && id < |before.tran| && marked == UpdateStatus(before, id, Sent, "")
    requires Leaves(marked, after, req, id, o) && OthersTell(marked, after, req, id, o)
    ensures Leaves(before, after, req, id, o) && OthersTell(before, after, req, id, o)
  {
  }

  /** The history write, the last one before the send. */
  method RecordSending(t: Database, id: TranId, m: Meets, w: World, ghost start: State, s: State) returns (s': State)
    requires Leads(start, s) && t.Contents() == s.db && StageIs(s, id, Marked) && Sendable(t.tran[id].req)
    modifies t
    ensures Leads(start, s') && t.Contents() == s'.db && id !in s'.requests
    ensures Undisturbed(m, w) && old(t.tran[id].status) == Sent ==>
              && Leaves(old(t.Contents()), t.Contents(), old(t.tran[id].req), id, m.outcome)
              && OthersTell(old(t.Contents()), t.Contents(), old(t.tran[id].req), id, m.outcome)
              && Observed(s, s', id, m.outcome)
    ensures Silent(w) && !m.history ==> Freed(old(t.Contents()), t.Contents(), id) && s'.reached == s.reached && s'.settled == s.settled
  {
    s' := Turn(t, id, w(2), start, s);
    HistoryLeads(start, s', id, m.history);
    s' := DoHistory(s', id, m.history);
    if !m.history {
      s' := GiveUp(t, id, w, start, s');
      return;
    }
    s' := Transmitted(t, id, m, w, start, s');
    s' := Finalize(t, id, m, w, start, s');
  }

  /** mux.Send: refused before the write, or on the wire until an answer or none. */
  method Transmitted(t: Database, id: TranId, m: Meets, w: World, ghost start: State, s: State) returns (s': State)
    requires Leads(start, s) && t.Contents() == s.db && StageIs(s, id, Ready)
    modifies t
    ensures Leads(start, s') && t.Contents() == s'.db && StageIs(s', id, Answered(m.outcome))
    ensures t.tran[id].req == old(t.tran[id].req) && (Silent(w) ==> t.Contents() == old(t.Contents()))
    ensures Silent(w) ==> s'.reached == (if m.outcome.Refused? then s.reached else s.reached + {id}) && s'.settled == s.settled
  {
    s' := Turn(t, id, w(3), start, s);
    TransmitLeads(start, s', id, m.outcome.Refused?);
    s' := DoTransmit(s', id, m.outcome.Refused?);
    if !m.outcome.Refused? {
      s' := Turn(t, id, w(4), start, s');
      ReceiveLeads(start, s', id, m.outcome);
      s' := DoReceive(s', id, m.outcome);
    }
  }

  /** Nothing was sent: a completion frees its hold. */
  method GiveUp(t: Database, id: TranId, w: World, ghost start: State, s: State) returns (s': State)
    requires Leads(start, s) && t.Contents() == s.db && id < |t.tran|
    requires if t.tran[id].req.tranType == Completion then StageIs(s, id, Releasing) else id !in s.requests
    modifies t
    ensures Leads(start, s') && t.Contents() == s'.db && id !in s'.requests
    ensures Silent(w) ==> Freed(old(t.Contents()), t.Contents(), id) && s'.reached == s.reached && s'.settled == s.settled
  {
    s' := s;
    if t.tran[id].req.tranType == Completion {
      s' := Turn(t, id, w(7), start, s');
      ReleaseLeads(start, s', id);
      t.FreeClaim(id);
      s' := DoRelease(s', id);
    }
  }

  /** finalizeSendResult and finalize. */
  method Finalize(t: Database, id: TranId, m: Meets, w: World, ghost start: State, s: State) returns (s': State)
    requires Leads(start, s) && t.Contents() == s.db && StageIs(s, id, Answered(m.outcome)) && Sendable(t.tran[id].req)
    modifies t
    ensures Leads(start, s') && t.Contents() == s'.db && id !in s'.requests
    ensures Undisturbed(m, w) && old(t.tran[id].status) == Sent ==>
              && Leaves(old(t.Contents()), t.Contents(), old(t.tran[id].req), id, m.outcome)
              && OthersTell(old(t.Contents()), t.Contents(), old(t.tran[id].req), id, m.outcome)
              && s'.reached == s.reached
              && s'.settled == (if m.outcome.Answer? && m.outcome.macOk then s.settled + {id} else s.settled)
  {
    ghost var was := t.Contents();
    s' := Turn(t, id, w(5), start, s);
    var req := t.tran[id].req;
    var v := VerdictOf(req.tranType, m.outcome);
    var current;
    RecordLeads(start, s', id, m.recorded);
    current := RecordStatus(t, id, v, m, s');
    s' := DoRecord(s', id, m.recorded);
    if current.None? {
      return;
    }
    s' := SettleRecorded(t, id, v, current.value, m, w, start, s');
    if Undisturbed(m, w) && was.tran[id].status == Sent {
      FollowUpLeaves(was, was.tran[id].req, id, m.outcome, m.mac);
    }
  }

  method SettleRecorded(t: Database, id: TranId, v: Verdict, current: Status, m: Meets, w: World, ghost start: State, s: State) returns (s': State)
    requires Leads(start, s) && t.Contents() == s.db && StageIs(s, id, Recorded(m.outcome, current)) && EverSent(t.tran[id].req)
    requires v == VerdictOf(t.tran[id].req.tranType, m.outcome)
    modifies t
    ensures Leads(start, s') && t.Contents() == s'.db && id !in s'.requests
    ensures Silent(w) ==> t.Contents() == Settled(old(t.Contents()), id, m.outcome, current, m.mac) && s'.reached == s.reached && s'.settled == s.settled
  {
    s' := Turn(t, id, w(6), start, s);
    SettleLeads(start, s', id, m.mac);
    FollowUp(t, id, v, current, m.mac, m.outcome);
    s' := DoSettle(s', id, m.mac);
  }

  /** recordStatus: the state the request believes the row holds, None when it had moved on. */
  method RecordStatus(t: Database, id: TranId, v: Verdict, m: Meets, ghost s: State) returns (current: Option<Status>)
    requires t.Contents() == s.db && StageIs(s, id, Answered(m.outcome)) && v == VerdictOf(t.tran[id].req.tranType, m.outcome)
    modifies t
    ensures t.Contents() == DoRecord(s, id, m.recorded).db
    ensures current.None? ==> id !in DoRecord(s, id, m.recorded).requests
    ensures current.Some? ==> StageIs(DoRecord(s, id, m.recorded), id, Recorded(m.outcome, current.value))
    ensures m.recorded == Fine && old(t.tran[id].status) == Sent ==>
              current == Some(v.status) && t.Contents() == UpdateStatusFrom(old(t.Contents()), id, Sent, v.status, v.rc)
  {
    current := Some(Sent);
    if m.recorded != Lost {
      var moved := t.SetStatusFrom(id, Sent, v.status, v.rc);
      if m.recorded == Fine {
        current := if moved then Some(v.status) else None;
      }
    }
  }

  /** What the outcome still owes, from the state the request believes the row holds. */
  method FollowUp(t: Database, id: TranId, v: Verdict, current: Status, mac: string, ghost o: Outcome)
    requires id < |t.tran| && EverSent(t.tran[id].req) && v == VerdictOf(t.tran[id].req.tranType, o)
    modifies t
    ensures t.Contents() == Settled(old(t.Contents()), id, o, current, mac)
  {
    var req := t.tran[id].req;
    match FollowUpOf(req.tranType, v)
    case Nothing =>
    case FreeClaim => t.FreeClaim(id);
    case Repeat => t.RepeatAdvice(id, CompletionMessage(req, mac));
    case Reverse(reason) => var ok := t.Queue(id, current, reason);
  }

  lemma FollowUpLeaves(was: Db, req: Request, id: TranId, o: Outcome, mac: string)
    requires id < |was.tran| && was.tran[id].req == req && was.tran[id].status == Sent && Sendable(req)
    ensures var v := VerdictOf(req.tranType, o);
            var after := Settled(UpdateStatusFrom(was, id, Sent, v.status, v.rc), id, o, v.status, mac);
            Leaves(was, after, req, id, o) && OthersTell(was, after, req, id, o)
  {
    CompletionRepeatIsTheSameMessage(req, mac);
    var v := VerdictOf(req.tranType, o);
    var recorded := UpdateStatusFrom(was, id, Sent, v.status, v.rc);
    match FollowUpOf(req.tranType, v)
    case Nothing => NothingLeaves(was, recorded, req, id, o);
    case FreeClaim => FreedLeaves(was, recorded, req, id, o);
    case Repeat => RepeatLeaves(was, recorded, req, id, o, mac);
    case Reverse(reason) => ReverseLeaves(was, recorded, req, id, o, reason);
  }

  /** The row as recorded. */
  ghost predicate RecordedAs(was: Db, recorded: Db, req: Request, id: TranId, o: Outcome) {
    && id < |was.tran| && was.tran[id].req == req && was.tran[id].status == Sent && Sendable(req)
    && var v := VerdictOf(req.tranType, o);
       recorded == was.(tran := was.tran[id := was.tran[id].(status := v.status, rc := v.rc)])
  }

  lemma NothingLeaves(was: Db, recorded: Db, req: Request, id: TranId, o: Outcome)
    requires RecordedAs(was, recorded, req, id, o) && FollowUpOf(req.tranType, VerdictOf(req.tranType, o)) == Nothing
    ensures Leaves(was, recorded, req, id, o) && OthersTell(was, recorded, req, id, o)
  {
  }

  lemma FreedLeaves(was: Db, recorded: Db, req: Request, id: TranId, o: Outcome)
    requires RecordedAs(was, recorded, req, id, o) && FollowUpOf(req.tranType, VerdictOf(req.tranType, o)).FreeClaim?
    ensures Leaves(was, FreeClaimOf(recorded, id), req, id, o) && OthersTell(was, FreeClaimOf(recorded, id), req, id, o)
  {
  }

  lemma RepeatLeaves(was: Db, recorded: Db, req: Request, id: TranId, o: Outcome, mac: string)
    requires RecordedAs(was, recorded, req, id, o) && FollowUpOf(req.tranType, VerdictOf(req.tranType, o)) == Repeat
    requires CompletionMessage(req, mac) - NOT_STORED == CompletionAdvice(req)
    ensures var after := QueueAdvice(recorded, id, CompletionMessage(req, mac));
            Leaves(was, after, req, id, o) && OthersTell(was, after, req, id, o)
  {
  }

  lemma ReverseLeaves(was: Db, recorded: Db, req: Request, id: TranId, o: Outcome, reason: string)
    requires RecordedAs(was, recorded, req, id, o) && FollowUpOf(req.tranType, VerdictOf(req.tranType, o)) == Reverse(reason)
    ensures var after := QueueReversal(recorded, id, VerdictOf(req.tranType, o).status, reason);
            Leaves(was, after, req, id, o) && OthersTell(was, after, req, id, o)
  {
  }
}

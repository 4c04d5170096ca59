/**
 The gateway as a state machine over its tables. Requests, cancellations, the orphan sweeper, the
 store-and-forward worker and crashes interleave statement by statement; a step that is not enabled
 changes nothing, so every sequence of steps is a run.

 A process may stop for ever between any two of its steps, so a failed statement after which the code
 does nothing more needs no step of its own. The faults that do change what happens next are explicit:
 Lost is a statement that did not commit and failed, Unsure one that committed and still failed.
 */
module Gateway {
  import opened Store

  // What a send comes to.

  /** Refused: the link was down before the write. NoAnswer: any other failure. */
  datatype Outcome = Refused | NoAnswer | Answer(rc: string, macOk: bool)

  datatype Verdict = Verdict(status: Status, rc: string, macFailed: bool)

  /** mapSendOutcome, outcome and SendFailureStatus. */
  function VerdictOf(t: TranType, o: Outcome): Verdict {
    match o
    case Refused => Verdict(Declined, RC_LINK_DOWN, false)
    case NoAnswer => Verdict(TimedOut, "", false)
    case Answer(de39, macOk) =>
      var rc := if de39 == "" then RC_FORMAT_ERROR else de39;
      if macOk then
        Verdict(if rc == RC_APPROVED || (t != Purchase && rc == RC_PARTIAL) then Approved else Declined, rc, false)
      else if t == Completion then Verdict(TimedOut, "", true)
      else Verdict(Declined, RC_MAC_FAILURE, true)
  }

  datatype FollowUp = Nothing | FreeClaim | Repeat | Reverse(reason: string)

  /** finalizeSendResult and finalize: what an outcome still owes. */
  function FollowUpOf(t: TranType, v: Verdict): FollowUp {
    if t == Balance then Nothing
    else if v.status == Declined && !v.macFailed then (if t == Completion then FreeClaim else Nothing)
    else if t == Completion && v.status == TimedOut then Repeat
    else if v.status == TimedOut then Reverse(REASON_TIMEOUT)
    else if v.macFailed then Reverse(REASON_MAC_FAILURE)
    else Nothing
  }

  // Processes.

  /** Where a request's goroutine is. Releasing: it failed before its send and frees its claim. */
  datatype Stage =
    | Inserted | Attached | Marked | Ready | Waiting
    | Answered(outcome: Outcome)
    | Recorded(outcome: Outcome, current: Status)
    | Releasing

  /** An orphan the sweeper read: the row and the status it had, or now has. */
  datatype Task = Task(id: TranId, status: Status)

  datatype Reply = NoReply | Reply(rc: string, macOk: bool)

  /** Where the worker is with the first row of its batch. */
  datatype Delivery =
    | Fetched
    | Named(fields: Elements, repeat: bool)
    | OnWire
    | Replied(reply: Reply)

  datatype Claim = Claim(id: SafId, row: Saf)

  datatype Worker = Worker(batch: seq<Claim>, stage: Delivery)

  /** An advice on the wire: its elements but for DE 2, which is the card token's PAN, and the MAC. */
  datatype WireSend = WireSend(id: SafId, repeat: bool, elements: Elements, cardToken: string)

  datatype Response = Response(id: SafId, rc: string, macOk: bool)

  datatype State = State(
    db: Db,
    requests: map<TranId, Stage>,
    intents: set<(TranId, int)>,   // completions that passed the quick check: (pre-auth, amount)
    cancels: set<TranId>,          // rows that some cancellation read as an approved purchase
    tasks: set<Task>,
    worker: Worker,
    // Observations; no step's guard reads them.
    reached: set<TranId>,          // requests that may be at the issuer
    settled: set<TranId>,          // requests whose verified answer was recorded
    wire: seq<WireSend>,
    responses: set<Response>,
    counted: multiset<SafId>,      // recorded counted failures
    exhausted: set<SafId>)

  datatype Fault = Fine | Lost | Unsure

  datatype RequestStep =
    | LinkDown(req: Request)
    | Insert(req: Request)
    | LookUp(preAuth: TranId, amount: int)
    | InsertClaim(req: Request, preAuth: TranId)
    | Attach(id: TranId, attached: bool)
    | MarkSent(id: TranId, fault: Fault)
    | History(id: TranId, written: bool)
    | Transmit(id: TranId, refused: bool)
    | Receive(id: TranId, outcome: Outcome)
    | Record(id: TranId, fault: Fault)
    | Settle(id: TranId, mac: string)
    | Release(id: TranId)
    | CancelRead(id: TranId)
    | CancelQueue(id: TranId)

  datatype SweepStep =
    | Find(cutoff: int, ids: set<TranId>)
    | TimeOut(id: TranId)
    | Follow(id: TranId, status: Status)

  datatype WorkerStep =
    | Fetch(ids: seq<SafId>)
    | Name(stan: string, de7: string)
    | FrameFails
    | Deliver(refused: bool)
    | Hear(reply: Reply)
    | Conclude
    | Skip

  datatype Step = OfRequest(r: RequestStep) | OfSweep(w: SweepStep) | OfWorker(d: WorkerStep) | Crash

  const IDLE := Worker([], Fetched)

  function Init(): State {
    State(Db([], []), map[], {}, {}, {}, IDLE, {}, {}, [], {}, multiset{}, {})
  }

  // Requests.

  function End(s: State, id: TranId): State {
    s.(requests := s.requests - {id})
  }

  function At(s: State, id: TranId, stage: Stage): State {
    s.(requests := s.requests[id := stage])
  }

  /** A failure before the send: a completion still has its claim to free. */
  function Abort(s: State, id: TranId): State
    requires id < |s.db.tran|
  {
    if s.db.tran[id].req.tranType == Completion then At(s, id, Releasing) else End(s, id)
  }

  predicate StageIs(s: State, id: TranId, stage: Stage) {
    id in s.requests && s.requests[id] == stage && id < |s.db.tran|
  }

  /** What the code puts in a row it is about to send. */
  predicate Sendable(req: Request) {
    EverSent(req) && req.businessDate != ""
  }

  /** A request the link cannot carry is declined and logged without a send. */
  function DoLinkDown(s: State, req: Request): State {
    if req.sentAt.None? && req.stan == ""
    then s.(db := Store.Insert(s.db, Tran(req, Declined, RC_LINK_DOWN, None)))
    else s
  }

  function DoInsert(s: State, req: Request): State {
    if Sendable(req) && req.tranType != Completion
    then At(s.(db := Store.Insert(s.db, Tran(req, Created, "", None))), |s.db.tran|, Inserted)
    else s
  }

  /** createCompletion's quick refusal and amount check. */
  function DoLookUp(s: State, preAuth: TranId, amount: int): State {
    if Completable(s.db, preAuth) && amount <= s.db.tran[preAuth].req.amount
    then s.(intents := s.intents + {(preAuth, amount)})
    else s
  }

  /** A completion names the pre-authorization it completes. */
  predicate Names(req: Request, preAuth: TranId) {
    req.tranType == Completion && req.original == Some(preAuth) && req.originalRrn != ""
  }

  function DoInsertClaim(s: State, req: Request, preAuth: TranId): State {
    if Sendable(req) && Names(req, preAuth) && (preAuth, req.amount) in s.intents && Completable(s.db, preAuth)
    then At(s.(db := InsertCompletion(s.db, Tran(req, Created, "", None), preAuth)), |s.db.tran|, Inserted)
    else s
  }

  /** AttachRRN on the idempotency key; a lost reservation aborts the request. */
  function DoAttach(s: State, id: TranId, attached: bool): State {
    if !StageIs(s, id, Inserted) then s
    else if attached then At(s, id, Attached)
    else Abort(s, id)
  }

  function DoHistory(s: State, id: TranId, written: bool): State {
    if !StageIs(s, id, Marked) then s
    else if written then At(s, id, Ready)
    else Abort(s, id)
  }

  function DoTransmit(s: State, id: TranId, refused: bool): State {
    if !StageIs(s, id, Ready) then s
    else if refused then At(s, id, Answered(Refused))
    else At(s, id, Waiting).(reached := s.reached + {id})
  }

  function DoReceive(s: State, id: TranId, outcome: Outcome): State {
    if StageIs(s, id, Waiting) && !outcome.Refused? then At(s, id, Answered(outcome)) else s
  }

  function DoRecord(s: State, id: TranId, fault: Fault): State {
    if id in s.requests && s.requests[id].Answered? && id < |s.db.tran|
    then RecordOutcome(s, id, s.requests[id].outcome, fault)
    else s
  }

  function DoSettle(s: State, id: TranId, mac: string): State {
    if id in s.requests && s.requests[id].Recorded? && id < |s.db.tran|
    then End(s.(db := Settled(s.db, id, s.requests[id].outcome, s.requests[id].current, mac)), id)
    else s
  }

  function DoRelease(s: State, id: TranId): State {
    if StageIs(s, id, Releasing) then End(s.(db := FreeClaimOf(s.db, id)), id) else s
  }

  /** cancelPurchase reads an approved purchase, then queues its 0420 from that state. */
  function DoCancelRead(s: State, id: TranId): State {
    if id < |s.db.tran| && s.db.tran[id].req.tranType == Purchase && s.db.tran[id].status == Approved
    then s.(cancels := s.cancels + {id})
    else s
  }

  function DoCancelQueue(s: State, id: TranId): State {
    if id in s.cancels
    then s.(db := QueueReversal(s.db, id, Approved, REASON_CANCELLATION))
    else s
  }

  function ApplyRequest(s: State, step: RequestStep): State {
    match step
    case LinkDown(req) => DoLinkDown(s, req)
    case Insert(req) => DoInsert(s, req)
    case LookUp(preAuth, amount) => DoLookUp(s, preAuth, amount)
    case InsertClaim(req, preAuth) => DoInsertClaim(s, req, preAuth)
    case Attach(id, attached) => DoAttach(s, id, attached)
    case MarkSent(id, fault) => DoMarkSent(s, id, fault)
    case History(id, written) => DoHistory(s, id, written)
    case Transmit(id, refused) => DoTransmit(s, id, refused)
    case Receive(id, outcome) => DoReceive(s, id, outcome)
    case Record(id, fault) => DoRecord(s, id, fault)
    case Settle(id, mac) => DoSettle(s, id, mac)
    case Release(id) => DoRelease(s, id)
    case CancelRead(id) => DoCancelRead(s, id)
    case CancelQueue(id) => DoCancelQueue(s, id)
  }

  /** The SENT write, the last one before the send. */
  function DoMarkSent(s: State, id: TranId, fault: Fault): State {
    if !StageIs(s, id, Attached) then s
    else
      var sent := s.(db := UpdateStatus(s.db, id, Sent, ""));
      match fault
      case Fine => At(sent, id, Marked)
      case Lost => Abort(s, id)
      case Unsure => Abort(sent, id)
  }

  /** recordStatus, and the end of a request whose row already moved on. */
  function RecordOutcome(s: State, id: TranId, o: Outcome, fault: Fault): State
    requires id < |s.db.tran|
  {
    match fault
    case Fine =>
      if s.db.tran[id].status == Sent
      then Written(s, id, o, VerdictOf(s.db.tran[id].req.tranType, o).status)
      else End(s, id)
    case Lost => At(s, id, Recorded(o, Sent))
    case Unsure => Written(s, id, o, Sent)
  }

  /** The outcome is in the row if it was still SENT; the request goes on believing it holds current. */
  function Written(s: State, id: TranId, o: Outcome, current: Status): State
    requires id < |s.db.tran|
  {
    var row := s.db.tran[id];
    var v := VerdictOf(row.req.tranType, o);
    var verified := row.status == Sent && o.Answer? && o.macOk;
    At(s.(db := UpdateStatusFrom(s.db, id, Sent, v.status, v.rc),
          settled := if verified then s.settled + {id} else s.settled),
       id, Recorded(o, current))
  }

  function FreeClaimOf(db: Db, id: TranId): Db
    requires id < |db.tran|
  {
    match db.tran[id].req.original
    case None => db
    case Some(preAuth) => ReleaseCompletion(db, preAuth, id)
  }

  /** The follow-up of a recorded outcome, from the state the request believes its row holds. */
  function Settled(db: Db, id: TranId, o: Outcome, current: Status, mac: string): Db
    requires id < |db.tran|
  {
    var req := db.tran[id].req;
    match FollowUpOf(req.tranType, VerdictOf(req.tranType, o))
    case Nothing => db
    case FreeClaim => FreeClaimOf(db, id)
    case Repeat => if req.sentAt.Some? then QueueAdvice(db, id, CompletionMessage(req, mac)) else db
    case Reverse(reason) => QueueReversal(db, id, current, reason)
  }

  // The orphan sweeper.

  /** FindOrphans: any part of the aged orphans, with the status each had. */
  function DoFind(s: State, cutoff: int, ids: set<TranId>): State {
    if forall id :: id in ids ==> IsOrphan(s.db, id, cutoff)
    then s.(tasks := s.tasks + set id | id in ids && id < |s.db.tran| :: Task(id, s.db.tran[id].status))
    else s
  }

  function DoTimeOut(s: State, id: TranId): State {
    if Task(id, Sent) !in s.tasks || id >= |s.db.tran| then s
    else
      var left := s.tasks - {Task(id, Sent)};
      if s.db.tran[id].status == Sent
      then s.(db := MarkTimedOut(s.db, id), tasks := left + {Task(id, TimedOut)})
      else s.(tasks := left)
  }

  function DoFollow(s: State, id: TranId, status: Status): State {
    if Task(id, status) !in s.tasks || status == Sent || id >= |s.db.tran| then s
    else s.(db := Followed(s.db, id, status), tasks := s.tasks - {Task(id, status)})
  }

  function ApplySweep(s: State, step: SweepStep): State {
    match step
    case Find(cutoff, ids) => DoFind(s, cutoff, ids)
    case TimeOut(id) => DoTimeOut(s, id)
    case Follow(id, status) => DoFollow(s, id, status)
  }

  /** followUp, once the row is TIMED_OUT or was read as DECLINED. */
  function Followed(db: Db, id: TranId, status: Status): Db
    requires id < |db.tran|
  {
    var req := db.tran[id].req;
    if status == Declined then QueueReversal(db, id, Declined, REASON_MAC_FAILURE)
    else match req.tranType
      case Balance => db
      case Completion =>
        if req.originalRrn == "" || req.sentAt.None? then db else QueueAdvice(db, id, CompletionAdvice(req))
      case _ => QueueReversal(db, id, TimedOut, REASON_TIMEOUT)
  }

  // The store-and-forward worker.

  function Stan(fields: Elements): string {
    if 11 in fields then fields[11] else ""
  }

  predicate Claimables(db: Db, ids: seq<SafId>) {
    && |ids| <= 50
    && (forall k :: 0 <= k < |ids| ==> ids[k] < |db.saf| && Claimable(db.saf[ids[k]]))
    && (forall k, l :: 0 <= k < l < |ids| ==> ids[k] < ids[l])
  }

  /** ClaimDue: the claimed rows are leased IN_FLIGHT in the statement that returns them. */
  function ClaimDue(db: Db, ids: seq<SafId>): Db {
    db.(saf := seq(|db.saf|, i requires 0 <= i < |db.saf| =>
                     if i in ids then db.saf[i].(status := InFlight) else db.saf[i]))
  }

  function Next(s: State): State {
    s.(worker := Worker(if s.worker.batch == [] then [] else s.worker.batch[1..], Fetched))
  }

  predicate Working(s: State) {
    s.worker.batch != [] && s.worker.batch[0].id < |s.db.saf| && s.db.saf[s.worker.batch[0].id].tran < |s.db.tran|
  }

  function DoFetch(s: State, ids: seq<SafId>): State {
    if s.worker.batch == [] && Claimables(s.db, ids)
    then
      var db := ClaimDue(s.db, ids);
      s.(db := db, worker := Worker(seq(|ids|, k requires 0 <= k < |ids| => Claim(ids[k], db.saf[ids[k]])), Fetched))
    else s
  }

  /** assignNetworkIdentity: a row with a STAN is repeated, a row without one gets it persisted first. */
  function DoName(s: State, stan: string, de7: string): State
    requires Working(s)
  {
    var Claim(id, row) := s.worker.batch[0];
    if !s.worker.stage.Fetched? then s
    else if Stan(row.fields) != "" then s.(worker := s.worker.(stage := Named(row.fields, true)))
    else if stan == "" then Next(s.(db := MarkInFlight(s.db, id, row.attempts)))
    else
      var fields := row.fields[11 := stan][7 := de7];
      s.(db := UpdatePayload(s.db, id, fields), worker := s.worker.(stage := Named(fields, false)))
  }

  function DoFrameFails(s: State): State
    requires Working(s)
  {
    if s.worker.stage.Named? then Next(s.(db := MarkDead(s.db, s.worker.batch[0].id))) else s
  }

  function DoDeliver(s: State, refused: bool): State
    requires Working(s)
  {
    var Claim(id, row) := s.worker.batch[0];
    if !s.worker.stage.Named? then s
    else if refused then Next(s.(db := MarkInFlight(s.db, id, row.attempts)))
    else
      var sent := WireSend(id, s.worker.stage.repeat, s.worker.stage.fields, row.cardToken);
      s.(wire := s.wire + [sent], worker := s.worker.(stage := OnWire))
  }

  function DoHear(s: State, reply: Reply): State
    requires Working(s)
  {
    if !s.worker.stage.OnWire? then s
    else
      s.(worker := s.worker.(stage := Replied(reply)),
         responses := if reply.Reply? then s.responses + {Response(s.worker.batch[0].id, reply.rc, reply.macOk)} else s.responses)
  }

  function DoConclude(s: State): State
    requires Working(s)
  {
    if s.worker.stage.Replied?
    then Next(Concluded(s, s.worker.batch[0].id, s.worker.batch[0].row, s.worker.stage.reply))
    else s
  }

  function ApplyWorker(s: State, step: WorkerStep): State {
    if step.Fetch? then DoFetch(s, step.ids)
    else if !Working(s) then s
    else match step
      case Name(stan, de7) => DoName(s, stan, de7)
      case FrameFails => DoFrameFails(s)
      case Deliver(refused) => DoDeliver(s, refused)
      case Hear(reply) => DoHear(s, reply)
      case Conclude => DoConclude(s)
      case Skip => Next(s)
      case Fetch(_) => s
  }

  /** settle, waitForLink and retryLater. */
  function Concluded(s: State, id: SafId, row: Saf, reply: Reply): State
    requires id < |s.db.saf| && s.db.saf[id].tran < |s.db.tran|
  {
    if reply.Reply? && reply.rc == RC_LINK_DOWN then s.(db := MarkInFlight(s.db, id, row.attempts))
    else if reply.Reply? && reply.rc == RC_APPROVED && reply.macOk then s.(db := MarkAcked(s.db, id))
    else if row.attempts + 1 >= row.maxAttempts then
      s.(db := MarkDead(s.db, id), counted := s.counted + multiset{id}, exhausted := s.exhausted + {id})
    else
      s.(db := MarkInFlight(s.db, id, row.attempts + 1), counted := s.counted + multiset{id})
  }

  // Runs.

  function Apply(s: State, step: Step): State {
    match step
    case OfRequest(r) => ApplyRequest(s, r)
    case OfSweep(w) => ApplySweep(s, w)
    case OfWorker(d) => ApplyWorker(s, d)
    case Crash => s.(requests := map[], intents := {}, cancels := {}, tasks := {}, worker := IDLE)
  }

  function After(s: State, steps: seq<Step>): State
    decreases |steps|
  {
    if steps == [] then s else After(Apply(s, steps[0]), steps[1..])
  }

  function Run(steps: seq<Step>): State {
    After(Init(), steps)
  }

  /** Crash-stop faults only: a statement commits, or its process stops. */
  predicate CrashStop(step: Step) {
    step.OfRequest? ==>
      match step.r
      case MarkSent(_, fault) => fault == Fine
      case History(_, written) => written
      case Record(_, fault) => fault == Fine
      case _ => true
  }

  predicate AllCrashStop(steps: seq<Step>) {
    forall i :: 0 <= i < |steps| ==> CrashStop(steps[i])
  }
}

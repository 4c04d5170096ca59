/**
 The acquirer's tables tran_log and saf_queue and the statements run on them. Each function is one
 SQL statement, or one DB transaction, so one atomic step. Rows are never deleted, so an id is a
 position. An RRN names one sent row (module Stan), so rows refer to each other by id.
 */
module Store {
  import opened Numerals

  datatype Option<+T> = None | Some(value: T)

  type TranId = nat
  type SafId = nat
  type Elements = map<int, string>

  datatype TranType = Purchase | PreAuth | Completion | Refund | Balance

  datatype Status = Created | Sent | Approved | Declined | TimedOut | ReversalPending | Reversed

  /** sent_at: the moment itself, and the texts the messages format from it. */
  datatype Moment = Moment(at: int, de7: string, de12: string, de13: string)

  /** The columns of a tran_log row that are written once, at insert. */
  datatype Request = Request(
    tranType: TranType,
    mti: string,
    rrn: string,
    processingCode: string,
    amount: int,
    currency: string,
    terminalId: string,
    merchantId: string,
    posEntryMode: string,
    stan: string,
    sentAt: Option<Moment>,
    businessDate: string,
    cardToken: string,
    original: Option<TranId>,
    originalRrn: string)

  datatype Tran = Tran(req: Request, status: Status, rc: string, completedBy: Option<TranId>)

  datatype Advice = Reversal0420 | Completion0220

  datatype SafStatus = Pending | InFlight | Acked | Dead

  datatype Saf = Saf(
    tran: TranId,
    advice: Advice,
    fields: Elements,
    cardToken: string,
    status: SafStatus,
    attempts: nat,
    maxAttempts: nat)

  datatype Db = Db(tran: seq<Tran>, saf: seq<Saf>)

  const RC_APPROVED := "00"
  const RC_PARTIAL := "10"
  const RC_FORMAT_ERROR := "30"
  const RC_LINK_DOWN := "91"
  const RC_MAC_FAILURE := "96"
  const REASON_CANCELLATION := "17"
  const REASON_TIMEOUT := "68"
  const REASON_MAC_FAILURE := "06"
  const ACQUIRER_ID := "970499"
  const MAX_ATTEMPTS := 20

  // What an advice repeats from the original request.

  /** fmt's "%012d". */
  function AmountText(amount: int): string {
    if amount < 0 then "-" + PadLeft(Format(-amount, 10), 11) else PadLeft(Format(amount, 10), 12)
  }

  /** originalDE15: the business date, or for a row without one the date of DE 7. */
  function OriginalDE15(req: Request): string
    requires req.sentAt.Some?
  {
    if req.businessDate != "" then req.businessDate
    else if |req.sentAt.value.de7| >= 4 then req.sentAt.value.de7[..4]
    else ""
  }

  /** A row that never got a STAN or a DE 7 moment never reached the issuer. */
  predicate EverSent(req: Request) {
    req.sentAt.Some? && req.stan != ""
  }

  /** reversalAdvice: every 0420 element that repeats the original. DE 2, 7, 11 and 128 come later. */
  function ReversalAdvice(req: Request, reason: string): Elements
    requires EverSent(req)
  {
    var sent := req.sentAt.value;
    var originalMti := if req.mti == "" then "0200" else req.mti;
    map[
      3 := req.processingCode,
      4 := AmountText(req.amount),
      12 := sent.de12,
      13 := sent.de13,
      15 := OriginalDE15(req),
      22 := req.posEntryMode,
      25 := "00",
      32 := ACQUIRER_ID,
      37 := req.rrn,
      39 := reason,
      41 := req.terminalId,
      42 := req.merchantId,
      49 := req.currency,
      90 := originalMti + req.stan + sent.de7 + ("00000" + ACQUIRER_ID) + "00000000000"
    ]
  }

  /** completionAdvice: the 0220 of a completion, rebuilt from its row. */
  function CompletionAdvice(req: Request): Elements
    requires req.sentAt.Some?
  {
    map[
      15 := OriginalDE15(req),
      3 := req.processingCode,
      4 := AmountText(req.amount),
      7 := req.sentAt.value.de7,
      11 := req.stan,
      32 := ACQUIRER_ID,
      37 := req.originalRrn,
      41 := req.terminalId,
      42 := req.merchantId,
      49 := req.currency
    ]
  }

  /** The 0220 as createCompletion, finalizeFields and attachMAC build it before it is sent. */
  function CompletionMessage(req: Request, mac: string): Elements
    requires req.sentAt.Some?
  {
    map[
      3 := req.processingCode,
      4 := AmountText(req.amount),
      7 := req.sentAt.value.de7,
      11 := req.stan,
      32 := ACQUIRER_ID,
      37 := req.originalRrn,
      41 := req.terminalId,
      42 := req.merchantId,
      49 := req.currency,
      15 := req.businessDate,
      64 := mac
    ]
  }

  // Statements on tran_log.

  function Insert(db: Db, row: Tran): Db {
    db.(tran := db.tran + [row])
  }

  /** InsertCompletion: claims the pre-authorization and inserts, or does nothing. */
  function InsertCompletion(db: Db, row: Tran, preAuth: TranId): Db {
    if !Completable(db, preAuth) then db
    else
      var claimed := db.tran[preAuth].(completedBy := Some(|db.tran|));
      db.(tran := db.tran[preAuth := claimed] + [row])
  }

  predicate Completable(db: Db, preAuth: TranId) {
    && preAuth < |db.tran|
    && db.tran[preAuth].req.tranType == PreAuth
    && db.tran[preAuth].status == Approved
    && db.tran[preAuth].completedBy.None?
  }

  function ReleaseCompletion(db: Db, preAuth: TranId, completion: TranId): Db {
    if preAuth < |db.tran| && db.tran[preAuth].completedBy == Some(completion)
    then db.(tran := db.tran[preAuth := db.tran[preAuth].(completedBy := None)])
    else db
  }

  /** UpdateStatus: unconditional. */
  function UpdateStatus(db: Db, id: TranId, status: Status, rc: string): Db
    requires id < |db.tran|
  {
    db.(tran := db.tran[id := db.tran[id].(status := status, rc := rc)])
  }

  /** UpdateStatusFrom: only while the row is still in from; otherwise ErrStateMoved, nothing written. */
  function UpdateStatusFrom(db: Db, id: TranId, from: Status, status: Status, rc: string): Db
    requires id < |db.tran|
  {
    if db.tran[id].status == from then UpdateStatus(db, id, status, rc) else db
  }

  function MarkTimedOut(db: Db, id: TranId): Db
    requires id < |db.tran|
  {
    UpdateStatusFrom(db, id, Sent, TimedOut, db.tran[id].rc)
  }

  // Statements on saf_queue.

  predicate HasAdvice(db: Db, id: TranId) {
    exists i :: 0 <= i < |db.saf| && db.saf[i].tran == id
  }

  function NewAdvice(id: TranId, advice: Advice, fields: Elements, cardToken: string): Saf {
    Saf(id, advice, fields, cardToken, Pending, 0, MAX_ATTEMPTS)
  }

  /** The guard of Queue: the row is still in the state its caller read, and was ever sent. */
  predicate CanReverse(db: Db, id: TranId, from: Status) {
    id < |db.tran| && db.tran[id].status == from && EverSent(db.tran[id].req)
  }

  /** ReversalQueuer.Queue: the guarded move and the 0420, in one transaction. */
  function QueueReversal(db: Db, id: TranId, from: Status, reason: string): Db {
    if !CanReverse(db, id, from) then db
    else
      var row := db.tran[id];
      Db(db.tran[id := row.(status := ReversalPending)],
         db.saf + [NewAdvice(id, Reversal0420, ReversalAdvice(row.req, reason), row.req.cardToken)])
  }

  const NOT_STORED := {2, 35, 52, 64, 128}

  /** QueueAdvice: no guard; the MAC and card data are dropped. */
  function QueueAdvice(db: Db, id: TranId, sent: Elements): Db {
    db.(saf := db.saf + [NewAdvice(id, Completion0220, sent - NOT_STORED, "")])
  }

  predicate Claimable(row: Saf) {
    row.status == Pending || row.status == InFlight
  }

  function SetSaf(db: Db, i: SafId, row: Saf): Db
    requires i < |db.saf|
  {
    db.(saf := db.saf[i := row])
  }

  function UpdatePayload(db: Db, i: SafId, fields: Elements): Db
    requires i < |db.saf|
  {
    SetSaf(db, i, db.saf[i].(fields := fields))
  }

  function MarkInFlight(db: Db, i: SafId, attempts: nat): Db
    requires i < |db.saf|
  {
    SetSaf(db, i, db.saf[i].(status := InFlight, attempts := attempts))
  }

  function MarkDead(db: Db, i: SafId): Db
    requires i < |db.saf|
  {
    SetSaf(db, i, db.saf[i].(status := Dead))
  }

  /** MarkAcked and finishOnAck: the advice is ACKED and its transaction finishes, in one transaction. */
  function MarkAcked(db: Db, i: SafId): Db
    requires i < |db.saf| && db.saf[i].tran < |db.tran|
  {
    var row := db.saf[i];
    var acked := SetSaf(db, i, row.(status := Acked));
    match row.advice
    case Reversal0420 => UpdateStatusFrom(acked, row.tran, ReversalPending, Reversed, db.tran[row.tran].rc)
    case Completion0220 => UpdateStatusFrom(acked, row.tran, TimedOut, Approved, RC_APPROVED)
  }

  // Orphans.

  /** FindOrphans' predicate without its age limit. */
  predicate OrphanShape(db: Db, id: TranId)
    requires id < |db.tran|
  {
    var row := db.tran[id];
    && row.req.sentAt.Some?
    && (|| row.status == Sent
        || (row.status == TimedOut && row.req.tranType != Balance && !HasAdvice(db, id))
        || (row.status == Declined && row.rc == RC_MAC_FAILURE && row.req.tranType !in {Balance, Completion} && !HasAdvice(db, id)))
  }

  predicate IsOrphan(db: Db, id: TranId, cutoff: int) {
    id < |db.tran| && OrphanShape(db, id) && db.tran[id].req.sentAt.value.at < cutoff
  }

  // The table invariant every statement keeps.

  predicate RefsValid(db: Db) {
    forall i :: 0 <= i < |db.saf| ==> db.saf[i].tran < |db.tran|
  }

  predicate Unwound(status: Status) {
    status == ReversalPending || status == Reversed
  }

  predicate IsReversal(db: Db, i: SafId, id: TranId) {
    i < |db.saf| && db.saf[i].advice == Reversal0420 && db.saf[i].tran == id
  }

  /**
   A transaction has at most one 0420; while it is not ACKED the row is REVERSAL_PENDING, once it is
   the row is REVERSED; and no row is in either state without its 0420.
   */
  ghost predicate ReversalsMatch(db: Db) {
    && RefsValid(db)
    && (forall i :: 0 <= i < |db.saf| && db.saf[i].advice == Reversal0420 ==>
          db.tran[db.saf[i].tran].status == (if db.saf[i].status == Acked then Reversed else ReversalPending))
    && (forall i, j :: 0 <= i < j < |db.saf| && db.saf[i].advice == Reversal0420 && db.saf[j].advice == Reversal0420 ==>
          db.saf[i].tran != db.saf[j].tran)
    && (forall id: TranId :: id < |db.tran| && Unwound(db.tran[id].status) ==> exists i: SafId :: IsReversal(db, i, id))
  }

  // What each statement does to that invariant.

  lemma InsertKeeps(db: Db, row: Tran)
    requires ReversalsMatch(db) && !Unwound(row.status)
    ensures ReversalsMatch(Insert(db, row))
  {
    CarryWitness(db, Insert(db, row));
  }

  /** The 0420 of every unwound row is still there when the queue only grew or changed in place. */
  lemma CarryWitness(db: Db, after: Db)
    requires forall id: TranId :: id < |db.tran| && Unwound(db.tran[id].status) ==> exists i: SafId :: IsReversal(db, i, id)
    requires |db.saf| <= |after.saf|
    requires forall i :: 0 <= i < |db.saf| ==> after.saf[i].advice == db.saf[i].advice && after.saf[i].tran == db.saf[i].tran
    ensures forall id: TranId :: id < |db.tran| && Unwound(db.tran[id].status) ==> exists i: SafId :: IsReversal(after, i, id)
  {
    forall id: TranId | id < |db.tran| && Unwound(db.tran[id].status) ensures exists i: SafId :: IsReversal(after, i, id) {
      var i: SafId :| IsReversal(db, i, id);
      assert IsReversal(after, i, id);
    }
  }

  lemma UpdateStatusKeeps(db: Db, id: TranId, status: Status, rc: string)
    requires ReversalsMatch(db) && id < |db.tran|
    requires !Unwound(db.tran[id].status) && !Unwound(status)
    ensures ReversalsMatch(UpdateStatus(db, id, status, rc))
  {
    CarryWitness(db, UpdateStatus(db, id, status, rc));
  }

  lemma ClaimKeeps(db: Db, row: Tran, preAuth: TranId)
    requires ReversalsMatch(db) && !Unwound(row.status)
    ensures ReversalsMatch(InsertCompletion(db, row, preAuth))
  {
    CarryWitness(db, InsertCompletion(db, row, preAuth));
  }

  lemma ReleaseKeeps(db: Db, preAuth: TranId, completion: TranId)
    requires ReversalsMatch(db)
    ensures ReversalsMatch(ReleaseCompletion(db, preAuth, completion))
  {
    CarryWitness(db, ReleaseCompletion(db, preAuth, completion));
  }

  lemma QueueReversalKeeps(db: Db, id: TranId, from: Status, reason: string)
    requires ReversalsMatch(db) && !Unwound(from)
    ensures ReversalsMatch(QueueReversal(db, id, from, reason))
  {
    if CanReverse(db, id, from) {
      var after := QueueReversal(db, id, from, reason);
      CarryWitness(db, after);
      assert IsReversal(after, |db.saf|, id);
    }
  }

  lemma QueueAdviceKeeps(db: Db, id: TranId, sent: Elements)
    requires ReversalsMatch(db) && id < |db.tran|
    ensures ReversalsMatch(QueueAdvice(db, id, sent))
  {
    CarryWitness(db, QueueAdvice(db, id, sent));
  }

  lemma SetSafKeeps(db: Db, i: SafId, row: Saf)
    requires ReversalsMatch(db) && i < |db.saf|
    requires row.tran == db.saf[i].tran && row.advice == db.saf[i].advice
    requires row.status != Acked && db.saf[i].status != Acked
    ensures ReversalsMatch(SetSaf(db, i, row))
  {
    CarryWitness(db, SetSaf(db, i, row));
  }

  lemma MarkAckedKeeps(db: Db, i: SafId)
    requires ReversalsMatch(db) && i < |db.saf| && db.saf[i].status != Acked
    ensures ReversalsMatch(MarkAcked(db, i))
  {
    var id := db.saf[i].tran;
    match db.saf[i].advice
    case Reversal0420 => AckedReversalKeeps(db, i, id);
    case Completion0220 => AckedRepeatKeeps(db, i, id);
  }

  lemma AckedReversalKeeps(db: Db, i: SafId, id: TranId)
    requires ReversalsMatch(db) && IsReversal(db, i, id) && db.saf[i].status != Acked
    ensures ReversalsMatch(MarkAcked(db, i))
  {
    var after := MarkAcked(db, i);
    assert after.tran == db.tran[id := db.tran[id].(status := Reversed)] && after.saf == db.saf[i := db.saf[i].(status := Acked)];
    CarryWitness(db, after);
  }

  lemma AckedRepeatKeeps(db: Db, i: SafId, id: TranId)
    requires ReversalsMatch(db) && i < |db.saf| && db.saf[i].advice == Completion0220 && db.saf[i].tran == id
    ensures ReversalsMatch(MarkAcked(db, i))
  {
    CarryWitness(db, MarkAcked(db, i));
  }

  const COMPLETION_ELEMENTS := {3, 4, 7, 11, 15, 32, 37, 41, 42, 49}

  lemma CompletionKeys(req: Request, mac: string)
    requires req.sentAt.Some?
    ensures CompletionAdvice(req).Keys == COMPLETION_ELEMENTS
    ensures CompletionMessage(req, mac).Keys == COMPLETION_ELEMENTS + {64}
  {
  }

  lemma CompletionValues(req: Request, mac: string, n: int)
    requires req.sentAt.Some? && req.businessDate != "" && n in COMPLETION_ELEMENTS
    ensures n in CompletionAdvice(req) && n in CompletionMessage(req, mac)
    ensures CompletionMessage(req, mac)[n] == CompletionAdvice(req)[n]
  {
  }

  /** Two messages with the same elements but for those that are not stored are stored alike. */
  lemma StoredAlike(message: Elements, plain: Elements)
    requires plain.Keys == message.Keys - NOT_STORED
    requires forall n :: n in plain ==> n in message && message[n] == plain[n]
    ensures message - NOT_STORED == plain
  {
    var stored := message - NOT_STORED;
    assert forall n :: n in stored <==> n in plain;
    assert forall n :: n in plain ==> n in stored && stored[n] == plain[n];
  }

  /**
   Either path that queues a completion's repeat stores the very message that was sent: QueueAdvice
   from the message in hand, the sweeper from the row the request left.
   */
  lemma CompletionRepeatIsTheSameMessage(req: Request, mac: string)
    requires req.sentAt.Some? && req.businessDate != ""
    ensures CompletionMessage(req, mac) - NOT_STORED == CompletionAdvice(req)
    ensures CompletionAdvice(req) - NOT_STORED == CompletionAdvice(req)
  {
    var message, plain := CompletionMessage(req, mac), CompletionAdvice(req);
    CompletionKeys(req, mac);
    forall n | n in plain ensures n in message && message[n] == plain[n] {
      CompletionValues(req, mac, n);
    }
    StoredAlike(message, plain);
    StoredAlike(plain, plain);
  }
}

/**
 The store-and-forward worker in place: one pass over the due advices. Whatever statement fails and
 whatever the other processes do between its statements, every pass is one of the gateway's runs.
 */
module SafWorker {
  import opened Store
  import opened Gateway
  import opened GatewayProofs
  import opened Tables
  import opened Interleaving

  const CLAIM_BATCH: nat := 50

  /**
   What one delivery meets: a STAN ("" without a link) and DE 7, how persisting them fares, whether the
   frame packs, the send, whether the last write is lost, and what the others do.
   */
  datatype Meets = Meets(
    stan: string,
    de7: string,
    saved: Fault,
    framed: bool,
    refused: bool,
    reply: Reply,
    lost: bool,
    others: World)

  /** Every write of the delivery commits, and nobody else acts. */
  ghost predicate Undisturbed(m: Meets) {
    m.saved == Fine && !m.lost && Silent(m.others)
  }

  // What one delivery leaves.

  predicate HasStan(row: Saf) {
    11 in row.fields && row.fields[11] != ""
  }

  /** The elements it goes out with: those stored, with a STAN and DE 7 if it had none. */
  function Identity(row: Saf, m: Meets): Elements {
    if HasStan(row) then row.fields else row.fields[11 := m.stan][7 := m.de7]
  }

  /** There was a STAN for it, new or old. */
  predicate CanName(row: Saf, m: Meets) {
    HasStan(row) || m.stan != ""
  }

  predicate GoesOut(row: Saf, m: Meets) {
    CanName(row, m) && m.framed && !m.refused
  }

  predicate Acks(row: Saf, m: Meets) {
    GoesOut(row, m) && m.reply == Reply("00", true)
  }

  /** The link, not the advice: no STAN, a refused send, or an issuer not signed on. */
  predicate Waits(row: Saf, m: Meets) {
    || !CanName(row, m)
    || (m.framed && m.refused)
    || (GoesOut(row, m) && m.reply.Reply? && m.reply.rc == "91")
  }

  /** The advice after its delivery. */
  ghost predicate RowTells(row: Saf, m: Meets, after: Saf) {
    && after.tran == row.tran && after.advice == row.advice && after.cardToken == row.cardToken && after.maxAttempts == row.maxAttempts
    && after.fields == (if CanName(row, m) then Identity(row, m) else row.fields)
    && (Waits(row, m) ==> after.status == InFlight && after.attempts == row.attempts)
    && (CanName(row, m) && !m.framed ==> after.status == Dead && after.attempts == row.attempts)
    && (Acks(row, m) ==> after.status == Acked && after.attempts == row.attempts)
    && (GoesOut(row, m) && !Acks(row, m) && !Waits(row, m) ==>
          if row.attempts + 1 >= row.maxAttempts then after.status == Dead && after.attempts == row.attempts
          else after.status == InFlight && after.attempts == row.attempts + 1)
  }

  /** The message of a delivery that goes out: plain only if it had no STAN before. */
  function Sends(claim: Claim, m: Meets): seq<WireSend> {
    if GoesOut(claim.row, m) then [WireSend(claim.id, HasStan(claim.row), Identity(claim.row, m), claim.row.cardToken)] else []
  }

  /** An acknowledgement finishes what its transaction was waiting for. */
  function Finishes(row: Saf, tran: Tran): Tran {
    if row.advice == Reversal0420 && tran.status == ReversalPending then tran.(status := Reversed)
    else if row.advice == Completion0220 && tran.status == TimedOut then tran.(status := Approved, rc := "00")
    else tran
  }

  /** This advice, its transaction if acknowledged, and nothing else. */
  ghost predicate TablesTell(before: Db, after: Db, claim: Claim, m: Meets) {
    && claim.id < |before.saf| && claim.row.tran < |before.tran| && |after.saf| == |before.saf| && |after.tran| == |before.tran|
    && RowTells(claim.row, m, after.saf[claim.id])
    && (forall i: SafId :: i < |before.saf| && i != claim.id ==> after.saf[i] == before.saf[i])
    && (forall k: TranId :: k < |before.tran| ==>
          after.tran[k] == if Acks(claim.row, m) && k == claim.row.tran then Finishes(claim.row, before.tran[k]) else before.tran[k])
  }

  /** One delivery: what it leaves in the tables, and one message if it goes out. */
  ghost predicate Delivered(s: State, s': State, claim: Claim, m: Meets) {
    TablesTell(s.db, s'.db, claim, m) && s'.wire == s.wire + Sends(claim, m)
  }

  lemma UpdateTells(before: Db, after: Db, claim: Claim, m: Meets, row: Saf)
    requires claim.id < |before.saf| && claim.row.tran < |before.tran| && after == SetSaf(before, claim.id, row)
    requires RowTells(claim.row, m, row) && !Acks(claim.row, m)
    ensures TablesTell(before, after, claim, m)
  {
  }

  lemma AckTells(before: Db, claim: Claim, m: Meets)
    requires claim.id < |before.saf| && claim.row.tran < |before.tran| && Acks(claim.row, m)
    requires before.saf[claim.id] == claim.row.(fields := Identity(claim.row, m))
    ensures TablesTell(before, MarkAcked(before, claim.id), claim, m)
  {
  }

  /** Storing the identity first changes nothing else. */
  lemma NamedFirst(before: Db, named: Db, after: Db, claim: Claim, m: Meets, row: Saf)
    requires claim.id < |before.saf| && named == SetSaf(before, claim.id, row) && TablesTell(named, after, claim, m)
    ensures TablesTell(before, after, claim, m)
  {
  }

  /** The worker is at this stage of delivering a claim. */
  ghost predicate AtStage(s: State, claim: Claim, stage: Delivery) {
    Working(s) && s.worker.batch[0] == claim && s.worker.stage == stage
  }

  ghost predicate Finished(s: State, s': State)
    requires s.worker.batch != []
  {
    s'.worker == Worker(s.worker.batch[1..], Fetched)
  }

  /** The others take their turn; they only append to the queue. */
  method Turn(t: Database, steps: seq<Step>, ghost start: State, s: State) returns (s': State)
    requires Leads(start, s) && t.Contents() == s.db && Working(s)
    modifies t
    ensures Leads(start, s') && t.Contents() == s'.db && Working(s') && s'.worker == s.worker
    ensures steps == [] ==> s' == s
  {
    s' := Meanwhile(t, steps, OfSaf, start, s);
    OthersAppend(s, steps);
  }

  // Each step of the worker leads on.

  lemma WorkLeads(start: State, s: State, step: WorkerStep)
    requires Leads(start, s)
    ensures Leads(start, ApplyWorker(s, step))
  {
    LeadsOn(start, s, OfWorker(step));
  }

  lemma NameLeads(start: State, s: State, stan: string, de7: string)
    requires Leads(start, s) && Working(s)
    ensures Leads(start, DoName(s, stan, de7))
  {
    WorkLeads(start, s, Name(stan, de7));
  }

  lemma SendLeads(start: State, s: State, refused: bool, reply: Reply)
    requires Leads(start, s) && Working(s)
    ensures Leads(start, DoDeliver(s, refused)) && Leads(start, DoFrameFails(s)) && Leads(start, DoHear(s, reply))
  {
    WorkLeads(start, s, Deliver(refused));
    WorkLeads(start, s, FrameFails);
    WorkLeads(start, s, Hear(reply));
  }

  lemma EndLeads(start: State, s: State)
    requires Leads(start, s) && Working(s)
    ensures Leads(start, DoConclude(s)) && Leads(start, Next(s))
  {
    WorkLeads(start, s, WorkerStep.Conclude);
    WorkLeads(start, s, Skip);
  }

  /** deliverRow: the identity is stored before anything is sent. */
  method DeliverRow(t: Database, claim: Claim, m: Meets, ghost start: State, s: State) returns (s': State)
    requires Leads(start, s) && t.Contents() == s.db && AtStage(s, claim, Fetched) && s.db.saf[claim.id] == claim.row
    modifies t
    ensures Leads(start, s') && t.Contents() == s'.db && Finished(s, s')
    ensures Undisturbed(m) ==> Delivered(s, s', claim, m)
  {
    var ok;
    ok, s' := Identify(t, claim, m, start, s);
    if ok {
      ghost var named := s';
      s' := SendNamed(t, claim, m, start, s');
      if Undisturbed(m) {
        NamedFirst(s.db, named.db, s'.db, claim, m, claim.row.(fields := Identity(claim.row, m)));
      }
    }
  }

  /** No link to draw a STAN from: the advice waits. */
  lemma WithoutLink(s: State, claim: Claim, m: Meets)
    requires AtStage(s, claim, Fetched) && claim.id < |s.db.saf| && claim.row.tran < |s.db.tran| && s.db.saf[claim.id] == claim.row
    requires Undisturbed(m) && !HasStan(claim.row) && m.stan == ""
    ensures Finished(s, DoName(s, m.stan, m.de7)) && Delivered(s, DoName(s, m.stan, m.de7), claim, m)
  {
    UpdateTells(s.db, DoName(s, m.stan, m.de7).db, claim, m, claim.row.(status := InFlight));
  }

  /** assignNetworkIdentity; ok is false when the delivery ends here. */
  method Identify(t: Database, claim: Claim, m: Meets, ghost start: State, s: State) returns (ok: bool, s': State)
    requires Leads(start, s) && t.Contents() == s.db && AtStage(s, claim, Fetched) && s.db.saf[claim.id] == claim.row
    modifies t
    ensures Leads(start, s') && t.Contents() == s'.db
    ensures !ok ==> Finished(s, s') && (Undisturbed(m) ==> Delivered(s, s', claim, m))
    ensures ok ==> AtStage(s', claim, s'.worker.stage) && s'.worker.stage.Named? && s'.worker.batch == s.worker.batch
    ensures ok && Undisturbed(m) ==>
              NamedAs(s', claim, m) && s'.wire == s.wire && s'.db == SetSaf(s.db, claim.id, claim.row.(fields := Identity(claim.row, m)))
  {
    s' := Turn(t, m.others(0), start, s);
    ok := true;
    if Stan(claim.row.fields) != "" {
      NameLeads(start, s', m.stan, m.de7);
      s' := DoName(s', m.stan, m.de7);
      return;
    }
    if if m.stan == "" then m.lost else m.saved == Lost {
      EndLeads(start, s');
      return false, Next(s');
    }
    NameLeads(start, s', m.stan, m.de7);
    if m.stan == "" {
      t.Reschedule(claim.id, claim.row.attempts);
      if Undisturbed(m) {
        WithoutLink(s, claim, m);
      }
      return false, DoName(s', m.stan, m.de7);
    }
    t.SavePayload(claim.id, claim.row.fields[11 := m.stan][7 := m.de7]);
    s' := DoName(s', m.stan, m.de7);
    if m.saved == Unsure {
      EndLeads(start, s');
      return false, Next(s');
    }
  }

  /** The advice is stored as it will go out. */
  ghost predicate NamedAs(s: State, claim: Claim, m: Meets) {
    && CanName(claim.row, m) && claim.id < |s.db.saf|
    && s.worker.stage == Named(Identity(claim.row, m), HasStan(claim.row))
    && s.db.saf[claim.id] == claim.row.(fields := Identity(claim.row, m))
  }

  /** The advice has its identity: frame it and send it. */
  method SendNamed(t: Database, claim: Claim, m: Meets, ghost start: State, s: State) returns (s': State)
    requires Leads(start, s) && t.Contents() == s.db && AtStage(s, claim, s.worker.stage) && s.worker.stage.Named?
    modifies t
    ensures Leads(start, s') && t.Contents() == s'.db && Finished(s, s')
    ensures Undisturbed(m) && NamedAs(s, claim, m) ==> Delivered(s, s', claim, m)
  {
    s' := Turn(t, m.others(1), start, s);
    SendLeads(start, s', m.refused, m.reply);
    if (!m.framed || m.refused) && m.lost {
      EndLeads(start, s');
      return Next(s');
    }
    if !m.framed {
      t.Bury(claim.id);
      if NamedAs(s', claim, m) {
        UpdateTells(s'.db, DoFrameFails(s').db, claim, m, s'.db.saf[claim.id].(status := Dead));
      }
      return DoFrameFails(s');
    }
    if m.refused {
      t.Reschedule(claim.id, claim.row.attempts);
      if NamedAs(s', claim, m) {
        UpdateTells(s'.db, DoDeliver(s', m.refused).db, claim, m, s'.db.saf[claim.id].(status := InFlight, attempts := claim.row.attempts));
      }
      return DoDeliver(s', m.refused);
    }
    s' := DoDeliver(s', m.refused);
    s' := AwaitReply(t, claim, m, start, s');
  }

  ghost predicate SentAs(s: State, claim: Claim, m: Meets) {
    GoesOut(claim.row, m) && claim.id < |s.db.saf| && s.db.saf[claim.id] == claim.row.(fields := Identity(claim.row, m))
  }

  method AwaitReply(t: Database, claim: Claim, m: Meets, ghost start: State, s: State) returns (s': State)
    requires Leads(start, s) && t.Contents() == s.db && AtStage(s, claim, OnWire)
    modifies t
    ensures Leads(start, s') && t.Contents() == s'.db && Finished(s, s')
    ensures Undisturbed(m) && SentAs(s, claim, m) ==> TablesTell(s.db, s'.db, claim, m) && s'.wire == s.wire
  {
    s' := Turn(t, m.others(2), start, s);
    SendLeads(start, s', m.refused, m.reply);
    s' := EndDelivery(t, claim, m, start, DoHear(s', m.reply));
  }

  method EndDelivery(t: Database, claim: Claim, m: Meets, ghost start: State, s: State) returns (s': State)
    requires Leads(start, s) && t.Contents() == s.db && AtStage(s, claim, Replied(m.reply))
    modifies t
    ensures Leads(start, s') && t.Contents() == s'.db && Finished(s, s')
    ensures Undisturbed(m) && SentAs(s, claim, m) ==> TablesTell(s.db, s'.db, claim, m) && s'.wire == s.wire
  {
    s' := Turn(t, m.others(3), start, s);
    EndLeads(start, s');
    if m.lost {
      return Next(s');
    }
    Settle(t, claim, m.reply, s');
    if SentAs(s', claim, m) {
      SettleTells(s', claim, m);
    }
    s' := DoConclude(s');
  }

  lemma SettleTells(s: State, claim: Claim, m: Meets)
    requires SentAs(s, claim, m) && claim.row.tran < |s.db.tran|
    ensures TablesTell(s.db, Concluded(s, claim.id, claim.row, m.reply).db, claim, m)
  {
    var now, row, reply := s.db.saf[claim.id], claim.row, m.reply;
    var after := Concluded(s, claim.id, row, reply).db;
    if reply.Reply? && reply.rc == RC_LINK_DOWN {
      UpdateTells(s.db, after, claim, m, now.(status := InFlight, attempts := row.attempts));
    } else if reply.Reply? && reply.rc == RC_APPROVED && reply.macOk {
      AckTells(s.db, claim, m);
    } else if row.attempts + 1 >= row.maxAttempts {
      UpdateTells(s.db, after, claim, m, now.(status := Dead));
    } else {
      UpdateTells(s.db, after, claim, m, now.(status := InFlight, attempts := row.attempts + 1));
    }
  }

  /** settle, waitForLink and retryLater: only a verified "00" acknowledges; 91 waits uncounted; anything else counts. */
  method Settle(t: Database, claim: Claim, reply: Reply, ghost s: State)
    requires t.Contents() == s.db && claim.id < |t.saf| && t.saf[claim.id].tran < |t.tran|
    modifies t
    ensures t.Contents() == Concluded(s, claim.id, claim.row, reply).db
  {
    if reply.Reply? && reply.rc == RC_LINK_DOWN {
      t.Reschedule(claim.id, claim.row.attempts);
    } else if reply.Reply? && reply.rc == RC_APPROVED && reply.macOk {
      t.Acknowledge(claim.id);
    } else if claim.row.attempts + 1 >= claim.row.maxAttempts {
      t.Bury(claim.id);
    } else {
      t.Reschedule(claim.id, claim.row.attempts + 1);
    }
  }

  /** A claimed row and its transaction are always there. */
  lemma ReadyToWork(start: State, s: State)
    requires Invariant(start) && Leads(start, s) && s.worker.batch != []
    ensures Working(s)
    ensures s.worker.stage.Fetched? ==> s.db.saf[s.worker.batch[0].id] == s.worker.batch[0].row
  {
    LeadsKeeps(start, s);
    assert ClaimFits(s, 0);
  }

  // One pass.

  function Claimed(db: Db, ids: seq<SafId>): seq<Claim>
    requires forall k :: 0 <= k < |ids| ==> ids[k] < |db.saf|
  {
    seq(|ids|, k requires 0 <= k < |ids| => Claim(ids[k], db.saf[ids[k]].(status := InFlight)))
  }

  /** The messages of the first n deliveries, in order. */
  function SendsOf(batch: seq<Claim>, meets: nat -> Meets, n: nat): seq<WireSend>
    requires n <= |batch|
  {
    if n == 0 then [] else SendsOf(batch, meets, n - 1) + Sends(batch[n - 1], meets(n - 1))
  }

  /** A transaction after the first n deliveries. */
  function FinishedBy(batch: seq<Claim>, meets: nat -> Meets, n: nat, id: TranId, tran: Tran): Tran
    requires n <= |batch|
  {
    if n == 0 then tran
    else
      var before, row := FinishedBy(batch, meets, n - 1, id, tran), batch[n - 1].row;
      if Acks(row, meets(n - 1)) && row.tran == id then Finishes(row, before) else before
  }

  ghost predicate Calm(meets: nat -> Meets) {
    forall n: nat :: Undisturbed(meets(n))
  }

  ghost predicate Rising(batch: seq<Claim>) {
    forall k, l :: 0 <= k < l < |batch| ==> batch[k].id < batch[l].id
  }

  predicate InBatch(batch: seq<Claim>, i: SafId) {
    exists k :: 0 <= k < |batch| && batch[k].id == i
  }

  /** The first n advices of the batch have had one delivery each; the others are as they were claimed. */
  ghost predicate Passed(s: State, s': State, batch: seq<Claim>, meets: nat -> Meets, n: nat) {
    && n <= |batch| && |s'.db.saf| == |s.db.saf| && |s'.db.tran| == |s.db.tran|
    && (forall k :: 0 <= k < |batch| ==> batch[k].id < |s.db.saf|)
    && (forall k :: 0 <= k < n ==> RowTells(batch[k].row, meets(k), s'.db.saf[batch[k].id]))
    && (forall k :: n <= k < |batch| ==> s'.db.saf[batch[k].id] == batch[k].row)
    && (forall i: SafId :: i < |s.db.saf| && !InBatch(batch, i) ==> s'.db.saf[i] == s.db.saf[i])
    && (forall id: TranId :: id < |s.db.tran| ==> s'.db.tran[id] == FinishedBy(batch, meets, n, id, s.db.tran[id]))
    && s'.wire == s.wire + SendsOf(batch, meets, n)
  }

  lemma PassedOn(s: State, mid: State, s': State, batch: seq<Claim>, meets: nat -> Meets, n: nat)
    requires Passed(s, mid, batch, meets, n) && n < |batch| && Delivered(mid, s', batch[n], meets(n))
    requires Rising(batch)
    ensures Passed(s, s', batch, meets, n + 1)
  {
    WireOn(s.wire, batch, meets, n);
    TransOn(s, mid, s', batch, meets, n);
    forall k | 0 <= k < |batch| && k != n ensures s'.db.saf[batch[k].id] == mid.db.saf[batch[k].id] {
      assert batch[k].id != batch[n].id;
    }
    forall i: SafId | i < |s.db.saf| && !InBatch(batch, i) ensures s'.db.saf[i] == s.db.saf[i] {
      assert i != batch[n].id;
    }
  }

  lemma WireOn(wire: seq<WireSend>, batch: seq<Claim>, meets: nat -> Meets, n: nat)
    requires n < |batch|
    ensures wire + SendsOf(batch, meets, n) + Sends(batch[n], meets(n)) == wire + SendsOf(batch, meets, n + 1)
  {
  }

  lemma TransOn(s: State, mid: State, s': State, batch: seq<Claim>, meets: nat -> Meets, n: nat)
    requires Passed(s, mid, batch, meets, n) && n < |batch| && Delivered(mid, s', batch[n], meets(n))
    ensures forall id: TranId :: id < |s.db.tran| ==> s'.db.tran[id] == FinishedBy(batch, meets, n + 1, id, s.db.tran[id])
  {
    forall id: TranId | id < |s.db.tran| ensures s'.db.tran[id] == FinishedBy(batch, meets, n + 1, id, s.db.tran[id]) {
      assert mid.db.tran[id] == FinishedBy(batch, meets, n, id, s.db.tran[id]);
    }
  }

  /** deliverOnce: claim what is due, then one delivery each, and each of them exactly one. */
  method DeliverOnce(t: Database, due: set<SafId>, meets: nat -> Meets, ghost start: State, s: State) returns (ids: seq<SafId>, s': State)
    requires Invariant(start) && Leads(start, s) && t.Contents() == s.db && s.worker == IDLE
    modifies t
    ensures Leads(start, s') && t.Contents() == s'.db && s'.worker == IDLE && Invariant(s')
    ensures Claimables(s.db, ids) && (forall k :: 0 <= k < |ids| ==> ids[k] in due) && |ids| <= CLAIM_BATCH
    ensures |ids| < CLAIM_BATCH ==> forall i: SafId :: i < |s.db.saf| && i in due && Claimable(s.db.saf[i]) ==> i in ids
    ensures Calm(meets) ==> Passed(s, s', Claimed(s.db, ids), meets, |ids|)
  {
    ids := t.Claim(due, CLAIM_BATCH);
    LeadsOn(start, s, OfWorker(Fetch(ids)));
    s' := DoFetch(s, ids);
    var batch := seq(|ids|, k requires 0 <= k < |ids| && ids[k] < |t.saf| reads t => Claim(ids[k], t.saf[ids[k]]));
    assert batch == s'.worker.batch;
    BatchFetched(s, ids, batch);
    s' := DeliverAll(t, batch, meets, start, s, s');
    LeadsKeeps(start, s');
  }

  lemma BatchFetched(s: State, ids: seq<SafId>, batch: seq<Claim>)
    requires s.worker == IDLE && Claimables(s.db, ids) && batch == DoFetch(s, ids).worker.batch
    ensures batch == Claimed(s.db, ids)
    ensures forall meets: nat -> Meets :: Passed(s, DoFetch(s, ids), batch, meets, 0)
    ensures Rising(batch)
  {
    var s' := DoFetch(s, ids);
    assert forall k :: 0 <= k < |ids| ==> ids[k] in ids;
    forall i: SafId | i in ids ensures InBatch(batch, i) {
      var k :| 0 <= k < |ids| && ids[k] == i;
      assert batch[k].id == i;
    }
  }

  method DeliverAll(t: Database, batch: seq<Claim>, meets: nat -> Meets, ghost start: State, ghost s0: State, s: State) returns (s': State)
    requires Invariant(start) && Leads(start, s) && t.Contents() == s.db && s.worker == Worker(batch, Fetched)
    requires Passed(s0, s, batch, meets, 0)
    requires Rising(batch)
    modifies t
    ensures Leads(start, s') && t.Contents() == s'.db && s'.worker == IDLE
    ensures Calm(meets) ==> Passed(s0, s', batch, meets, |batch|)
  {
    s' := s;
    var k := 0;
    while k < |batch|
      invariant k <= |batch| && Leads(start, s') && t.Contents() == s'.db
      invariant s'.worker == Worker(batch[k..], Fetched)
      invariant Calm(meets) ==> Passed(s0, s', batch, meets, k)
    {
      s' := DeliverNext(t, batch, meets, k, start, s0, s');
      k := k + 1;
    }
  }

  method DeliverNext(t: Database, batch: seq<Claim>, meets: nat -> Meets, k: nat, ghost start: State, ghost s0: State, s: State)
    returns (s': State)
    requires Invariant(start) && Leads(start, s) && t.Contents() == s.db && k < |batch| && s.worker == Worker(batch[k..], Fetched)
    requires Rising(batch)
    modifies t
    ensures Leads(start, s') && t.Contents() == s'.db && s'.worker == Worker(batch[k + 1..], Fetched)
    ensures Undisturbed(meets(k)) && Passed(s0, s, batch, meets, k) ==> Passed(s0, s', batch, meets, k + 1)
  {
    ReadyToWork(start, s);
    assert s.worker.batch[0] == batch[k] && s.worker.batch[1..] == batch[k + 1..];
    s' := DeliverRow(t, batch[k], meets(k), start, s);
    if Undisturbed(meets(k)) && Passed(s0, s, batch, meets, k) {
      PassedOn(s0, s, s', batch, meets, k);
    }
  }
}

/**
 The gateway and its idempotency keys as one machine: a request's row is created under a reservation,
 attaches its RRN to it before the SENT write, and sends only as its holder. What fencing promises of
 tokens then holds of rows.
 */
module Joined {
  import opened Store
  import G = Gateway
  import GP = GatewayProofs
  import I = Idempotency

  datatype State = State(g: G.State, i: I.State, link: map<TranId, I.Token>)

  datatype Step =
    | OfGateway(g: G.Step)
    | OfKeys(i: I.Step)
    | Create(r: G.RequestStep, token: I.Token)
    | Attach(id: TranId, rrn: string, heard: bool)
    | Transmit(id: TranId, refused: bool)
    | Crash

  function Init(now: int): State {
    State(G.Init(), I.Init(now), map[])
  }

  /** A step the gateway takes without touching a reservation. */
  predicate FreeGateway(step: G.Step) {
    match step
    case OfRequest(r) => !r.Insert? && !r.InsertClaim? && !r.Attach? && !r.Transmit?
    case Crash => false
    case _ => true
  }

  /** A step on the keys that no row takes part in; a holder fails only once its row's request is over. */
  predicate FreeKeys(s: State, step: I.Step) {
    match step
    case Attach(_, _, _) => false
    case Send(_) => false
    case Crash => false
    case Fail(t) => forall id :: id in s.link && s.link[id] == t ==> id !in s.g.requests
    case _ => true
  }

  /** A holder inserts its row; one create makes one row. */
  function DoCreate(s: State, r: G.RequestStep, token: I.Token): State {
    if (r.Insert? || r.InsertClaim?) && I.StageIs(s.i, token, I.Holding) && token !in s.link.Values then
      var g := G.ApplyRequest(s.g, r);
      if |g.db.tran| > |s.g.db.tran| then State(g, s.i, s.link[|s.g.db.tran| := token]) else s
    else s
  }

  /** AttachRRN: the request goes on only if the statement came back and its token still held the key. */
  function DoAttach(s: State, id: TranId, rrn: string, heard: bool): State {
    if id in s.link && G.StageIs(s.g, id, G.Inserted) && I.StageIs(s.i, s.link[id], I.Holding) then
      var t := s.link[id];
      var ok := heard && I.Holds(s.i.recs, s.i.grants[t].key, t);
      State(G.DoAttach(s.g, id, ok), I.DoAttach(s.i, t, rrn, heard), s.link)
    else s
  }

  function DoTransmit(s: State, id: TranId, refused: bool): State {
    if id in s.link && G.StageIs(s.g, id, G.Ready) then
      State(G.DoTransmit(s.g, id, refused), if refused then s.i else I.DoSend(s.i, s.link[id]), s.link)
    else s
  }

  function Apply(s: State, step: Step): State {
    match step
    case OfGateway(g) => if FreeGateway(g) then s.(g := G.Apply(s.g, g)) else s
    case OfKeys(i) => if FreeKeys(s, i) then s.(i := I.Apply(s.i, i)) else s
    case Create(r, token) => DoCreate(s, r, token)
    case Attach(id, rrn, heard) => DoAttach(s, id, rrn, heard)
    case Transmit(id, refused) => DoTransmit(s, id, refused)
    case Crash => s.(g := G.Apply(s.g, G.Crash), i := I.Apply(s.i, I.Crash))
  }

  function After(s: State, steps: seq<Step>): State
    decreases |steps|
  {
    if steps == [] then s else After(Apply(s, steps[0]), steps[1..])
  }

  // What every step keeps.

  /** The request has attached its RRN and not sent yet. */
  predicate UnderWay(g: G.State, id: TranId) {
    id in g.requests && (g.requests[id].Attached? || g.requests[id].Marked? || g.requests[id].Ready?)
  }

  /** Each row has its own token. */
  ghost predicate LinksFit(s: State) {
    && (forall id :: id in s.link ==> id < |s.g.db.tran| && s.link[id] < s.i.tokens && s.link[id] in s.i.grants)
    && (forall a, b :: a in s.link && b in s.link && s.link[a] == s.link[b] ==> a == b)
  }

  /** A request about to send is the holder of its token, and what may be at the issuer was sent under its token. */
  ghost predicate Bound(s: State) {
    && (forall id: TranId :: UnderWay(s.g, id) ==> id in s.link && I.StageIs(s.i, s.link[id], I.Attached))
    && (forall id :: id in s.g.reached ==> id in s.link && s.link[id] in s.i.sends)
  }

  ghost predicate Invariant(s: State) {
    GP.Invariant(s.g) && I.Invariant(s.i) && LinksFit(s) && Bound(s)
  }

  // Steps that touch no reservation let nobody on to the send.

  ghost predicate NobodyNew(g: G.State, after: G.State) {
    && after.reached == g.reached && |g.db.tran| <= |after.db.tran|
    && (forall id: TranId :: UnderWay(after, id) ==> UnderWay(g, id))
  }

  lemma SameRequests(g: G.State, after: G.State)
    requires after.requests == g.requests && after.reached == g.reached && |g.db.tran| <= |after.db.tran|
    ensures NobodyNew(g, after)
  {
  }

  lemma FreeRequestStays(g: G.State, r: G.RequestStep)
    requires !r.Attach? && !r.Transmit?
    ensures NobodyNew(g, G.ApplyRequest(g, r))
  {
    if r.Settle? || r.Release? || r.Record? {
      LateStays(g, r);
    }
  }

  lemma LateStays(g: G.State, r: G.RequestStep)
    requires r.Settle? || r.Release? || r.Record?
    ensures NobodyNew(g, G.ApplyRequest(g, r))
  {
  }

  lemma SweepStays(g: G.State, w: G.SweepStep)
    ensures NobodyNew(g, G.ApplySweep(g, w))
  {
    SameRequests(g, G.ApplySweep(g, w));
  }

  lemma WorkerStays(g: G.State, d: G.WorkerStep)
    ensures NobodyNew(g, G.ApplyWorker(g, d))
  {
    SameRequests(g, G.ApplyWorker(g, d));
  }

  lemma FreeStays(g: G.State, step: G.Step)
    requires FreeGateway(step)
    ensures NobodyNew(g, G.Apply(g, step))
  {
    match step
    case OfRequest(r) => FreeRequestStays(g, r);
    case OfSweep(w) => SweepStays(g, w);
    case OfWorker(d) => WorkerStays(g, d);
  }

  lemma GatewayKeeps(s: State, step: G.Step)
    requires Invariant(s) && FreeGateway(step)
    ensures Invariant(s.(g := G.Apply(s.g, step)))
  {
    GP.StepKeeps(s.g, step);
    FreeStays(s.g, step);
    Relinked(s, G.Apply(s.g, step));
  }

  lemma Relinked(s: State, g: G.State)
    requires LinksFit(s) && Bound(s) && NobodyNew(s.g, g)
    ensures LinksFit(s.(g := g)) && Bound(s.(g := g))
  {
  }

  // Steps on the keys leave the holders that are about to send where they are.

  ghost predicate HolderStays(i: I.State, after: I.State, t: I.Token) {
    && t < after.tokens && t in after.grants
    && (I.StageIs(i, t, I.Attached) ==> I.StageIs(after, t, I.Attached))
  }

  lemma KeyStepStays(i: I.State, step: I.Step, t: I.Token)
    requires t < i.tokens && t in i.grants && !step.Attach? && !step.Send? && !step.Crash? && step != I.Fail(t)
    ensures HolderStays(i, I.Apply(i, step), t) && I.Apply(i, step).sends == i.sends
  {
  }

  lemma KeysKeep(s: State, step: I.Step)
    requires Invariant(s) && FreeKeys(s, step)
    ensures Invariant(s.(i := I.Apply(s.i, step)))
  {
    var i := I.Apply(s.i, step);
    I.StepKeeps(s.i, step);
    SendsStay(s.i, step);
    forall id | id in s.link ensures s.link[id] < i.tokens && s.link[id] in i.grants {
      TokenStays(s.i, step, s.link[id]);
    }
    forall id: TranId | UnderWay(s.g, id) ensures I.StageIs(i, s.link[id], I.Attached) {
      KeyStepStays(s.i, step, s.link[id]);
    }
  }

  lemma SendsStay(i: I.State, step: I.Step)
    requires !step.Send?
    ensures I.Apply(i, step).sends == i.sends
  {
  }

  lemma TokenStays(i: I.State, step: I.Step, t: I.Token)
    requires t < i.tokens && t in i.grants
    ensures t < I.Apply(i, step).tokens && t in I.Apply(i, step).grants
  {
  }

  // Steps that touch both.

  lemma GatewayStepKeeps(g: G.State, r: G.RequestStep)
    requires GP.Invariant(g)
    ensures GP.Invariant(G.ApplyRequest(g, r))
  {
    GP.StepKeeps(g, G.OfRequest(r));
  }

  lemma GatewayAttachKeeps(g: G.State, id: TranId, ok: bool)
    requires GP.Invariant(g)
    ensures GP.Invariant(G.DoAttach(g, id, ok))
  {
    GatewayStepKeeps(g, G.Attach(id, ok));
  }

  lemma GatewayTransmitKeeps(g: G.State, id: TranId, refused: bool)
    requires GP.Invariant(g)
    ensures GP.Invariant(G.DoTransmit(g, id, refused))
  {
    GatewayStepKeeps(g, G.Transmit(id, refused));
  }

  lemma CreateLinks(s: State, g: G.State, token: I.Token)
    requires LinksFit(s) && Bound(s) && NobodyNew(s.g, g) && |g.db.tran| > |s.g.db.tran|
    requires token < s.i.tokens && token in s.i.grants && token !in s.link.Values
    ensures var s' := State(g, s.i, s.link[|s.g.db.tran| := token]);
            LinksFit(s') && Bound(s')
  {
    assert |s.g.db.tran| !in s.link;
  }

  lemma CreateKeeps(s: State, r: G.RequestStep, token: I.Token)
    requires Invariant(s)
    ensures Invariant(DoCreate(s, r, token))
  {
    if (r.Insert? || r.InsertClaim?) && I.StageIs(s.i, token, I.Holding) && token !in s.link.Values {
      var g := G.ApplyRequest(s.g, r);
      assert I.GrantFits(s.i, token);
      GatewayStepKeeps(s.g, r);
      FreeRequestStays(s.g, r);
      if |g.db.tran| > |s.g.db.tran| {
        CreateLinks(s, g, token);
      }
    }
  }

  lemma AttachLinks(s: State, id: TranId, rrn: string, heard: bool)
    requires LinksFit(s) && Bound(s)
    ensures LinksFit(DoAttach(s, id, rrn, heard)) && Bound(DoAttach(s, id, rrn, heard))
  {
    var s' := DoAttach(s, id, rrn, heard);
    if s' != s {
      forall k: TranId | UnderWay(s'.g, k) ensures I.StageIs(s'.i, s.link[k], I.Attached) {
        assert k != id ==> UnderWay(s.g, k);
      }
    }
  }

  lemma AttachKeeps(s: State, id: TranId, rrn: string, heard: bool)
    requires Invariant(s)
    ensures Invariant(DoAttach(s, id, rrn, heard))
  {
    AttachLinks(s, id, rrn, heard);
    if id in s.link && s.link[id] in s.i.grants {
      var t := s.link[id];
      GatewayAttachKeeps(s.g, id, heard && I.Holds(s.i.recs, s.i.grants[t].key, t));
      I.AttachKeeps(s.i, t, rrn, heard);
    }
  }

  lemma TransmitLinks(s: State, id: TranId, refused: bool)
    requires LinksFit(s) && Bound(s)
    ensures LinksFit(DoTransmit(s, id, refused)) && Bound(DoTransmit(s, id, refused))
  {
    var s' := DoTransmit(s, id, refused);
    if s' != s {
      assert UnderWay(s.g, id);
      forall k: TranId | UnderWay(s'.g, k) ensures k in s.link && I.StageIs(s'.i, s.link[k], I.Attached) {
        assert UnderWay(s.g, k) && k != id;
      }
    }
  }

  lemma TransmitKeeps(s: State, id: TranId, refused: bool)
    requires Invariant(s)
    ensures Invariant(DoTransmit(s, id, refused))
  {
    TransmitLinks(s, id, refused);
    GatewayTransmitKeeps(s.g, id, refused);
    if id in s.link {
      I.SendKeeps(s.i, s.link[id]);
    }
  }

  lemma CrashKeeps(s: State)
    requires Invariant(s)
    ensures Invariant(s.(g := G.Apply(s.g, G.Crash), i := I.Apply(s.i, I.Crash)))
  {
    GP.CrashKeeps(s.g);
    I.CrashKeeps(s.i);
    CrashLinks(s, G.Apply(s.g, G.Crash), I.Apply(s.i, I.Crash));
  }

  lemma CrashLinks(s: State, g: G.State, i: I.State)
    requires LinksFit(s) && Bound(s) && g.requests == map[] && g.reached == s.g.reached && g.db == s.g.db
    requires i.sends == s.i.sends && i.grants == s.i.grants && i.tokens == s.i.tokens
    ensures LinksFit(s.(g := g, i := i)) && Bound(s.(g := g, i := i))
  {
  }

  lemma OwnStepKeeps(s: State, step: Step)
    requires Invariant(s) && (step.OfGateway? || step.OfKeys?)
    ensures Invariant(Apply(s, step))
  {
    match step
    case OfGateway(g) => if FreeGateway(g) { GatewayKeeps(s, g); }
    case OfKeys(i) => if FreeKeys(s, i) { KeysKeep(s, i); }
  }

  lemma StepKeeps(s: State, step: Step)
    requires Invariant(s)
    ensures Invariant(Apply(s, step))
  {
    match step
    case OfGateway(_) => OwnStepKeeps(s, step);
    case OfKeys(_) => OwnStepKeeps(s, step);
    case Create(_, _) => BothStepKeeps(s, step);
    case Attach(_, _, _) => BothStepKeeps(s, step);
    case Transmit(_, _) => BothStepKeeps(s, step);
    case Crash => CrashKeeps(s);
  }

  lemma BothStepKeeps(s: State, step: Step)
    requires Invariant(s) && (step.Create? || step.Attach? || step.Transmit?)
    ensures Invariant(Apply(s, step))
  {
    match step
    case Create(r, token) => CreateKeeps(s, r, token);
    case Attach(id, rrn, heard) => AttachKeeps(s, id, rrn, heard);
    case Transmit(id, refused) => TransmitKeeps(s, id, refused);
  }

  lemma {:induction false} AlwaysAfter(s: State, steps: seq<Step>)
    requires Invariant(s)
    ensures Invariant(After(s, steps))
    decreases |steps|
  {
    if steps != [] {
      StepKeeps(s, steps[0]);
      AlwaysAfter(Apply(s, steps[0]), steps[1..]);
    }
  }

  /** The key a row's request was made under. */
  function KeyOf(s: State, id: TranId): Option<I.Key> {
    if id in s.link && s.link[id] in s.i.grants then Some(s.i.grants[s.link[id]].key) else None
  }

  lemma InitFits(now: int)
    ensures Invariant(Init(now))
  {
    GP.Always([]);
  }

  /** Every row that may be at the issuer got there under an idempotency key. */
  lemma ReachedHasKey(now: int, steps: seq<Step>, id: TranId)
    requires id in After(Init(now), steps).g.reached
    ensures KeyOf(After(Init(now), steps), id).Some?
  {
    InitFits(now);
    AlwaysAfter(Init(now), steps);
  }

  /**
   At most one row per key and epoch may be at the issuer: a second one was created in an epoch that a
   fresh Reserve opened more than 24 h after the first one's reservation.
   */
  lemma OneRowPerEpoch(now: int, steps: seq<Step>, a: TranId, b: TranId)
    requires var s := After(Init(now), steps);
             a in s.g.reached && b in s.g.reached && a != b && KeyOf(s, a) == KeyOf(s, b)
    ensures var s := After(Init(now), steps);
            && a in s.link && b in s.link
            && (I.Apart(s.i, s.link[a], s.link[b]) || I.Apart(s.i, s.link[b], s.link[a]))
  {
    InitFits(now);
    AlwaysAfter(Init(now), steps);
    var s := After(Init(now), steps);
    if s.link[a] < s.link[b] {
      I.SendsApart(s.i, s.link[a], s.link[b]);
    } else {
      I.SendsApart(s.i, s.link[b], s.link[a]);
    }
  }
}

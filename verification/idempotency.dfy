/**
 Fenced idempotency reservations. The statements on idempotency_record, the calls built on them, and
 the protocol over every interleaving of holders, stalls, crashes, reclaims and releases.
 */
module Idempotency {
  import opened Store

  datatype Key = Key(key: string, route: string)

  /** reservation_token; gen_random_uuid never repeats, so a counter stands for it. */
  type Token = nat

  datatype Rec = Rec(hash: string, status: nat, body: string, createdAt: int, rrn: Option<string>, token: Option<Token>)

  type Records = map<Key, Rec>

  const PENDING: nat := 0
  const SECOND := 1_000_000
  const TTL := 24 * 3600 * SECOND
  /** The send timeout, the detached recording after it, and a margin. */
  const STALE_AFTER := (30 + 10 + 20) * SECOND

  // Statements.

  predicate Reservable(recs: Records, k: Key, now: int) {
    k !in recs || recs[k].createdAt < now - TTL
  }

  function Reserve(recs: Records, k: Key, hash: string, now: int, token: Token): Records {
    if Reservable(recs, k, now) then recs[k := Rec(hash, PENDING, "null", now, None, Some(token))] else recs
  }

  /** The reservation is still pending under this token. */
  predicate Holds(recs: Records, k: Key, token: Token) {
    k in recs && recs[k].status == PENDING && recs[k].token == Some(token)
  }

  function AttachRrn(recs: Records, k: Key, token: Token, rrn: string): Records {
    if Holds(recs, k, token) then recs[k := recs[k].(rrn := Some(rrn))] else recs
  }

  function Release(recs: Records, k: Key, token: Token): Records {
    if Holds(recs, k, token) then recs - {k} else recs
  }

  predicate Reclaimable(recs: Records, k: Key, hash: string, now: int) {
    && k in recs && recs[k].hash == hash && recs[k].status == PENDING && recs[k].rrn.None?
    && recs[k].createdAt < now - STALE_AFTER
  }

  function Reclaim(recs: Records, k: Key, hash: string, now: int, token: Token): Records {
    if Reclaimable(recs, k, hash, now) then recs[k := recs[k].(createdAt := now, token := Some(token))] else recs
  }

  /** Store: not fenced by any token. */
  function StoreResponse(recs: Records, k: Key, hash: string, status: nat, body: string, now: int): Records {
    if k in recs then recs[k := recs[k].(hash := hash, status := status, body := body)]
    else recs[k := Rec(hash, status, body, now, None, None)]
  }

  // The protocol.

  /** A token handed out: fresh by Reserve (epoch is its own token), or by Reclaim within an epoch. */
  datatype Grant = Grant(key: Key, hash: string, epoch: Token, reservedAt: int)

  /** Failing: it failed before its send and will release its key. */
  datatype Stage = Holding | Attached | Failing

  datatype State = State(
    now: int,
    recs: Records,
    tokens: nat,
    holders: map<Token, Stage>,
    grants: map<Token, Grant>,
    sends: seq<Token>)

  /** heard: the statement's result reached its caller. */
  datatype Step =
    | Tick(elapsed: nat)
    | TakeFresh(key: Key, hash: string, heard: bool)
    | TakeOver(key: Key, hash: string, heard: bool)
    | Attach(token: Token, rrn: string, heard: bool)
    | Send(token: Token)
    | Fail(token: Token)
    | Free(token: Token)
    | Answer(key: Key, hash: string, status: nat, body: string)
    | Crash

  function Init(now: int): State {
    State(now, map[], 0, map[], map[], [])
  }

  function Granted(s: State, recs: Records, grant: Grant, heard: bool): State {
    s.(recs := recs,
       tokens := s.tokens + 1,
       grants := s.grants[s.tokens := grant],
       holders := if heard then s.holders[s.tokens := Holding] else s.holders)
  }

  function DoTakeFresh(s: State, k: Key, hash: string, heard: bool): State {
    if Reservable(s.recs, k, s.now)
    then Granted(s, Reserve(s.recs, k, hash, s.now, s.tokens), Grant(k, hash, s.tokens, s.now), heard)
    else s
  }

  /** The epoch a reservation belongs to. */
  function EpochOf(s: State, token: Option<Token>): Token {
    if token.Some? && token.value in s.grants then s.grants[token.value].epoch else s.tokens
  }

  function DoTakeOver(s: State, k: Key, hash: string, heard: bool): State {
    if Reclaimable(s.recs, k, hash, s.now)
    then Granted(s, Reclaim(s.recs, k, hash, s.now, s.tokens), Grant(k, hash, EpochOf(s, s.recs[k].token), s.now), heard)
    else s
  }

  predicate StageIs(s: State, t: Token, stage: Stage) {
    t in s.holders && s.holders[t] == stage && t in s.grants
  }

  /** A lost reservation ends its holder, which releases nothing; a failed call makes it release. */
  function DoAttach(s: State, t: Token, rrn: string, heard: bool): State {
    if !StageIs(s, t, Holding) then s
    else
      var k := s.grants[t].key;
      var recs := AttachRrn(s.recs, k, t, rrn);
      if !heard then s.(recs := recs, holders := s.holders[t := Failing])
      else if Holds(s.recs, k, t) then s.(recs := recs, holders := s.holders[t := Attached])
      else s.(holders := s.holders - {t})
  }

  /** From here on the holder may only store a response, never release. */
  function DoSend(s: State, t: Token): State {
    if StageIs(s, t, Attached) then s.(sends := s.sends + [t], holders := s.holders - {t}) else s
  }

  function DoFail(s: State, t: Token): State {
    if StageIs(s, t, Holding) || StageIs(s, t, Attached) then s.(holders := s.holders[t := Failing]) else s
  }

  function DoFree(s: State, t: Token): State {
    if StageIs(s, t, Failing) then s.(recs := Release(s.recs, s.grants[t].key, t), holders := s.holders - {t}) else s
  }

  /** A response is stored for any key at any time, by its sender or by a retry that read tran_log. */
  function DoAnswer(s: State, k: Key, hash: string, status: nat, body: string): State {
    if status != PENDING then s.(recs := StoreResponse(s.recs, k, hash, status, body, s.now)) else s
  }

  function Apply(s: State, step: Step): State {
    match step
    case Tick(elapsed) => s.(now := s.now + elapsed)
    case TakeFresh(k, hash, heard) => DoTakeFresh(s, k, hash, heard)
    case TakeOver(k, hash, heard) => DoTakeOver(s, k, hash, heard)
    case Attach(t, rrn, heard) => DoAttach(s, t, rrn, heard)
    case Send(t) => DoSend(s, t)
    case Fail(t) => DoFail(s, t)
    case Free(t) => DoFree(s, t)
    case Answer(k, hash, status, body) => DoAnswer(s, k, hash, status, body)
    case Crash => s.(holders := map[])
  }

  function After(s: State, steps: seq<Step>): State
    decreases |steps|
  {
    if steps == [] then s else After(Apply(s, steps[0]), steps[1..])
  }

  // What every step keeps.

  ghost predicate GrantFits(s: State, t: Token) {
    && t in s.grants && t < s.tokens && s.grants[t].reservedAt <= s.now
    && var e := s.grants[t].epoch;
       e <= t && e in s.grants && s.grants[e].key == s.grants[t].key && s.grants[e].hash == s.grants[t].hash && s.grants[e].epoch == e
  }

  /** The record belongs to the last token its key was granted. */
  ghost predicate RecFits(s: State, k: Key) {
    && k in s.recs
    && (s.recs[k].status == PENDING ==> s.recs[k].token.Some?)
    && (s.recs[k].token.Some? ==>
          var t := s.recs[k].token.value;
          && t in s.grants && s.grants[t].key == k && s.grants[t].reservedAt == s.recs[k].createdAt
          && (s.recs[k].status == PENDING ==> s.grants[t].hash == s.recs[k].hash)
          && (forall u :: u in s.grants && s.grants[u].key == k ==> u <= t))
  }

  /** The holder has sent, or nothing stops it from sending. */
  predicate Live(s: State, t: Token) {
    t in s.grants && (StageIs(s, t, Attached) || t in s.sends)
  }

  /** Its record is still there and names its RRN, or 24 h have passed; every later grant of its key came after them. */
  ghost predicate LiveFits(s: State, t: Token) {
    && t in s.grants
    && var g := s.grants[t];
       && ((g.key in s.recs && s.recs[g.key].token == Some(t)) || s.now > g.reservedAt + TTL)
       && (g.key in s.recs && s.recs[g.key].token == Some(t) ==> s.recs[g.key].rrn.Some?)
       && (forall u :: u in s.grants && u > t && s.grants[u].key == g.key ==>
             s.grants[u].epoch > t && s.grants[u].reservedAt > g.reservedAt + TTL)
  }

  ghost predicate SendsFit(s: State) {
    && (forall i, j :: 0 <= i < j < |s.sends| ==> s.sends[i] != s.sends[j])
    && (forall t :: t in s.sends ==> t in s.grants)
    && (forall t :: t in s.holders ==> t in s.grants && t !in s.sends)
  }

  ghost predicate Invariant(s: State) {
    && (forall t :: t in s.grants ==> GrantFits(s, t))
    && (forall k :: k in s.recs ==> RecFits(s, k))
    && (forall t: Token :: Live(s, t) ==> LiveFits(s, t))
    && SendsFit(s)
  }

  lemma TickKeeps(s: State, elapsed: nat)
    requires Invariant(s)
    ensures Invariant(Apply(s, Tick(elapsed)))
  {
    var s' := Apply(s, Tick(elapsed));
    forall t | t in s'.grants ensures GrantFits(s', t) {
      assert GrantFits(s, t);
    }
    forall k | k in s'.recs ensures RecFits(s', k) {
      assert RecFits(s, k);
    }
    forall t: Token | Live(s', t) ensures LiveFits(s', t) {
      assert Live(s, t);
    }
  }

  /** A new token for k: its record was free, or held by nobody who may send. */
  lemma GrantKeeps(s: State, s': State, k: Key, rec: Rec, grant: Grant, heard: bool)
    requires Invariant(s) && s' == Granted(s, s.recs[k := rec], grant, heard)
    requires rec.token == Some(s.tokens) && rec.createdAt == s.now && rec.hash == grant.hash
    requires grant.key == k && grant.reservedAt == s.now
    requires grant.epoch == s.tokens || (grant.epoch in s.grants && s.grants[grant.epoch].key == k
                                         && s.grants[grant.epoch].epoch == grant.epoch && s.grants[grant.epoch].hash == grant.hash)
    requires forall t: Token :: Live(s, t) && s.grants[t].key == k ==> s.now > s.grants[t].reservedAt + TTL && grant.epoch > t
    ensures Invariant(s')
  {
    assert s.tokens in s.grants ==> GrantFits(s, s.tokens);
    NewGrantFits(s, s', k, rec, grant, heard);
    forall j | j in s'.recs ensures RecFits(s', j) {
      if j != k {
        assert RecFits(s, j);
      }
    }
    forall t: Token | Live(s', t) ensures LiveFits(s', t) {
      assert Live(s, t) && LiveFits(s, t);
    }
  }

  lemma NewGrantFits(s: State, s': State, k: Key, rec: Rec, grant: Grant, heard: bool)
    requires Invariant(s) && s' == Granted(s, s.recs[k := rec], grant, heard) && grant.key == k && grant.reservedAt == s.now
    requires grant.epoch == s.tokens || (grant.epoch in s.grants && s.grants[grant.epoch].key == k
                                         && s.grants[grant.epoch].epoch == grant.epoch && s.grants[grant.epoch].hash == grant.hash)
    ensures forall t :: t in s'.grants ==> GrantFits(s', t) && t <= s.tokens
  {
    assert s.tokens in s.grants ==> GrantFits(s, s.tokens);
    forall t | t in s'.grants ensures GrantFits(s', t) && t <= s.tokens {
      assert t in s.grants ==> GrantFits(s, t);
      assert grant.epoch in s.grants ==> GrantFits(s, grant.epoch);
    }
  }

  lemma TakeFreshKeeps(s: State, k: Key, hash: string, heard: bool)
    requires Invariant(s)
    ensures Invariant(DoTakeFresh(s, k, hash, heard))
  {
    if Reservable(s.recs, k, s.now) {
      forall t: Token | Live(s, t) && s.grants[t].key == k ensures s.now > s.grants[t].reservedAt + TTL && s.tokens > t {
        assert LiveFits(s, t) && GrantFits(s, t);
        assert k in s.recs ==> RecFits(s, k);
      }
      GrantKeeps(s, DoTakeFresh(s, k, hash, heard), k, Rec(hash, PENDING, "null", s.now, None, Some(s.tokens)),
                 Grant(k, hash, s.tokens, s.now), heard);
    }
  }

  lemma TakeOverKeeps(s: State, k: Key, hash: string, heard: bool)
    requires Invariant(s)
    ensures Invariant(DoTakeOver(s, k, hash, heard))
  {
    if Reclaimable(s.recs, k, hash, s.now) {
      assert RecFits(s, k);
      var u := s.recs[k].token.value;
      assert GrantFits(s, u);
      var epoch := s.grants[u].epoch;
      forall t: Token | Live(s, t) && s.grants[t].key == k ensures s.now > s.grants[t].reservedAt + TTL && epoch > t {
        assert LiveFits(s, t) && t != u;
      }
      GrantKeeps(s, DoTakeOver(s, k, hash, heard), k, s.recs[k].(createdAt := s.now, token := Some(s.tokens)),
                 Grant(k, hash, epoch, s.now), heard);
    }
  }

  /** A record changed without changing who was granted it or when, or went away with nobody live on it. */
  lemma RecordKeeps(s: State, s': State, k: Key)
    requires Invariant(s) && s'.now == s.now && s'.tokens == s.tokens && s'.grants == s.grants && s'.sends == s.sends
    requires forall j :: j != k ==> (j in s'.recs <==> j in s.recs) && (j in s.recs ==> s'.recs[j] == s.recs[j])
    requires k in s'.recs ==> RecFits(s', k)
    requires forall t :: t in s'.holders ==> t in s.holders
    requires forall t: Token :: Live(s', t) && s.grants[t].key == k ==> LiveFits(s', t)
    requires forall t: Token :: Live(s', t) && s.grants[t].key != k ==> Live(s, t)
    ensures Invariant(s')
  {
    forall t | t in s'.grants ensures GrantFits(s', t) {
      assert GrantFits(s, t);
    }
    forall j | j in s'.recs ensures RecFits(s', j) {
      if j != k {
        assert RecFits(s, j);
      }
    }
    forall t: Token | Live(s', t) ensures LiveFits(s', t) {
      if s.grants[t].key != k {
        assert LiveFits(s, t);
      }
    }
  }

  lemma AttachKeeps(s: State, t: Token, rrn: string, heard: bool)
    requires Invariant(s)
    ensures Invariant(DoAttach(s, t, rrn, heard))
  {
    if StageIs(s, t, Holding) {
      var k := s.grants[t].key;
      if !Holds(s.recs, k, t) {
        HoldersKeep(s, DoAttach(s, t, rrn, heard));
      } else if heard {
        AttachedKeeps(s, DoAttach(s, t, rrn, true), t, k, rrn);
      } else {
        UnheardKeeps(s, DoAttach(s, t, rrn, false), t, k, rrn);
      }
    }
  }

  /** The record of t, the last token its key was granted, now names its RRN. */
  lemma AttachedRecFits(s: State, s': State, t: Token, k: Key, rrn: string)
    requires Invariant(s) && Holds(s.recs, k, t) && t in s.grants && s.grants[t].key == k
    requires s'.recs == s.recs[k := s.recs[k].(rrn := Some(rrn))] && s'.grants == s.grants && s'.now == s.now
    ensures RecFits(s', k)
    ensures forall u: Token :: Live(s, u) && s.grants[u].key == k ==> LiveFits(s', u)
  {
    assert RecFits(s, k);
    forall u: Token | Live(s, u) && s.grants[u].key == k ensures LiveFits(s', u) {
      assert LiveFits(s, u);
    }
  }

  lemma UnheardKeeps(s: State, s': State, t: Token, k: Key, rrn: string)
    requires Invariant(s) && StageIs(s, t, Holding) && Holds(s.recs, k, t) && s.grants[t].key == k
    requires s' == s.(recs := s.recs[k := s.recs[k].(rrn := Some(rrn))], holders := s.holders[t := Failing])
    ensures Invariant(s')
  {
    AttachedRecFits(s, s', t, k, rrn);
    RecordKeeps(s, s', k);
  }

  lemma AttachedKeeps(s: State, s': State, t: Token, k: Key, rrn: string)
    requires Invariant(s) && StageIs(s, t, Holding) && Holds(s.recs, k, t) && s.grants[t].key == k
    requires s' == s.(recs := s.recs[k := s.recs[k].(rrn := Some(rrn))], holders := s.holders[t := Attached])
    ensures Invariant(s')
  {
    assert RecFits(s, k) && LiveFits(s', t);
    AttachedRecFits(s, s', t, k, rrn);
    RecordKeeps(s, s', k);
  }

  /** Only the holders and the sends moved, and nobody became live. */
  lemma HoldersKeep(s: State, s': State)
    requires Invariant(s) && SendsFit(s') && s'.now == s.now && s'.tokens == s.tokens && s'.recs == s.recs && s'.grants == s.grants
    requires forall t: Token :: Live(s', t) ==> Live(s, t)
    ensures Invariant(s')
  {
    forall u | u in s'.grants ensures GrantFits(s', u) {
      assert GrantFits(s, u);
    }
    forall j | j in s'.recs ensures RecFits(s', j) {
      assert RecFits(s, j);
    }
    forall u: Token | Live(s', u) ensures LiveFits(s', u) {
      assert LiveFits(s, u);
    }
  }

  lemma SendKeeps(s: State, t: Token)
    requires Invariant(s)
    ensures Invariant(DoSend(s, t))
  {
    HoldersKeep(s, DoSend(s, t));
  }

  lemma FailKeeps(s: State, t: Token)
    requires Invariant(s)
    ensures Invariant(DoFail(s, t))
  {
    HoldersKeep(s, DoFail(s, t));
  }

  lemma CrashKeeps(s: State)
    requires Invariant(s)
    ensures Invariant(Apply(s, Crash))
  {
    HoldersKeep(s, Apply(s, Crash));
  }

  lemma FreeKeeps(s: State, t: Token)
    requires Invariant(s)
    ensures Invariant(DoFree(s, t))
  {
    if StageIs(s, t, Failing) {
      var k := s.grants[t].key;
      var s' := DoFree(s, t);
      if k in s.recs {
        assert RecFits(s, k);
      }
      forall u: Token | Live(s', u) && s.grants[u].key == k ensures LiveFits(s', u) {
        assert Live(s, u) && LiveFits(s, u) && u != t;
      }
      RecordKeeps(s, s', k);
    }
  }

  lemma AnswerKeeps(s: State, k: Key, hash: string, status: nat, body: string)
    requires Invariant(s)
    ensures Invariant(DoAnswer(s, k, hash, status, body))
  {
    if status != PENDING {
      var s' := DoAnswer(s, k, hash, status, body);
      if k in s.recs {
        assert RecFits(s, k);
      }
      forall u: Token | Live(s', u) && s.grants[u].key == k ensures LiveFits(s', u) {
        assert Live(s, u) && LiveFits(s, u);
      }
      RecordKeeps(s, s', k);
    }
  }

  lemma StepKeeps(s: State, step: Step)
    requires Invariant(s)
    ensures Invariant(Apply(s, step))
  {
    match step
    case Tick(elapsed) => TickKeeps(s, elapsed);
    case TakeFresh(k, hash, heard) => TakeFreshKeeps(s, k, hash, heard);
    case TakeOver(k, hash, heard) => TakeOverKeeps(s, k, hash, heard);
    case Attach(t, rrn, heard) => AttachKeeps(s, t, rrn, heard);
    case Send(t) => SendKeeps(s, t);
    case Fail(t) => FailKeeps(s, t);
    case Free(t) => FreeKeeps(s, t);
    case Answer(k, hash, status, body) => AnswerKeeps(s, k, hash, status, body);
    case Crash => CrashKeeps(s);
  }

  lemma {:induction false} AlwaysAfter(s: State, steps: seq<Step>)
    requires Invariant(s)
    ensures Invariant(After(s, steps))
    decreases |steps|
  {
    if steps != [] {
      StepKeeps(s, steps[0]);
      AlwaysAfter(Apply(s, steps[0]), steps[1..]);
    }
  }

  /** The later token's epoch was opened after the earlier one, by a Reserve more than 24 h after its reservation. */
  ghost predicate Apart(s: State, earlier: Token, later: Token) {
    && earlier in s.grants && later in s.grants
    && var epoch := s.grants[later].epoch;
       && earlier < epoch <= later && epoch in s.grants && s.grants[epoch].epoch == epoch
       && s.grants[epoch].reservedAt > s.grants[earlier].reservedAt + TTL
       && s.grants[earlier].epoch != epoch
  }

  lemma SendsApart(s: State, earlier: Token, later: Token)
    requires Invariant(s) && earlier in s.sends && later in s.grants && earlier in s.grants
    requires s.grants[earlier].key == s.grants[later].key && earlier < later
    ensures Apart(s, earlier, later)
  {
    assert Live(s, earlier) && LiveFits(s, earlier);
    assert GrantFits(s, later) && GrantFits(s, earlier);
  }

  /**
   Two sends under one key come from different epochs: the later sender's epoch was opened by a fresh
   Reserve more than 24 h after the reservation the earlier sender held.
   */
  lemma AtMostOneSendPerEpoch(now: int, steps: seq<Step>, i: nat, j: nat)
    requires var s := After(Init(now), steps);
             && i < |s.sends| && j < |s.sends| && i != j
             && s.sends[i] in s.grants && s.sends[j] in s.grants
             && s.grants[s.sends[i]].key == s.grants[s.sends[j]].key
             && s.sends[i] <= s.sends[j]
    ensures Apart(After(Init(now), steps), After(Init(now), steps).sends[i], After(Init(now), steps).sends[j])
  {
    AlwaysAfter(Init(now), steps);
    var s := After(Init(now), steps);
    assert s.sends[i] != s.sends[j];
    SendsApart(s, s.sends[i], s.sends[j]);
  }

  /** Every send was granted: the premise above holds of every pair of sends. */
  lemma SendsAreGranted(now: int, steps: seq<Step>, i: nat)
    requires i < |After(Init(now), steps).sends|
    ensures After(Init(now), steps).sends[i] in After(Init(now), steps).grants
  {
    AlwaysAfter(Init(now), steps);
    assert Live(After(Init(now), steps), After(Init(now), steps).sends[i]);
  }

  /** A different request never gets the key within an epoch. */
  lemma OneRequestPerEpoch(now: int, steps: seq<Step>, t: Token, u: Token)
    requires var s := After(Init(now), steps);
             t in s.grants && u in s.grants && s.grants[t].epoch == s.grants[u].epoch
    ensures var s := After(Init(now), steps);
            s.grants[t].hash == s.grants[u].hash && s.grants[t].key == s.grants[u].key
  {
    AlwaysAfter(Init(now), steps);
    var s := After(Init(now), steps);
    assert GrantFits(s, t) && GrantFits(s, u);
  }

  /** Of several retries one wins: a reclaim renews the age, and no reservation younger than that is reclaimed. */
  lemma ReclaimWinsOnce(recs: Records, k: Key, hash: string, other: string, now: int, later: int, token: Token)
    requires Reclaimable(recs, k, hash, now)
    ensures Reclaimable(Reclaim(recs, k, hash, now, token), k, other, later) <==> hash == other && later > now + STALE_AFTER
    ensures Holds(Reclaim(recs, k, hash, now, token), k, token)
    ensures forall stale :: stale != token ==> !Holds(Reclaim(recs, k, hash, now, token), k, stale)
  {
  }

  // Reaching one state from another.

  ghost predicate Leads(s: State, s': State) {
    exists steps :: After(s, steps) == s'
  }

  lemma {:induction false} AfterJoin(s: State, a: seq<Step>, b: seq<Step>)
    ensures After(s, a + b) == After(After(s, a), b)
    decreases |a|
  {
    if a == [] {
      assert a + b == b;
    } else {
      AfterJoin(Apply(s, a[0]), a[1..], b);
      assert (a + b)[1..] == a[1..] + b;
    }
  }

  lemma LeadsAfter(s: State, s': State, more: seq<Step>)
    requires Leads(s, s')
    ensures Leads(s, After(s', more))
  {
    var steps :| After(s, steps) == s';
    AfterJoin(s, steps, more);
  }

  lemma LeadsOn(s: State, s': State, step: Step)
    requires Leads(s, s')
    ensures Leads(s, Apply(s', step))
  {
    LeadsAfter(s, s', [step]);
    assert [step][1..] == [];
    assert After(Apply(s', step), []) == Apply(s', step);
  }

  // What others do while a holder waits.

  /** Not a step of token t's holder, nor a crash of its process. */
  predicate Foreign(step: Step, t: Token) {
    match step
    case Attach(u, _, _) => u != t
    case Send(u) => u != t
    case Fail(u) => u != t
    case Free(u) => u != t
    case Crash => false
    case _ => true
  }

  function Others(steps: seq<Step>, t: Token): seq<Step> {
    if steps == [] then []
    else (if Foreign(steps[0], t) then [steps[0]] else []) + Others(steps[1..], t)
  }

  /** They leave the holder where it is. */
  lemma {:induction false} OthersKeep(s: State, steps: seq<Step>, t: Token, stage: Stage)
    requires StageIs(s, t, stage) && t < s.tokens
    ensures StageIs(After(s, Others(steps, t)), t, stage) && t < After(s, Others(steps, t)).tokens
    ensures After(s, Others(steps, t)).grants[t] == s.grants[t]
    decreases |steps|
  {
    if steps != [] {
      if Foreign(steps[0], t) {
        assert ([steps[0]] + Others(steps[1..], t))[1..] == Others(steps[1..], t);
        OthersKeep(Apply(s, steps[0]), steps[1..], t, stage);
      } else {
        assert [] + Others(steps[1..], t) == Others(steps[1..], t);
        OthersKeep(s, steps[1..], t, stage);
      }
    }
  }

  /** What was sent stays sent. */
  lemma {:induction false} SentStays(s: State, steps: seq<Step>, t: Token)
    requires t in s.sends && t in s.grants && t < s.tokens
    ensures t in After(s, steps).sends && t in After(s, steps).grants && After(s, steps).grants[t] == s.grants[t]
    decreases |steps|
  {
    if steps != [] {
      SentStays(Apply(s, steps[0]), steps[1..], t);
    }
  }

  // The calls.

  /** What Reserve's second statement finds; Gone is a key released between the two. */
  datatype Reservation =
    | Stored(status: nat, body: string)
    | InProgress(rrn: Option<string>, reservedAt: int)
    | Mismatch
    | Gone

  /** What begin decides: run create under a token, replay, answer from tran_log, or refuse. */
  datatype Begun = Run(token: Token) | Replay(body: string) | FromLog(rrn: string) | Busy | Refused

  /**
   How create ends: with an answer and nothing sent (a decline for the link, a cancellation), failing
   before an RRN was attached, before the send or after it, or with the issuer's response.
   */
  datatype Work =
    | Answers(response: string)
    | FailsEarly
    | FailsBeforeSend(rrn: string)
    | FailsAfterSend(rrn: string)
    | Completes(rrn: string, response: string)

  /** What tran_log says of an RRN: the transaction, and whether its status is final. */
  datatype Logged = Logged(response: string, final: bool)

  /** What everybody else does before each of this call's statements. */
  type World = nat -> seq<Step>

  ghost predicate Silent(w: World) {
    forall n: nat :: w(n) == []
  }

  class IdempotencyRepository {
    var recs: Records
    var now: int
    var tokens: nat

    ghost predicate Mirrors(s: State)
      reads this
    {
      recs == s.recs && now == s.now && tokens == s.tokens
    }

    constructor (start: int)
      ensures recs == map[] && now == start && tokens == 0
    {
      recs, now, tokens := map[], start, 0;
    }

    /** Reserve's insert-or-expired statement. */
    method TryReserve(k: Key, hash: string) returns (token: Option<Token>)
      modifies this`recs, this`tokens
      ensures recs == Reserve(old(recs), k, hash, now, old(tokens))
      ensures token == if Reservable(old(recs), k, now) then Some(old(tokens)) else None
      ensures tokens == old(tokens) + (if token.Some? then 1 else 0)
    {
      token := None;
      if Reservable(recs, k, now) {
        token := Some(tokens);
        recs := recs[k := Rec(hash, PENDING, "null", now, None, token)];
        tokens := tokens + 1;
      }
    }

    /** Reserve's second statement. */
    method LookUp(k: Key, hash: string) returns (r: Reservation)
      ensures r.Gone? <==> k !in recs
      ensures r.Mismatch? <==> k in recs && recs[k].hash != hash
      ensures r.InProgress? <==> k in recs && recs[k].hash == hash && recs[k].status == PENDING
      ensures r.InProgress? ==> r == InProgress(recs[k].rrn, recs[k].createdAt)
      ensures r.Stored? ==> r == Stored(recs[k].status, recs[k].body)
    {
      if k !in recs {
        return Gone;
      }
      var rec := recs[k];
      r := if rec.hash != hash then Mismatch
           else if rec.status == PENDING then InProgress(rec.rrn, rec.createdAt)
           else Stored(rec.status, rec.body);
    }

    method ReclaimKey(k: Key, hash: string) returns (token: Option<Token>)
      modifies this`recs, this`tokens
      ensures recs == Reclaim(old(recs), k, hash, now, old(tokens))
      ensures token == if Reclaimable(old(recs), k, hash, now) then Some(old(tokens)) else None
      ensures tokens == old(tokens) + (if token.Some? then 1 else 0)
    {
      token := None;
      if Reclaimable(recs, k, hash, now) {
        token := Some(tokens);
        recs := recs[k := recs[k].(createdAt := now, token := token)];
        tokens := tokens + 1;
      }
    }

    method AttachRRN(k: Key, token: Token, rrn: string) returns (held: bool)
      modifies this`recs
      ensures held <==> Holds(old(recs), k, token)
      ensures recs == AttachRrn(old(recs), k, token, rrn)
    {
      held := Holds(recs, k, token);
      if held {
        recs := recs[k := recs[k].(rrn := Some(rrn))];
      }
    }

    method ReleaseKey(k: Key, token: Token)
      modifies this`recs
      ensures recs == Release(old(recs), k, token)
    {
      if Holds(recs, k, token) {
        recs := recs - {k};
      }
    }

    method StoreAnswer(k: Key, hash: string, status: nat, body: string)
      modifies this`recs
      ensures recs == StoreResponse(old(recs), k, hash, status, body, now)
    {
      recs := if k in recs then recs[k := recs[k].(hash := hash, status := status, body := body)]
              else recs[k := Rec(hash, status, body, now, None, None)];
    }

    /** The others take their turn. */
    method Meanwhile(steps: seq<Step>, ghost start: State, s: State) returns (s': State)
      requires Leads(start, s) && Mirrors(s)
      modifies this
      ensures s' == After(s, steps) && Leads(start, s') && Mirrors(s')
    {
      s' := After(s, steps);
      recs, now, tokens := s'.recs, s'.now, s'.tokens;
      LeadsAfter(start, s, steps);
    }

    /** begin and takeOverStale; logs is false for a route that sends nothing. */
    method Begin(k: Key, hash: string, logs: bool, w: World, ghost start: State, s: State) returns (b: Begun, s': State)
      requires Leads(start, s) && Mirrors(s)
      modifies this
      ensures Leads(start, s') && Mirrors(s')
      ensures b.Run? ==> StageIs(s', b.token, Holding) && b.token < s'.tokens && s'.grants[b.token].key == k && s'.grants[b.token].hash == hash
      ensures b.FromLog? ==> logs
      ensures Silent(w) ==> now == old(now) && BeginsAs(old(recs), recs, k, hash, logs, now, b)
    {
      s' := Meanwhile(w(0), start, s);
      LeadsOn(start, s', TakeFresh(k, hash, true));
      var token := TryReserve(k, hash);
      s' := DoTakeFresh(s', k, hash, true);
      if token.Some? {
        return Run(token.value), s';
      }
      s' := Meanwhile(w(1), start, s');
      var r := LookUp(k, hash);
      match r
      case Stored(_, body) => b := Replay(body);
      case Mismatch => b := Refused;
      case Gone => b := Busy;
      case InProgress(rrn, reservedAt) =>
        if now - reservedAt <= STALE_AFTER {
          b := Busy;
        } else if rrn.Some? {
          b := if logs then FromLog(rrn.value) else Busy;
        } else {
          b, s' := TakeOverStale(k, hash, w, start, s');
        }
    }

    method TakeOverStale(k: Key, hash: string, w: World, ghost start: State, s: State) returns (b: Begun, s': State)
      requires Leads(start, s) && Mirrors(s)
      modifies this
      ensures Leads(start, s') && Mirrors(s') && (b.Run? || b.Busy?)
      ensures b.Run? ==> StageIs(s', b.token, Holding) && b.token < s'.tokens && s'.grants[b.token].key == k && s'.grants[b.token].hash == hash
      ensures Silent(w) ==>
                && now == old(now) && (b.Run? <==> Reclaimable(old(recs), k, hash, now))
                && recs == Reclaim(old(recs), k, hash, now, s.tokens) && (b.Run? ==> b.token == s.tokens)
    {
      s' := Meanwhile(w(2), start, s);
      LeadsOn(start, s', TakeOver(k, hash, true));
      var token := ReclaimKey(k, hash);
      s' := DoTakeOver(s', k, hash, true);
      b := if token.Some? then Run(token.value) else Busy;
    }

    method AnswerFromLog(k: Key, hash: string, status: nat, log: Logged, ghost start: State, s: State) returns (answer: Option<string>, s': State)
      requires Leads(start, s) && Mirrors(s) && status != PENDING
      modifies this`recs
      ensures Leads(start, s') && Mirrors(s') && answer == Some(log.response) && s'.sends == s.sends && s'.grants == s.grants
      ensures recs == if log.final then StoreResponse(old(recs), k, hash, status, log.response, now) else old(recs)
    {
      s' := s;
      if log.final {
        s' := StoreAs(k, hash, status, log.response, start, s);
      }
      answer := Some(log.response);
    }

    method StoreAs(k: Key, hash: string, status: nat, body: string, ghost start: State, s: State) returns (s': State)
      requires Leads(start, s) && Mirrors(s) && status != PENDING
      modifies this`recs
      ensures Leads(start, s') && Mirrors(s') && recs == StoreResponse(old(recs), k, hash, status, body, now)
      ensures s'.sends == s.sends && s'.grants == s.grants
    {
      LeadsOn(start, s, Answer(k, hash, status, body));
      StoreAnswer(k, hash, status, body);
      s' := DoAnswer(s, k, hash, status, body);
    }

    /** failed, when nothing was sent: the key is released. */
    method GiveBack(k: Key, token: Token, w: World, ghost start: State, s: State) returns (s': State)
      requires Leads(start, s) && Mirrors(s) && token < s.tokens && (StageIs(s, token, Holding) || StageIs(s, token, Attached) || StageIs(s, token, Failing))
      requires s.grants[token].key == k
      modifies this
      ensures Leads(start, s') && Mirrors(s')
      ensures Silent(w) ==> now == old(now) && recs == Release(old(recs), k, token) && s'.sends == s.sends
    {
      LeadsOn(start, s, Fail(token));
      s' := DoFail(s, token);
      OthersKeep(s', w(4), token, Failing);
      s' := Meanwhile(Others(w(4), token), start, s');
      LeadsOn(start, s', Free(token));
      ReleaseKey(k, token);
      s' := DoFree(s', token);
    }

    /** create under a token: attach, send, and what the outcome leaves. */
    method Create(k: Key, hash: string, status: nat, token: Token, work: Work, log: Option<Logged>, w: World, ghost start: State, s: State)
      returns (answer: Option<string>, sent: bool, s': State)
      requires Leads(start, s) && Mirrors(s) && StageIs(s, token, Holding) && token < s.tokens && s.grants[token].key == k && status != PENDING
      modifies this
      ensures Leads(start, s') && Mirrors(s')
      ensures sent ==> token in s'.grants && s'.grants[token].key == k && token in s'.sends
      ensures Silent(w) && Holds(old(recs), k, token) && old(recs)[k].hash == hash ==>
                && now == old(now) && (sent <==> work.FailsAfterSend? || work.Completes?)
                && Outcome(old(recs), recs, k, hash, status, work, log, answer, sent)
    {
      answer, sent, s' := None, false, s;
      if work.Answers? {
        s' := Meanwhile(Others(w(3), token), start, s');
        s' := StoreAs(k, hash, status, work.response, start, s');
        answer := Some(work.response);
        return;
      }
      if work.FailsEarly? {
        s' := GiveBack(k, token, w, start, s');
        return;
      }
      answer, sent, s' := AttachAndSend(k, hash, status, token, work, log, w, start, s');
    }

    /** A holder that lost its key aborts without sending or releasing. */
    method AttachAndSend(k: Key, hash: string, status: nat, token: Token, work: Work, log: Option<Logged>, w: World, ghost start: State, s: State)
      returns (answer: Option<string>, sent: bool, s': State)
      requires Leads(start, s) && Mirrors(s) && StageIs(s, token, Holding) && token < s.tokens && s.grants[token].key == k && status != PENDING
      requires !work.Answers? && !work.FailsEarly?
      modifies this
      ensures Leads(start, s') && Mirrors(s')
      ensures sent ==> token in s'.grants && s'.grants[token].key == k && token in s'.sends
      ensures Silent(w) && Holds(old(recs), k, token) && old(recs)[k].hash == hash ==>
                && now == old(now) && (sent <==> work.FailsAfterSend? || work.Completes?)
                && Outcome(old(recs), recs, k, hash, status, work, log, answer, sent)
    {
      answer, sent := None, false;
      OthersKeep(s, w(3), token, Holding);
      s' := Meanwhile(Others(w(3), token), start, s);
      LeadsOn(start, s', Attach(token, work.rrn, true));
      var held := AttachRRN(k, token, work.rrn);
      s' := DoAttach(s', token, work.rrn, true);
      if !held {
        return;
      }
      if work.FailsBeforeSend? {
        s' := GiveBack(k, token, w, start, s');
        return;
      }
      sent := true;
      answer, s' := SendAndStore(k, hash, status, token, work, log, w, start, s');
    }

    /** From the send on the key is never released. */
    method SendAndStore(k: Key, hash: string, status: nat, token: Token, work: Work, log: Option<Logged>, w: World, ghost start: State, s: State)
      returns (answer: Option<string>, s': State)
      requires Leads(start, s) && Mirrors(s) && StageIs(s, token, Attached) && token < s.tokens && s.grants[token].key == k && status != PENDING
      requires work.FailsAfterSend? || work.Completes?
      modifies this
      ensures Leads(start, s') && Mirrors(s') && token in s'.grants && s'.grants[token].key == k && token in s'.sends
      ensures Silent(w) && Holds(old(recs), k, token) && old(recs)[k].rrn == Some(work.rrn) && old(recs)[k].hash == hash ==>
                now == old(now) && Outcome(old(recs), recs, k, hash, status, work, log, answer, true)
    {
      answer := None;
      LeadsOn(start, s, Send(token));
      s' := DoSend(s, token);
      SentStays(s', Others(w(5), token), token);
      s' := Meanwhile(Others(w(5), token), start, s');
      if work.Completes? {
        s' := StoreAs(k, hash, status, work.response, start, s');
        answer := Some(work.response);
      } else if log.Some? {
        answer, s' := AnswerFromLog(k, hash, status, log.value, start, s');
      }
    }

    /**
     Idempotent. Whatever the others do, the call is a run of the protocol, so all its promises hold of
     it. Undisturbed: a send only under a key that was free, expired or stale, after which the key is
     spent; an answer without a send is stored under it; and a failure before the send frees it at once.
     */
    method Idempotent(k: Key, hash: string, status: nat, work: Work, log: Option<Logged>, w: World, ghost start: State, s: State)
      returns (answer: Option<string>, sent: bool, s': State)
      requires Leads(start, s) && Mirrors(s) && status != PENDING
      modifies this
      ensures Leads(start, s') && Mirrors(s')
      ensures sent ==> exists token :: token in s'.sends && token in s'.grants && s'.grants[token].key == k
      ensures Silent(w) ==>
                && (sent <==> Grantable(old(recs), k, hash, now) && (work.FailsAfterSend? || work.Completes?))
                && (Grantable(old(recs), k, hash, now) ==> Outcome(old(recs), recs, k, hash, status, work, log, answer, sent))
                && (!Grantable(old(recs), k, hash, now) ==> answer == Replayed(old(recs), k, hash, now, log))
                && (!Grantable(old(recs), k, hash, now) ==>
                      recs == old(recs) || (log.Some? && log.value.final && IsAnswered(recs, k, hash, status, log.value.response)))
    {
      var b;
      answer, sent := None, false;
      b, s' := Begin(k, hash, log.Some?, w, start, s);
      match b
      case Replay(body) => answer := Some(body);
      case FromLog(_) =>
        s' := Meanwhile(w(3), start, s');
        answer, s' := AnswerFromLog(k, hash, status, log.value, start, s');
      case Busy =>
      case Refused =>
      case Run(token) => answer, sent, s' := Create(k, hash, status, token, work, log, w, start, s');
    }
  }

  predicate Grantable(recs: Records, k: Key, hash: string, now: int) {
    Reservable(recs, k, now) || Reclaimable(recs, k, hash, now)
  }

  /** What a call that does not run create answers: the stored body, what tran_log says of the RRN, or a refusal. */
  function Replayed(recs: Records, k: Key, hash: string, now: int, log: Option<Logged>): Option<string>
    requires k in recs
  {
    var rec := recs[k];
    if rec.hash != hash then None
    else if rec.status != PENDING then Some(rec.body)
    else if rec.rrn.Some? && now > rec.createdAt + STALE_AFTER && log.Some? then Some(log.value.response)
    else None
  }

  /** Begin's five answers, each with its condition on the record it found. */
  ghost predicate BeginsAs(before: Records, after: Records, k: Key, hash: string, logs: bool, now: int, b: Begun) {
    && (b.Run? <==> Grantable(before, k, hash, now))
    && (b.Run? ==> Holds(after, k, b.token) && after[k].rrn.None? && after[k].createdAt == now && after[k].hash == hash)
    && (b.Run? ==> after == before[k := after[k]])
    && (!b.Run? ==>
          && after == before && k in before
          && var rec := before[k];
             && (b.Refused? <==> rec.hash != hash)
             && (b.Replay? <==> rec.hash == hash && rec.status != PENDING)
             && (b.Replay? ==> b.body == rec.body)
             && (b.FromLog? <==> rec.hash == hash && rec.status == PENDING && rec.rrn.Some? && rec.createdAt < now - STALE_AFTER && logs)
             && (b.FromLog? ==> rec.rrn == Some(b.rrn)))
  }

  /** What running create leaves: a spent key after a send, the response when there is one, and else a free key. */
  ghost predicate Outcome(before: Records, after: Records, k: Key, hash: string, status: nat, work: Work, log: Option<Logged>, answer: Option<string>, sent: bool) {
    && (sent ==> Spent(after, k) && (work.FailsAfterSend? || work.Completes?) && after[k].rrn == Some(work.rrn))
    && (sent && work.FailsAfterSend? && !(log.Some? && log.value.final) ==> after[k].status == PENDING && after[k].hash == hash)
    && (!sent && !work.Answers? ==> k !in after)
    && (work.Answers? ==> answer == Some(work.response) && IsAnswered(after, k, hash, status, work.response))
    && (sent && work.Completes? ==> answer == Some(work.response) && IsAnswered(after, k, hash, status, work.response))
    && (sent && work.FailsAfterSend? && log.Some? ==>
          answer == Some(log.value.response) && (log.value.final ==> IsAnswered(after, k, hash, status, log.value.response)))
    && (forall j :: j != k ==> (j in after <==> j in before) && (j in after ==> after[j] == before[j]))
  }

  /** The key has a response, or names the RRN that was sent: neither Reserve nor Reclaim can grant it in time. */
  predicate Spent(recs: Records, k: Key) {
    k in recs && (recs[k].status != PENDING || recs[k].rrn.Some?)
  }

  predicate IsAnswered(recs: Records, k: Key, hash: string, status: nat, body: string) {
    k in recs && recs[k].hash == hash && recs[k].status == status && recs[k].body == body
  }

  /** A retry of a request that was sent learns the RRN it was sent under, or replays the very response it was stored with. */
  lemma RetryFinds(before: Records, after: Records, k: Key, hash: string, now: int, b: Begun, rrn: string, status: nat, body: string)
    requires BeginsAs(before, after, k, hash, true, now, b) && k in before && now <= before[k].createdAt + TTL
    ensures before[k].status == PENDING && before[k].hash == hash && before[k].rrn == Some(rrn) && now > before[k].createdAt + STALE_AFTER ==>
              b == FromLog(rrn)
    ensures IsAnswered(before, k, hash, status, body) && status != PENDING ==> b == Replay(body)
    ensures before[k].hash != hash ==> b == Refused
    ensures !b.Run? ==> after == before
  {
  }

  /** A spent key cannot be granted before its 24 h are over. */
  lemma SpentKeyIsNotGranted(recs: Records, k: Key, hash: string, later: int)
    requires Spent(recs, k)
    ensures Grantable(recs, k, hash, later) <==> later > recs[k].createdAt + TTL
  {
  }
}

/**
 A transaction's journey: the ordered steps rebuilt from its row, its history and its queued reversal,
 and the money they moved.
 */
module Journey {
  import opened Store

  datatype StepCode =
    | POSRequest | RequestSent | LocalDecline | IssuerApproved | IssuerDeclined | NoResponse
    | ReversalQueued | POSResult | ReversalSent | ReversalConfirmed | LateResponse

  datatype Step = Step(seqNo: int, code: StepCode, offsetMs: int)

  datatype Timed = Timed(at: int, code: StepCode)

  datatype MoneyRow = MoneyRow(delta: int, atStep: int)

  datatype Transition = Transition(to: Status, at: int)

  /** Times are in nanoseconds; ZERO_TIME is Go's zero time. */
  const ZERO_TIME := 0
  const MILLISECOND := 1_000_000

  datatype Txn = Txn(tranType: TranType, amount: int, createdAt: int, sentAt: Option<int>, lateResponseAt: Option<int>)

  /** The queued 0420: when its DE 7 says it was first sent, and when it was acknowledged. */
  datatype Reversal = Reversal(sentAt: Option<int>, ackedAt: Option<int>)

  datatype Builder = Builder(txn: Txn, history: seq<Transition>, rev: Option<Reversal>)

  // The steps.

  function Earlier(start: int, at: Option<int>): int {
    if at.Some? && (start == ZERO_TIME || at.value < start) then at.value else start
  }

  function Start(b: Builder): int {
    var start := Earlier(b.txn.createdAt, b.txn.sentAt);
    Earlier(start, if b.history == [] then None else Some(b.history[0].at))
  }

  /** reached: when the transaction first moved to a status. */
  function Reached(history: seq<Transition>, status: Status): Option<int> {
    if history == [] then None
    else if history[0].to == status then Some(history[0].at)
    else Reached(history[1..], status)
  }

  function SentAt(b: Builder): Option<int> {
    var reached := Reached(b.history, Sent);
    if reached.Some? then reached else b.txn.sentAt
  }

  function RequestSteps(b: Builder): seq<Timed> {
    match SentAt(b)
    case None => [Timed(Start(b), POSRequest), Timed(Start(b), LocalDecline)]
    case Some(at) => [Timed(Start(b), POSRequest), Timed(at, RequestSent)]
  }

  function QueuedSteps(b: Builder): seq<Timed> {
    match Reached(b.history, ReversalPending)
    case None => []
    case Some(at) => [Timed(at, ReversalQueued)]
  }

  /** A timeout queues the reversal before the POS hears back; a cancellation queues it after. */
  function OutcomeSteps(b: Builder): seq<Timed> {
    if SentAt(b).None? then [Timed(Start(b), POSResult)]
    else
      var timedOut, approved, declined := Reached(b.history, TimedOut), Reached(b.history, Approved), Reached(b.history, Declined);
      if timedOut.Some? then
        var steps := [Timed(timedOut.value, NoResponse)] + QueuedSteps(b);
        steps + [Timed(steps[|steps| - 1].at, POSResult)]
      else if approved.Some? then
        [Timed(approved.value, IssuerApproved), Timed(approved.value, POSResult)] + QueuedSteps(b)
      else if declined.Some? then
        [Timed(declined.value, IssuerDeclined), Timed(declined.value, POSResult)] + QueuedSteps(b)
      else []
  }

  function ReversalSentAt(b: Builder): Option<int> {
    match b.rev
    case None => Reached(b.history, Reversed)
    case Some(rev) =>
      if rev.sentAt.Some? && rev.ackedAt.Some? && rev.sentAt.value > rev.ackedAt.value then rev.ackedAt else rev.sentAt
  }

  function ReversalConfirmedAt(b: Builder): Option<int> {
    if b.rev.Some? && b.rev.value.ackedAt.Some? then b.rev.value.ackedAt else Reached(b.history, Reversed)
  }

  function ReversalSteps(b: Builder): seq<Timed> {
    var sent, confirmed := ReversalSentAt(b), ReversalConfirmedAt(b);
    (if sent.Some? then [Timed(sent.value, ReversalSent)] else []) +
    (if confirmed.Some? then [Timed(confirmed.value, ReversalConfirmed)] else [])
  }

  function TimedSteps(b: Builder): seq<Timed> {
    RequestSteps(b) + OutcomeSteps(b) + ReversalSteps(b)
  }

  function MsBetween(from: int, to: int): nat {
    if to < from then 0 else (to - from) / MILLISECOND
  }

  // What the steps are, code by code.

  /** The answer the request learned. */
  datatype Learned = Unsent | TimeOut | Approval | Decline | Nothing

  function LearnedOf(b: Builder): Learned {
    if SentAt(b).None? then Unsent
    else if Reached(b.history, TimedOut).Some? then TimeOut
    else if Reached(b.history, Approved).Some? then Approval
    else if Reached(b.history, Declined).Some? then Decline
    else Nothing
  }

  /** When a step shows, if it does. */
  function When(b: Builder, code: StepCode): Option<int> {
    var learned, queued := LearnedOf(b), Reached(b.history, ReversalPending);
    match code
    case POSRequest => Some(Start(b))
    case RequestSent => SentAt(b)
    case LocalDecline => if learned == Unsent then Some(Start(b)) else None
    case NoResponse => if learned == TimeOut then Reached(b.history, TimedOut) else None
    case IssuerApproved => if learned == Approval then Reached(b.history, Approved) else None
    case IssuerDeclined => if learned == Decline then Reached(b.history, Declined) else None
    case ReversalQueued => if learned == Unsent || learned == Nothing then None else queued
    case POSResult => ResultAt(b, learned, queued)
    case ReversalSent => ReversalSentAt(b)
    case ReversalConfirmed => ReversalConfirmedAt(b)
    case LateResponse => None
  }

  /** The POS hears at once, but after a time-out only once its reversal is queued. */
  function ResultAt(b: Builder, learned: Learned, queued: Option<int>): Option<int> {
    match learned
    case Unsent => Some(Start(b))
    case TimeOut => if queued.Some? then queued else Reached(b.history, TimedOut)
    case Approval => Reached(b.history, Approved)
    case Decline => Reached(b.history, Declined)
    case Nothing => None
  }

  /** The order of the steps; only the POS result and the queued reversal change places. */
  function Rank(timeout: bool, code: StepCode): nat {
    match code
    case POSRequest => 0
    case RequestSent => 1
    case LocalDecline => 1
    case IssuerApproved => 2
    case IssuerDeclined => 2
    case NoResponse => 2
    case POSResult => if timeout then 4 else 3
    case ReversalQueued => if timeout then 3 else 4
    case ReversalSent => 5
    case ReversalConfirmed => 6
    case LateResponse => 7
  }

  ghost predicate Ranked(steps: seq<Timed>, timeout: bool, low: nat, high: nat) {
    && (forall i :: 0 <= i < |steps| ==> low <= Rank(timeout, steps[i].code) <= high)
    && (forall i, j :: 0 <= i < j < |steps| ==> Rank(timeout, steps[i].code) < Rank(timeout, steps[j].code))
  }

  lemma RankedThen(a: seq<Timed>, b: seq<Timed>, timeout: bool, low: nat, mid: nat, high: nat)
    requires low <= mid < high && Ranked(a, timeout, low, mid) && Ranked(b, timeout, mid + 1, high)
    ensures Ranked(a + b, timeout, low, high)
  {
  }

  lemma OutcomeRanked(b: Builder)
    ensures Ranked(OutcomeSteps(b), LearnedOf(b) == TimeOut, 2, 4)
  {
  }

  /** So every code shows at most once, and in its place. */
  lemma StepsInOrder(b: Builder)
    ensures Ranked(TimedSteps(b), LearnedOf(b) == TimeOut, 0, 6)
  {
    var timeout := LearnedOf(b) == TimeOut;
    OutcomeRanked(b);
    RankedThen(RequestSteps(b), OutcomeSteps(b), timeout, 0, 1, 4);
    RankedThen(RequestSteps(b) + OutcomeSteps(b), ReversalSteps(b), timeout, 0, 4, 6);
  }

  lemma RequestShows(b: Builder, t: Timed)
    ensures t in RequestSteps(b) <==> t.code in {POSRequest, RequestSent, LocalDecline} && When(b, t.code) == Some(t.at)
  {
  }

  lemma OutcomeShows(b: Builder, t: Timed)
    ensures t in OutcomeSteps(b) <==>
            t.code in {NoResponse, IssuerApproved, IssuerDeclined, ReversalQueued, POSResult} && When(b, t.code) == Some(t.at)
  {
  }

  lemma ReversalShows(b: Builder, t: Timed)
    ensures t in ReversalSteps(b) <==> t.code in {ReversalSent, ReversalConfirmed} && When(b, t.code) == Some(t.at)
  {
  }

  /** A step shows exactly when it happened, at the time it happened. */
  lemma StepsShow(b: Builder, t: Timed)
    ensures t in TimedSteps(b) <==> When(b, t.code) == Some(t.at)
  {
    RequestShows(b, t);
    OutcomeShows(b, t);
    ReversalShows(b, t);
    assert t in TimedSteps(b) <==> t in RequestSteps(b) || t in OutcomeSteps(b) || t in ReversalSteps(b);
  }

  /** A status counts from the first time it was reached. */
  lemma {:induction false} ReachedIsFirst(history: seq<Transition>, status: Status)
    ensures Reached(history, status).None? <==> forall i :: 0 <= i < |history| ==> history[i].to != status
    ensures Reached(history, status).Some? ==>
              exists i :: 0 <= i < |history| && history[i] == Transition(status, Reached(history, status).value)
                          && forall j :: 0 <= j < i ==> history[j].to != status
  {
    if history != [] && history[0].to != status {
      ReachedIsFirst(history[1..], status);
      if Reached(history, status).Some? {
        var i :| 0 <= i < |history[1..]| && history[1..][i] == Transition(status, Reached(history, status).value)
                 && forall j :: 0 <= j < i ==> history[1..][j].to != status;
        assert history[i + 1] == history[1..][i];
        assert forall j :: 0 <= j < i + 1 ==> j == 0 || history[j] == history[1..][j - 1];
      } else {
        assert forall i :: 1 <= i < |history| ==> history[i] == history[1..][i - 1];
      }
    } else if history != [] {
      assert history[0] == Transition(status, history[0].at);
    }
  }

  /** The journey starts at the earliest of what is known: the row's insert, the send and the first transition. */
  lemma StartIsEarliest(b: Builder)
    requires b.txn.createdAt != ZERO_TIME
    ensures Start(b) == b.txn.createdAt || Some(Start(b)) == b.txn.sentAt || (b.history != [] && Start(b) == b.history[0].at)
    ensures (b.txn.sentAt.Some? ==> b.txn.sentAt.value != ZERO_TIME) ==>
              && Start(b) <= b.txn.createdAt && (b.txn.sentAt.Some? ==> Start(b) <= b.txn.sentAt.value)
              && (b.history != [] ==> Start(b) <= b.history[0].at)
  {
  }

  /** The 0420 is never shown as sent after the 0430 that acknowledged it. */
  lemma SentBeforeConfirmed(b: Builder)
    requires b.rev.Some? && b.rev.value.ackedAt.Some?
    ensures ReversalConfirmedAt(b) == b.rev.value.ackedAt
    ensures ReversalSentAt(b).Some? <==> b.rev.value.sentAt.Some?
    ensures ReversalSentAt(b).Some? ==> ReversalSentAt(b).value <= b.rev.value.ackedAt.value && ReversalSentAt(b).value <= b.rev.value.sentAt.value
  {
  }

  // Offsets.

  ghost predicate NonDecreasing(steps: seq<Step>) {
    forall i, j :: 0 <= i < j < |steps| ==> steps[i].offsetMs <= steps[j].offsetMs
  }

  /** The clamped offset of step i: the latest time so far. */
  function Clamped(timed: seq<Timed>, start: int, i: nat): nat
    requires i < |timed|
  {
    var own := MsBetween(start, timed[i].at);
    if i == 0 then own
    else
      var before := Clamped(timed, start, i - 1);
      if own > before then own else before
  }

  /** withOffsets: every step keeps its place and shows the latest time reached by then. */
  method WithOffsets(timed: seq<Timed>, start: int) returns (steps: seq<Step>)
    ensures |steps| == |timed| && NonDecreasing(steps)
    ensures forall i :: 0 <= i < |steps| ==> steps[i] == Step(0, timed[i].code, Clamped(timed, start, i))
  {
    steps := [];
    var prev := 0;
    for i := 0 to |timed|
      invariant |steps| == i
      invariant forall k :: 0 <= k < i ==> steps[k] == Step(0, timed[k].code, Clamped(timed, start, k))
      invariant prev == if i == 0 then 0 else Clamped(timed, start, i - 1)
    {
      var own := MsBetween(start, timed[i].at);
      prev := if own > prev then own else prev;
      steps := steps + [Step(0, timed[i].code, prev)];
    }
    forall i, j | 0 <= i < j < |steps| ensures steps[i].offsetMs <= steps[j].offsetMs {
      ClampedGrows(timed, start, i, j);
    }
  }

  lemma {:induction false} ClampedGrows(timed: seq<Timed>, start: int, i: nat, j: nat)
    requires i <= j < |timed|
    ensures Clamped(timed, start, i) <= Clamped(timed, start, j)
  {
    if i < j {
      ClampedGrows(timed, start, i, j - 1);
    }
  }

  /** The clamp hides nothing: an offset is the time of that step or of an earlier one. */
  lemma {:induction false} ClampedIsLatest(timed: seq<Timed>, start: int, i: nat)
    requires i < |timed|
    ensures forall k :: 0 <= k <= i ==> MsBetween(start, timed[k].at) <= Clamped(timed, start, i)
    ensures exists k :: 0 <= k <= i && MsBetween(start, timed[k].at) == Clamped(timed, start, i)
  {
    if i > 0 {
      ClampedIsLatest(timed, start, i - 1);
      if MsBetween(start, timed[i].at) <= Clamped(timed, start, i - 1) {
        var k :| 0 <= k <= i - 1 && MsBetween(start, timed[k].at) == Clamped(timed, start, i - 1);
        assert MsBetween(start, timed[k].at) == Clamped(timed, start, i);
      } else {
        assert MsBetween(start, timed[i].at) == Clamped(timed, start, i);
      }
    } else {
      assert MsBetween(start, timed[0].at) == Clamped(timed, start, 0);
    }
  }

  /** sort.Search for the first step later than offset. */
  method Search(steps: seq<Step>, offset: int) returns (at: nat)
    requires NonDecreasing(steps)
    ensures at <= |steps|
    ensures forall i :: 0 <= i < at ==> steps[i].offsetMs <= offset
    ensures forall i :: at <= i < |steps| ==> steps[i].offsetMs > offset
  {
    var low, high := 0, |steps|;
    while low < high
      invariant low <= high <= |steps|
      invariant forall i :: 0 <= i < low ==> steps[i].offsetMs <= offset
      invariant forall i :: high <= i < |steps| ==> steps[i].offsetMs > offset
    {
      var mid := (low + high) / 2;
      if steps[mid].offsetMs > offset {
        high := mid;
      } else {
        low := mid + 1;
      }
    }
    at := low;
  }

  /** insertAtOffset: after every step that is not later, the others in their order. */
  method InsertAtOffset(steps: seq<Step>, late: Step) returns (r: seq<Step>, at: nat)
    requires NonDecreasing(steps)
    ensures at <= |steps| && r == steps[..at] + [late] + steps[at..] && NonDecreasing(r)
  {
    at := Search(steps, late.offsetMs);
    r := steps[..at] + [late] + steps[at..];
  }

  // Money.

  function MoneySign(t: TranType): int {
    match t
    case Refund => 1
    case Balance => 0
    case _ => -1
  }

  /** seqOf: the number of the first step with that code, 0 if there is none. */
  method SeqOf(steps: seq<Step>, code: StepCode) returns (n: int)
    requires Numbered(steps)
    ensures 0 <= n <= |steps|
    ensures n > 0 ==> steps[n - 1].code == code
    ensures forall i :: 0 <= i < |steps| && (n == 0 || i < n - 1) ==> steps[i].code != code
  {
    for i := 0 to |steps|
      invariant forall k :: 0 <= k < i ==> steps[k].code != code
    {
      if steps[i].code == code {
        return steps[i].seqNo;
      }
    }
    return 0;
  }

  ghost predicate Numbered(steps: seq<Step>) {
    forall i :: 0 <= i < |steps| ==> steps[i].seqNo == i + 1
  }

  predicate HasCode(steps: seq<Step>, code: StepCode) {
    exists i :: 0 <= i < |steps| && steps[i].code == code
  }

  predicate Holding(code: StepCode) {
    code == IssuerApproved || code == NoResponse || code == IssuerDeclined
  }

  /** debitStep: where the money was, or is assumed to be, held. */
  method DebitStep(steps: seq<Step>) returns (n: int)
    requires Numbered(steps)
    ensures 0 <= n <= |steps|
    ensures n > 0 ==> Holding(steps[n - 1].code)
    ensures n > 0 <==> HasCode(steps, IssuerApproved) || HasCode(steps, NoResponse)
                       || (HasCode(steps, ReversalQueued) && HasCode(steps, IssuerDeclined))
  {
    n := SeqOf(steps, IssuerApproved);
    if n > 0 {
      return;
    }
    n := SeqOf(steps, NoResponse);
    if n > 0 {
      return;
    }
    var queued := SeqOf(steps, ReversalQueued);
    if queued > 0 {
      n := SeqOf(steps, IssuerDeclined);
    }
  }

  /** No reversal is confirmed before the money it returns was held. */
  ghost predicate HeldFirst(steps: seq<Step>) {
    forall i, j :: 0 <= i < |steps| && 0 <= j < |steps| && Holding(steps[i].code) && steps[j].code == ReversalConfirmed ==> i < j
  }

  method MoneyRows(txn: Txn, steps: seq<Step>) returns (rows: seq<MoneyRow>)
    requires Numbered(steps) && HeldFirst(steps)
    ensures MoneyFits(txn, steps, rows)
  {
    var sign := MoneySign(txn.tranType);
    assert sign * txn.amount == (if sign == 0 then 0 else if sign == 1 then txn.amount else -txn.amount);
    assert -sign * txn.amount == -(sign * txn.amount);
    var debit := DebitStep(steps);
    if debit == 0 || sign == 0 {
      return [];
    }
    rows := [MoneyRow(sign * txn.amount, debit)];
    var confirmed := SeqOf(steps, ReversalConfirmed);
    if confirmed > 0 {
      rows := [rows[0], MoneyRow(-sign * txn.amount, confirmed)];
      SumOfTwo(rows);
    }
  }

  lemma SumOfTwo(rows: seq<MoneyRow>)
    requires |rows| == 2
    ensures Sum(rows) == rows[0].delta + rows[1].delta
  {
    var rest := rows[1..];
    assert rest[1..] == [] && Sum(rest) == rest[0].delta + Sum(rest[1..]);
  }

  function Sum(rows: seq<MoneyRow>): int {
    if rows == [] then 0 else rows[0].delta + Sum(rows[1..])
  }

  predicate IsSeq(steps: seq<Step>, n: int) {
    0 < n <= |steps|
  }

  /** A balance moves nothing; money moves where it was held, and a confirmed reversal brings it all back later. */
  ghost predicate MoneyFits(txn: Txn, steps: seq<Step>, rows: seq<MoneyRow>) {
    && (rows != [] ==>
          && IsSeq(steps, rows[0].atStep) && Holding(steps[rows[0].atStep - 1].code)
          && rows[0].delta == (if txn.tranType == Refund then txn.amount else -txn.amount))
    && (rows != [] && HasCode(steps, ReversalConfirmed) ==>
          && |rows| == 2 && Sum(rows) == 0 && rows[0].atStep < rows[1].atStep
          && IsSeq(steps, rows[1].atStep) && steps[rows[1].atStep - 1].code == ReversalConfirmed)
    && (!HasCode(steps, ReversalConfirmed) ==> |rows| <= 1)
    && (rows != [] <==>
          && txn.tranType != Balance
          && (HasCode(steps, IssuerApproved) || HasCode(steps, NoResponse)
              || (HasCode(steps, ReversalQueued) && HasCode(steps, IssuerDeclined))))
  }

  // The journey.

  /** Only the outcome holds money, and only what follows it confirms a reversal. */
  lemma TimedHeldFirst(b: Builder, i: nat, j: nat)
    requires i < |TimedSteps(b)| && j < |TimedSteps(b)|
    requires Holding(TimedSteps(b)[i].code) && TimedSteps(b)[j].code == ReversalConfirmed
    ensures i < j
  {
    OutcomeConfirmsNothing(b);
    ReversalHoldsNothing(b);
  }

  lemma OutcomeCodes(b: Builder)
    ensures forall t :: t in OutcomeSteps(b) ==> t.code != ReversalConfirmed
  {
    assert forall t :: t in QueuedSteps(b) ==> t.code == ReversalQueued;
  }

  lemma OutcomeConfirmsNothing(b: Builder)
    ensures forall k :: 0 <= k < |RequestSteps(b) + OutcomeSteps(b)| ==> TimedSteps(b)[k].code != ReversalConfirmed
  {
    OutcomeCodes(b);
    var before := RequestSteps(b) + OutcomeSteps(b);
    assert forall t :: t in before ==> t.code != ReversalConfirmed;
    forall k | 0 <= k < |before| ensures TimedSteps(b)[k].code != ReversalConfirmed {
      assert TimedSteps(b)[k] == before[k];
      assert before[k] in before;
    }
  }

  lemma ReversalHoldsNothing(b: Builder)
    ensures forall k :: |RequestSteps(b) + OutcomeSteps(b)| <= k < |TimedSteps(b)| ==> !Holding(TimedSteps(b)[k].code)
  {
    var n, after := |RequestSteps(b) + OutcomeSteps(b)|, ReversalSteps(b);
    assert forall t :: t in after ==> !Holding(t.code);
    forall k | n <= k < |TimedSteps(b)| ensures !Holding(TimedSteps(b)[k].code) {
      assert TimedSteps(b)[k] == after[k - n];
      assert after[k - n] in after;
    }
  }

  /** The built steps are the timed ones in order, with a late response somewhere between them. */
  ghost predicate Keeps(steps: seq<Step>, timed: seq<Timed>, start: int, late: Option<nat>) {
    match late
    case None => |steps| == |timed| && forall i :: 0 <= i < |timed| ==> Shows(steps[i], timed, start, i)
    case Some(at) =>
      && at <= |timed| && |steps| == |timed| + 1 && steps[at].code == LateResponse
      && (forall i :: 0 <= i < at ==> Shows(steps[i], timed, start, i))
      && (forall j :: at < j <= |timed| ==> Shows(steps[j], timed, start, j - 1))
  }

  /** The step shows that event, at the latest time reached by then. */
  ghost predicate Shows(step: Step, timed: seq<Timed>, start: int, i: nat)
    requires i < |timed|
  {
    step.code == timed[i].code && step.offsetMs == Clamped(timed, start, i)
  }

  lemma KeepsHeldFirst(timed: seq<Timed>, steps: seq<Step>, start: int, late: Option<nat>)
    requires Keeps(steps, timed, start, late)
    requires forall i, j :: 0 <= i < |timed| && 0 <= j < |timed| && Holding(timed[i].code) && timed[j].code == ReversalConfirmed ==> i < j
    ensures HeldFirst(steps)
  {
    forall i, j | 0 <= i < |steps| && 0 <= j < |steps| && Holding(steps[i].code) && steps[j].code == ReversalConfirmed ensures i < j {
      var p := if late.Some? && i > late.value then i - 1 else i;
      var q := if late.Some? && j > late.value then j - 1 else j;
      assert Shows(steps[i], timed, start, p) && Shows(steps[j], timed, start, q);
    }
  }

  /** Steps in non-decreasing time, numbered 1 to n, each of them kept, and money that adds up. */
  method BuildJourney(b: Builder) returns (steps: seq<Step>, money: seq<MoneyRow>, ghost late: Option<nat>)
    ensures NonDecreasing(steps) && Numbered(steps)
    ensures Keeps(steps, TimedSteps(b), Start(b), late) && (late.Some? <==> b.txn.lateResponseAt.Some?)
    ensures late.Some? ==> steps[late.value].offsetMs == MsBetween(Start(b), b.txn.lateResponseAt.value)
    ensures MoneyFits(b.txn, steps, money)
  {
    var timed := TimedSteps(b);
    steps, late := Placed(timed, Start(b), b.txn.lateResponseAt);
    steps := Renumbered(steps);
    AllHeldFirst(b, timed);
    KeepsHeldFirst(timed, steps, Start(b), late);
    money := MoneyRows(b.txn, steps);
  }

  lemma AllHeldFirst(b: Builder, timed: seq<Timed>)
    requires timed == TimedSteps(b)
    ensures forall i, j :: 0 <= i < |timed| && 0 <= j < |timed| && Holding(timed[i].code) && timed[j].code == ReversalConfirmed ==> i < j
  {
    forall i, j | 0 <= i < |timed| && 0 <= j < |timed| && Holding(timed[i].code) && timed[j].code == ReversalConfirmed ensures i < j {
      TimedHeldFirst(b, i, j);
    }
  }

  /** The offsets, and the late response among them. */
  method Placed(timed: seq<Timed>, start: int, lateAt: Option<int>) returns (steps: seq<Step>, ghost late: Option<nat>)
    ensures NonDecreasing(steps) && Keeps(steps, timed, start, late) && (late.Some? <==> lateAt.Some?)
    ensures late.Some? ==> steps[late.value].offsetMs == MsBetween(start, lateAt.value)
  {
    steps := WithOffsets(timed, start);
    late := None;
    if lateAt.Some? {
      var at;
      steps, at := InsertAtOffset(steps, Step(0, LateResponse, MsBetween(start, lateAt.value)));
      late := Some(at);
    }
  }

  method Renumbered(steps: seq<Step>) returns (r: seq<Step>)
    requires NonDecreasing(steps)
    ensures Numbered(r) && NonDecreasing(r) && |r| == |steps|
    ensures forall i :: 0 <= i < |r| ==> r[i].code == steps[i].code && r[i].offsetMs == steps[i].offsetMs
  {
    r := steps;
    for i := 0 to |r|
      invariant |r| == |steps|
      invariant forall k :: 0 <= k < |r| ==> r[k] == if k < i then steps[k].(seqNo := k + 1) else steps[k]
    {
      r := r[i := r[i].(seqNo := i + 1)];
    }
  }
}

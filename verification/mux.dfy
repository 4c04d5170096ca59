/**
 Correlating responses to requests on one connection by (STAN, DE 7): Send and Serve, statement by
 statement, with timeouts and duplicate or late responses in any order.
 */
module Mux {
  import opened Store

  datatype MuxKey = MuxKey(stan: string, de7: string)

  /** An inbound frame that unpacked; id tells apart frames with the same content. */
  datatype Frame = Frame(id: nat, mti: string, fields: Elements)

  function Get(fields: Elements, n: int): string {
    if n in fields then fields[n] else ""
  }

  function KeyOf(fields: Elements): MuxKey {
    MuxKey(Get(fields, 11), Get(fields, 7))
  }

  type SendId = nat

  /** Leaving: the result is decided, the deferred delete is not done yet. */
  datatype Phase = Waiting | Leaving(result: Option<Frame>) | Returned(result: Option<Frame>)

  datatype Send = Send(fields: Elements, phase: Phase)

  datatype State = State(
    sends: seq<Send>,
    pending: map<MuxKey, SendId>,
    buffers: map<SendId, Frame>,              // the channels, of capacity one, that hold a response
    serving: Option<(Frame, SendId)>,         // the response Serve is about to put in a channel
    frames: nat,
    late: seq<Frame>)

  datatype Step =
    | Register(fields: Elements)
    | Read(mti: string, fields: Elements)
    | Put
    | Receive(send: SendId)
    | GiveUp(send: SendId)
    | Unregister(send: SendId)

  function Init(): State {
    State([], map[], map[], None, 0, [])
  }

  predicate IsAt(s: State, i: SendId, phase: Phase) {
    i < |s.sends| && s.sends[i].phase == phase
  }

  function SetPhase(s: State, i: SendId, phase: Phase): State
    requires i < |s.sends|
  {
    s.(sends := s.sends[i := s.sends[i].(phase := phase)])
  }

  function DoRegister(s: State, fields: Elements): State {
    s.(sends := s.sends + [Send(fields, Waiting)], pending := s.pending[KeyOf(fields) := |s.sends|])
  }

  /** Serve reads a frame and looks its key up. */
  function DoRead(s: State, mti: string, fields: Elements): State {
    if s.serving.Some? then s
    else
      var frame := Frame(s.frames, mti, fields);
      var read := s.(frames := s.frames + 1);
      if KeyOf(fields) in s.pending then read.(serving := Some((frame, s.pending[KeyOf(fields)])))
      else read.(late := s.late + [frame])
  }

  /** The channel takes one response; Serve waits while it is full. */
  function DoPut(s: State): State {
    if s.serving.Some? && s.serving.value.1 !in s.buffers
    then s.(buffers := s.buffers[s.serving.value.1 := s.serving.value.0], serving := None)
    else s
  }

  function DoReceive(s: State, i: SendId): State {
    if IsAt(s, i, Waiting) && i in s.buffers
    then SetPhase(s, i, Leaving(Some(s.buffers[i]))).(buffers := s.buffers - {i})
    else s
  }

  function DoGiveUp(s: State, i: SendId): State {
    if IsAt(s, i, Waiting) then SetPhase(s, i, Leaving(None)) else s
  }

  /** The deferred delete: by key, whoever is registered under it. */
  function DoUnregister(s: State, i: SendId): State {
    if i < |s.sends| && s.sends[i].phase.Leaving?
    then SetPhase(s, i, Returned(s.sends[i].phase.result)).(pending := s.pending - {KeyOf(s.sends[i].fields)})
    else s
  }

  function Apply(s: State, step: Step): State {
    match step
    case Register(fields) => DoRegister(s, fields)
    case Read(mti, fields) => DoRead(s, mti, fields)
    case Put => DoPut(s)
    case Receive(i) => DoReceive(s, i)
    case GiveUp(i) => DoGiveUp(s, i)
    case Unregister(i) => DoUnregister(s, i)
  }

  function After(s: State, steps: seq<Step>): State
    decreases |steps|
  {
    if steps == [] then s else After(Apply(s, steps[0]), steps[1..])
  }

  // What every step keeps.

  predicate HasResult(send: Send) {
    !send.phase.Waiting? && send.phase.result.Some?
  }

  /** Send i has frame n: in its channel, or as its result. */
  ghost predicate Has(s: State, i: SendId, n: nat) {
    || (i in s.buffers && s.buffers[i].id == n)
    || (i < |s.sends| && HasResult(s.sends[i]) && s.sends[i].phase.result.value.id == n)
  }

  predicate Answers(frame: Frame, send: Send) {
    KeyOf(frame.fields) == KeyOf(send.fields)
  }

  ghost predicate SendFits(s: State, i: SendId) {
    && i < |s.sends|
    && (HasResult(s.sends[i]) ==> Answers(s.sends[i].phase.result.value, s.sends[i]) && s.sends[i].phase.result.value.id < s.frames)
  }

  ghost predicate BufferFits(s: State, i: SendId) {
    i in s.buffers && i < |s.sends| && Answers(s.buffers[i], s.sends[i]) && s.buffers[i].id < s.frames
  }

  predicate InFlight(s: State, i: SendId) {
    i < |s.sends| && !s.sends[i].phase.Returned?
  }

  /** The entry under a key is a registered Send of that key. */
  ghost predicate PendingFits(s: State, k: MuxKey) {
    k in s.pending && InFlight(s, s.pending[k]) && KeyOf(s.sends[s.pending[k]].fields) == k
  }

  ghost predicate ServingFits(s: State) {
    s.serving.Some? ==>
      && s.serving.value.1 < |s.sends| && s.serving.value.0.id < s.frames
      && Answers(s.serving.value.0, s.sends[s.serving.value.1])
      && (forall i: SendId :: !Has(s, i, s.serving.value.0.id))
  }

  ghost predicate Invariant(s: State) {
    && (forall i: SendId :: i < |s.sends| ==> SendFits(s, i))
    && (forall i :: i in s.buffers ==> BufferFits(s, i))
    && (forall k :: k in s.pending ==> PendingFits(s, k))
    && ServingFits(s)
    && (forall i: SendId, j: SendId, n: nat :: Has(s, i, n) && Has(s, j, n) ==> i == j)
  }

  lemma RegisterKeeps(s: State, fields: Elements)
    requires Invariant(s)
    ensures Invariant(DoRegister(s, fields))
  {
    var s' := DoRegister(s, fields);
    var id := |s.sends|;
    assert forall i: SendId, n: nat :: Has(s', i, n) <==> Has(s, i, n);
    forall i: SendId | i < |s'.sends| ensures SendFits(s', i) {
      assert i < id ==> SendFits(s, i);
    }
    forall i | i in s'.buffers ensures BufferFits(s', i) {
      assert BufferFits(s, i);
    }
    forall k | k in s'.pending ensures PendingFits(s', k) {
      assert k in s.pending ==> PendingFits(s, k);
    }
  }

  lemma ReadKeeps(s: State, mti: string, fields: Elements)
    requires Invariant(s)
    ensures Invariant(DoRead(s, mti, fields))
  {
    var s' := DoRead(s, mti, fields);
    assert forall i: SendId, n: nat :: Has(s', i, n) <==> Has(s, i, n);
    forall i: SendId | i < |s'.sends| ensures SendFits(s', i) {
      assert SendFits(s, i);
    }
    forall i | i in s'.buffers ensures BufferFits(s', i) {
      assert BufferFits(s, i);
    }
    forall k | k in s'.pending ensures PendingFits(s', k) {
      assert PendingFits(s, k);
    }
    forall i: SendId ensures !Has(s, i, s.frames) {
      assert i in s.buffers ==> BufferFits(s, i);
      assert i < |s.sends| ==> SendFits(s, i);
    }
  }

  lemma PutKeeps(s: State)
    requires Invariant(s)
    ensures Invariant(DoPut(s))
  {
    var s' := DoPut(s);
    if s.serving.Some? && s.serving.value.1 !in s.buffers {
      var (frame, to) := s.serving.value;
      assert forall i: SendId, n: nat :: Has(s', i, n) <==> Has(s, i, n) || (i == to && n == frame.id);
      forall i: SendId | i < |s'.sends| ensures SendFits(s', i) {
        assert SendFits(s, i);
      }
      forall i | i in s'.buffers ensures BufferFits(s', i) {
        assert i in s.buffers ==> BufferFits(s, i);
      }
      forall k | k in s'.pending ensures PendingFits(s', k) {
        assert PendingFits(s, k);
      }
    }
  }

  /** One Send's phase moved; what it has, it had. */
  lemma MovedKeeps(s: State, s': State, i: SendId)
    requires Invariant(s) && i < |s.sends| && s'.frames == s.frames && s'.serving == s.serving
    requires |s'.sends| == |s.sends| && s'.sends == s.sends[i := s.sends[i].(phase := s'.sends[i].phase)]
    requires s'.buffers.Keys <= s.buffers.Keys && forall j :: j in s'.buffers ==> s'.buffers[j] == s.buffers[j]
    requires HasResult(s'.sends[i]) ==> Answers(s'.sends[i].phase.result.value, s'.sends[i]) && s'.sends[i].phase.result.value.id < s.frames
    requires forall j: SendId, n: nat :: Has(s', j, n) ==> Has(s, j, n)
    requires forall k :: k in s'.pending ==> PendingFits(s', k)
    ensures Invariant(s')
  {
    forall j: SendId | j < |s'.sends| ensures SendFits(s', j) {
      assert SendFits(s, j);
    }
    forall j | j in s'.buffers ensures BufferFits(s', j) {
      assert BufferFits(s, j);
    }
  }

  lemma ReceiveKeeps(s: State, i: SendId)
    requires Invariant(s)
    ensures Invariant(DoReceive(s, i)) && Invariant(DoGiveUp(s, i))
  {
    forall k | k in s.pending ensures PendingFits(DoReceive(s, i), k) && PendingFits(DoGiveUp(s, i), k) {
      assert PendingFits(s, k);
    }
    if IsAt(s, i, Waiting) {
      MovedKeeps(s, DoGiveUp(s, i), i);
      if i in s.buffers {
        assert BufferFits(s, i);
        MovedKeeps(s, DoReceive(s, i), i);
      }
    }
  }

  lemma UnregisterKeeps(s: State, i: SendId)
    requires Invariant(s)
    ensures Invariant(DoUnregister(s, i))
  {
    if i < |s.sends| && s.sends[i].phase.Leaving? {
      var s' := DoUnregister(s, i);
      assert SendFits(s, i);
      forall k | k in s'.pending ensures PendingFits(s', k) {
        assert PendingFits(s, k);
      }
      MovedKeeps(s, s', i);
    }
  }

  lemma StepKeeps(s: State, step: Step)
    requires Invariant(s)
    ensures Invariant(Apply(s, step))
  {
    match step
    case Register(fields) => RegisterKeeps(s, fields);
    case Read(mti, fields) => ReadKeeps(s, mti, fields);
    case Put => PutKeeps(s);
    case Receive(i) => ReceiveKeeps(s, i);
    case GiveUp(i) => ReceiveKeeps(s, i);
    case Unregister(i) => UnregisterKeeps(s, i);
  }

  lemma {:induction false} AlwaysAfter(s: State, steps: seq<Step>)
    requires Invariant(s)
    ensures Invariant(After(s, steps))
    decreases |steps|
  {
    if steps != [] {
      StepKeeps(s, steps[0]);
      AlwaysAfter(Apply(s, steps[0]), steps[1..]);
    }
  }

  // The promises.

  /** What Send returns answers its own request. */
  lemma ResponseIsOurs(steps: seq<Step>, i: SendId)
    requires i < |After(Init(), steps).sends| && HasResult(After(Init(), steps).sends[i])
    ensures var send := After(Init(), steps).sends[i];
            var response := send.phase.result.value.fields;
            Get(response, 11) == Get(send.fields, 11) && Get(response, 7) == Get(send.fields, 7)
  {
    AlwaysAfter(Init(), steps);
    assert SendFits(After(Init(), steps), i);
  }

  /** No frame is handed to two Sends. */
  lemma FrameGoesToOne(steps: seq<Step>, i: SendId, j: SendId)
    requires var sends := After(Init(), steps).sends;
             && i < |sends| && j < |sends| && HasResult(sends[i]) && HasResult(sends[j])
             && sends[i].phase.result == sends[j].phase.result
    ensures i == j
  {
    AlwaysAfter(Init(), steps);
    var s := After(Init(), steps);
    assert Has(s, i, s.sends[i].phase.result.value.id) && Has(s, j, s.sends[i].phase.result.value.id);
  }

  // Pending.

  function Registered(s: State): set<SendId> {
    set i: SendId | i < |s.sends| && InFlight(s, i)
  }

  /** Every registered Send is the one under its key. */
  ghost predicate Own(s: State, i: SendId) {
    i < |s.sends| && KeyOf(s.sends[i].fields) in s.pending && s.pending[KeyOf(s.sends[i].fields)] == i
  }

  /** No Send is registered under the key of one that still is. */
  predicate Fresh(s: State, step: Step) {
    step.Register? ==> forall i: SendId :: i in Registered(s) ==> KeyOf(s.sends[i].fields) != KeyOf(step.fields)
  }

  predicate AllFresh(s: State, steps: seq<Step>)
    decreases |steps|
  {
    steps == [] || (Fresh(s, steps[0]) && AllFresh(Apply(s, steps[0]), steps[1..]))
  }

  /** Pending counts a registered Send at most once, and all of them exactly when each owns its entry. */
  lemma PendingCounts(s: State)
    requires Invariant(s)
    ensures |s.pending| <= |Registered(s)|
    ensures |s.pending| == |Registered(s)| <==> AllOwn(s)
  {
    var owners := set i: SendId | i in Registered(s) && Own(s, i);
    OwnersCount(s.pending, owners, s);
    Subset(owners, Registered(s));
    assert AllOwn(s) ==> owners == Registered(s);
  }

  lemma Subset(a: set<SendId>, b: set<SendId>)
    requires a <= b
    ensures |a| <= |b| && (|a| == |b| ==> a == b)
  {
    var rest := b - a;
    assert b == a + rest;
    assert |b| == |a| + |rest|;
    assert |rest| == 0 ==> rest == {};
  }

  /** Keys and their owners pair off. */
  lemma OwnersCount(pending: map<MuxKey, SendId>, owners: set<SendId>, s: State)
    requires forall k :: k in pending ==> pending[k] in owners && pending[k] < |s.sends| && KeyOf(s.sends[pending[k]].fields) == k
    requires forall i :: i in owners ==> i < |s.sends| && KeyOf(s.sends[i].fields) in pending && pending[KeyOf(s.sends[i].fields)] == i
    ensures |pending| == |owners|
    decreases |pending|
  {
    if owners == {} {
      assert pending.Keys == {};
    } else {
      var i :| i in owners;
      var k := KeyOf(s.sends[i].fields);
      var fewer := pending - {k};
      assert |fewer| == |pending| - 1;
      OwnersCount(fewer, owners - {i}, s);
    }
  }

  lemma FreshStep(s: State, step: Step)
    requires Invariant(s) && Fresh(s, step) && AllOwn(s)
    ensures AllOwn(Apply(s, step))
  {
    match step
    case Register(fields) => RegisterOwns(s, fields);
    case Unregister(i) => UnregisterOwns(s, i);
    case Read(mti, fields) => ServeOwns(s, mti, fields);
    case Put => ServeOwns(s, "", map[]);
    case Receive(i) => AwaitOwns(s, i);
    case GiveUp(i) => AwaitOwns(s, i);
  }

  lemma ServeOwns(s: State, mti: string, fields: Elements)
    requires AllOwn(s)
    ensures AllOwn(DoRead(s, mti, fields)) && AllOwn(DoPut(s))
  {
    OthersOwn(s, DoRead(s, mti, fields));
    OthersOwn(s, DoPut(s));
  }

  lemma AwaitOwns(s: State, i: SendId)
    requires AllOwn(s)
    ensures AllOwn(DoReceive(s, i)) && AllOwn(DoGiveUp(s, i))
  {
    OthersOwn(s, DoReceive(s, i));
    OthersOwn(s, DoGiveUp(s, i));
  }

  /** Each registered Send is the one under its key. */
  ghost predicate AllOwn(s: State) {
    forall i :: i in Registered(s) ==> Own(s, i)
  }

  lemma RegisterOwns(s: State, fields: Elements)
    requires Fresh(s, Register(fields)) && AllOwn(s)
    ensures AllOwn(DoRegister(s, fields))
  {
    var s' := DoRegister(s, fields);
    forall i | i in Registered(s') ensures Own(s', i) {
      assert i < |s.sends| ==> i in Registered(s) && Own(s, i);
    }
  }

  lemma UnregisterOwns(s: State, k: SendId)
    requires AllOwn(s)
    ensures AllOwn(DoUnregister(s, k))
  {
    var s' := DoUnregister(s, k);
    assert k in Registered(s) ==> Own(s, k);
    forall i | i in Registered(s') ensures Own(s', i) {
      assert i in Registered(s) && Own(s, i);
    }
  }

  lemma OthersOwn(s: State, s': State)
    requires AllOwn(s) && s'.pending == s.pending && |s'.sends| == |s.sends|
    requires forall i: SendId :: i < |s.sends| ==> s'.sends[i].fields == s.sends[i].fields && (InFlight(s', i) ==> InFlight(s, i))
    ensures AllOwn(s')
  {
    forall i | i in Registered(s') ensures Own(s', i) {
      assert i in Registered(s) && Own(s, i);
    }
  }

  lemma {:induction false} FreshAfter(s: State, steps: seq<Step>)
    requires Invariant(s) && AllFresh(s, steps) && AllOwn(s)
    ensures AllOwn(After(s, steps))
    decreases |steps|
  {
    if steps != [] {
      StepKeeps(s, steps[0]);
      FreshStep(s, steps[0]);
      FreshAfter(Apply(s, steps[0]), steps[1..]);
    }
  }

  /** With distinct keys in flight, Pending is the number of registered Sends. */
  lemma PendingIsInFlight(steps: seq<Step>)
    requires AllFresh(Init(), steps)
    ensures |After(Init(), steps).pending| == |Registered(After(Init(), steps))|
  {
    AlwaysAfter(Init(), steps);
    FreshAfter(Init(), steps);
    PendingCounts(After(Init(), steps));
  }

  /** Without that, two Sends of one key count as one. */
  lemma SharedKeyUndercounts(fields: Elements)
    ensures var s := After(Init(), [Register(fields), Register(fields)]);
            |s.pending| == 1 && |Registered(s)| == 2
  {
    var s1 := DoRegister(Init(), fields);
    var s2 := DoRegister(s1, fields);
    assert After(Init(), [Register(fields), Register(fields)]) == s2 by {
      var steps := [Register(fields), Register(fields)];
      assert steps[1..] == [Register(fields)];
      assert After(s1, [Register(fields)]) == After(s2, []);
    }
    assert Registered(s2) == {0, 1};
    assert s2.pending == map[KeyOf(fields) := 1];
  }

  // When Serve stops serving.

  /** Serve holds a second response for a Send that has given up with the first still in its channel. */
  predicate Blocked(s: State) {
    s.serving.Some? && s.serving.value.1 in s.buffers && !IsAt(s, s.serving.value.1, Waiting)
  }

  lemma BlockedStep(s: State, step: Step)
    requires Invariant(s) && Blocked(s)
    ensures Blocked(Apply(s, step)) && Apply(s, step).serving == s.serving
  {
  }

  /** Nothing that happens on this connection gets Serve past that point. */
  lemma {:induction false} BlockedForEver(s: State, steps: seq<Step>)
    requires Invariant(s) && Blocked(s)
    ensures After(s, steps).serving == s.serving
    decreases |steps|
  {
    if steps != [] {
      BlockedStep(s, steps[0]);
      StepKeeps(s, steps[0]);
      BlockedForEver(Apply(s, steps[0]), steps[1..]);
    }
  }

  /** In every other state Serve gets to read the next frame: at once, or when the Send takes its response. */
  lemma UnblockedProceeds(s: State) returns (steps: seq<Step>)
    requires Invariant(s) && !Blocked(s)
    ensures After(s, steps).serving.None?
  {
    steps := [];
    if s.serving.Some? {
      var i := s.serving.value.1;
      if i in s.buffers {
        steps := [Receive(i), Put];
        assert steps[1..] == [Put] && [Put][1..] == [];
        assert After(DoReceive(s, i), [Put]) == DoPut(DoReceive(s, i));
      } else {
        steps := [Put];
        assert steps[1..] == [];
      }
    }
  }

  /** Two responses to one request, and a timeout between them and the Send, lead there. */
  lemma BlockedIsReached(fields: Elements)
    ensures Blocked(DoGiveUp(DoRead(DoPut(DoRead(DoRegister(Init(), fields), "0210", fields)), "0210", fields), 0))
  {
  }

  // The connection in place.

  /** Some steps lead from s to s'. */
  ghost predicate Leads(s: State, s': State) {
    exists steps :: After(s, steps) == s'
  }

  lemma LeadsHere(s: State)
    ensures Leads(s, s)
  {
    assert After(s, []) == s;
  }

  lemma {:induction false} AfterThen(s: State, steps: seq<Step>, step: Step)
    ensures After(s, steps + [step]) == Apply(After(s, steps), step)
    decreases |steps|
  {
    if steps == [] {
      assert [step][1..] == [];
    } else {
      AfterThen(Apply(s, steps[0]), steps[1..], step);
      assert (steps + [step])[1..] == steps[1..] + [step];
    }
  }

  lemma LeadsOn(s: State, s': State, step: Step)
    requires Leads(s, s')
    ensures Leads(s, Apply(s', step))
  {
    var steps :| After(s, steps) == s';
    AfterThen(s, steps, step);
  }

  datatype Inbound = Inbound(mti: string, fields: Elements)

  predicate Matching(frame: Inbound, fields: Elements) {
    KeyOf(frame.fields) == KeyOf(fields)
  }

  /** The response is the first frame of the request's key. */
  ghost predicate IsFirst(inbound: seq<Inbound>, response: Elements, request: Elements) {
    exists k :: 0 <= k < |inbound| && response == inbound[k].fields && Matching(inbound[k], request)
                && forall j :: 0 <= j < k ==> !Matching(inbound[j], request)
  }

  class Connection {
    var sends: seq<Send>
    var pending: map<MuxKey, SendId>
    var buffers: map<SendId, Frame>
    var serving: Option<(Frame, SendId)>
    var frames: nat
    var late: seq<Frame>

    ghost function Contents(): State
      reads this
    {
      State(sends, pending, buffers, serving, frames, late)
    }

    constructor ()
      ensures Contents() == Init()
    {
      sends, pending, buffers, serving, frames, late := [], map[], map[], None, 0, [];
    }

    /** Send's first critical section. */
    method Enter(fields: Elements) returns (i: SendId)
      modifies this
      ensures i == old(|sends|) && Contents() == DoRegister(old(Contents()), fields)
    {
      i := |sends|;
      sends := sends + [Send(fields, Waiting)];
      pending := pending[KeyOf(fields) := i];
    }

    /** Send's deferred delete. */
    method Leave(i: SendId)
      requires i < |sends| && sends[i].phase.Leaving?
      modifies this
      ensures Contents() == DoUnregister(old(Contents()), i)
    {
      pending := pending - {KeyOf(sends[i].fields)};
      sends := sends[i := sends[i].(phase := Returned(sends[i].phase.result))];
    }

    /** Send's select: a response that is there, or the context's end. */
    method Await(i: SendId) returns (response: Option<Frame>)
      requires IsAt(Contents(), i, Waiting)
      modifies this
      ensures response == if i in old(buffers) then Some(old(buffers)[i]) else None
      ensures Contents() == if i in old(buffers) then DoReceive(old(Contents()), i) else DoGiveUp(old(Contents()), i)
    {
      response := None;
      if i in buffers {
        response := Some(buffers[i]);
        buffers := buffers - {i};
      }
      sends := sends[i := sends[i].(phase := Leaving(response))];
    }

    /** One turn of Serve's loop up to the channel. */
    method Read(frame: Inbound)
      requires serving.None?
      modifies this
      ensures Contents() == DoRead(old(Contents()), frame.mti, frame.fields)
    {
      var f := Frame(frames, frame.mti, frame.fields);
      frames := frames + 1;
      if KeyOf(frame.fields) in pending {
        serving := Some((f, pending[KeyOf(frame.fields)]));
      } else {
        late := late + [f];
      }
    }

    /** The channel send; done is false while the channel is full. */
    method Put() returns (done: bool)
      requires serving.Some?
      modifies this
      ensures Contents() == DoPut(old(Contents())) && (done <==> serving.None?)
    {
      done := serving.value.1 !in buffers;
      if done {
        buffers := buffers[serving.value.1 := serving.value.0];
        serving := None;
      }
    }

    /**
     Serve over the frames that arrive while Send i and any others wait; it stops where it blocks. The
     channel of i gets the first frame read of its key.
     */
    method Serve(inbound: seq<Inbound>, i: SendId, ghost start: State) returns (read: nat)
      requires Leads(start, Contents()) && IsAt(Contents(), i, Waiting) && serving.None? && i !in buffers
      requires forall k :: k in pending && pending[k] == i <==> k == KeyOf(sends[i].fields)
      modifies this
      ensures Leads(start, Contents()) && IsAt(Contents(), i, Waiting) && sends == old(sends) && pending == old(pending)
      ensures read <= |inbound| && (serving.None? ==> read == |inbound|)
      ensures i in buffers <==> exists k :: 0 <= k < read && Matching(inbound[k], sends[i].fields)
      ensures i in buffers ==> IsFirst(inbound[..read], buffers[i].fields, sends[i].fields)
    {
      read := 0;
      ghost var first := 0;
      while read < |inbound| && serving.None?
        invariant read <= |inbound| && Leads(start, Contents()) && IsAt(Contents(), i, Waiting) && sends == old(sends)
        invariant pending == old(pending)
        invariant i in buffers <==> exists k :: 0 <= k < read && Matching(inbound[k], sends[i].fields)
        invariant i in buffers ==>
                    && 0 <= first < read && buffers[i].fields == inbound[first].fields && Matching(inbound[first], sends[i].fields)
                    && forall j :: 0 <= j < first ==> !Matching(inbound[j], sends[i].fields)
      {
        ghost var had := i in buffers;
        ServeOne(inbound[read], start);
        if !had {
          first := read;
        }
        read := read + 1;
      }
      if i in buffers {
        assert inbound[..read][first] == inbound[first];
        assert forall j :: 0 <= j < first ==> inbound[..read][j] == inbound[j];
      }
    }

    /** One frame: looked up, and put in its channel if that is free. */
    method ServeOne(frame: Inbound, ghost start: State)
      requires Leads(start, Contents()) && serving.None?
      modifies this
      ensures Leads(start, Contents()) && sends == old(sends) && pending == old(pending)
      ensures forall i :: i in old(buffers) ==> i in buffers && buffers[i] == old(buffers)[i]
      ensures forall i :: i in buffers && i !in old(buffers) ==>
                KeyOf(frame.fields) in pending && pending[KeyOf(frame.fields)] == i && buffers[i].fields == frame.fields
      ensures KeyOf(frame.fields) in pending ==> pending[KeyOf(frame.fields)] in buffers
    {
      LeadsOn(start, Contents(), Step.Read(frame.mti, frame.fields));
      Read(frame);
      if serving.Some? {
        LeadsOn(start, Contents(), Step.Put);
        var done := Put();
      }
    }

    /**
     Send while others wait on the same connection, none of them under its key: what it returns is the
     first frame of its key that Serve gets to, and the whole is a run.
     */
    method Exchange(fields: Elements, inbound: seq<Inbound>) returns (response: Option<Frame>, read: nat)
      requires KeyOf(fields) !in pending && serving.None? && |sends| !in buffers && forall k :: k in pending ==> pending[k] < |sends|
      modifies this
      ensures Leads(old(Contents()), Contents()) && pending.Keys == old(pending).Keys && forall k :: k in pending ==> pending[k] == old(pending)[k]
      ensures read <= |inbound| && (serving.None? ==> read == |inbound|)
      ensures response.Some? <==> exists k :: 0 <= k < read && Matching(inbound[k], fields)
      ensures response.Some? ==> IsFirst(inbound[..read], response.value.fields, fields)
    {
      ghost var start := Contents();
      LeadsHere(start);
      LeadsOn(start, Contents(), Register(fields));
      var i := Enter(fields);
      read := Serve(inbound, i, start);
      response := Finish(i, start);
    }

    /** The end of Send: the response or the context's end, then the deferred delete. */
    method Finish(i: SendId, ghost start: State) returns (response: Option<Frame>)
      requires Leads(start, Contents()) && IsAt(Contents(), i, Waiting)
      modifies this
      ensures Leads(start, Contents()) && pending == old(pending) - {KeyOf(old(sends)[i].fields)} && serving == old(serving)
      ensures response == if i in old(buffers) then Some(old(buffers)[i]) else None
    {
      LeadsOn(start, Contents(), if i in buffers then Receive(i) else GiveUp(i));
      response := Await(i);
      LeadsOn(start, Contents(), Unregister(i));
      Leave(i);
    }
  }
}

/**
 What the other processes do while one of them waits: any steps but its own, applied to the tables
 between two of its statements.
 */
module Interleaving {
  import opened Store
  import opened Gateway
  import opened GatewayProofs
  import opened GatewayTheorems
  import opened Tables

  /** The steps of everybody else before each statement of a process. */
  type World = nat -> seq<Step>

  ghost predicate Silent(w: World) {
    forall n: nat :: w(n) == []
  }

  /** A process: the request of a row, a cancellation, the sweeper, or the worker. */
  datatype Process = OfRow(id: TranId) | OfCancel | OfSweeper | OfSaf

  /** Not a step of this process, nor a crash, which would end it. */
  predicate Foreign(step: Step, p: Process) {
    match step
    case OfRequest(r) => p.OfRow? ==> !Owns(r, p.id)
    case OfSweep(_) => !p.OfSweeper?
    case OfWorker(_) => !p.OfSaf?
    case Crash => false
  }

  predicate Owns(r: RequestStep, id: TranId) {
    match r
    case Attach(k, _) => k == id
    case MarkSent(k, _) => k == id
    case History(k, _) => k == id
    case Transmit(k, _) => k == id
    case Receive(k, _) => k == id
    case Record(k, _) => k == id
    case Settle(k, _) => k == id
    case Release(k) => k == id
    case _ => false
  }

  function Others(steps: seq<Step>, p: Process): seq<Step> {
    if steps == [] then []
    else (if Foreign(steps[0], p) then [steps[0]] else []) + Others(steps[1..], p)
  }

  /** The request is where it was. */
  ghost predicate StageKept(s: State, s': State, id: TranId) {
    (id in s.requests <==> id in s'.requests) && (id in s.requests ==> s'.requests[id] == s.requests[id])
  }

  lemma InsertsLeave(s: State, step: RequestStep, id: TranId)
    requires id < |s.db.tran| && (step.Insert? || step.InsertClaim? || step.LinkDown?)
    ensures StageKept(s, ApplyRequest(s, step), id)
  {
  }

  lemma LateLeave(s: State, step: RequestStep, id: TranId)
    requires !Owns(step, id) && (step.Record? || step.Settle? || step.Release?)
    ensures StageKept(s, ApplyRequest(s, step), id)
  {
  }

  lemma EarlyLeave(s: State, step: RequestStep, id: TranId)
    requires !Owns(step, id) && !step.Insert? && !step.InsertClaim? && !step.LinkDown?
    requires !step.Record? && !step.Settle? && !step.Release?
    ensures StageKept(s, ApplyRequest(s, step), id)
  {
  }

  lemma StepLeaves(s: State, step: Step, id: TranId)
    requires id < |s.db.tran| && Foreign(step, OfRow(id))
    ensures StageKept(s, Apply(s, step), id)
  {
    match step
    case OfRequest(r) =>
      if r.Insert? || r.InsertClaim? || r.LinkDown? {
        InsertsLeave(s, r, id);
      } else if r.Record? || r.Settle? || r.Release? {
        LateLeave(s, r, id);
      } else {
        EarlyLeave(s, r, id);
      }
    case OfSweep(w) =>
    case OfWorker(d) =>
  }

  /** A row and its request, as the request finds them again. */
  ghost predicate Unmoved(s: State, s': State, id: TranId)
    requires id < |s.db.tran|
  {
    id < |s'.db.tran| && s'.db.tran[id].req == s.db.tran[id].req && StageKept(s, s', id)
  }

  lemma OthersStep(s: State, steps: seq<Step>, p: Process)
    requires steps != []
    ensures After(s, Others(steps, p)) ==
            if Foreign(steps[0], p) then After(Apply(s, steps[0]), Others(steps[1..], p)) else After(s, Others(steps[1..], p))
  {
    var rest := Others(steps[1..], p);
    if Foreign(steps[0], p) {
      assert ([steps[0]] + rest)[1..] == rest;
    } else {
      assert [] + rest == rest;
    }
  }

  lemma {:induction false} OthersLeave(s: State, steps: seq<Step>, id: TranId)
    requires id < |s.db.tran|
    ensures Unmoved(s, After(s, Others(steps, OfRow(id))), id)
    decreases |steps|
  {
    if steps != [] {
      OthersStep(s, steps, OfRow(id));
      if Foreign(steps[0], OfRow(id)) {
        StepLeaves(s, steps[0], id);
        StepWrites(s, steps[0]);
        OthersLeave(Apply(s, steps[0]), steps[1..], id);
      } else {
        OthersLeave(s, steps[1..], id);
      }
    }
  }

  /** The worker's own place, and that its rows stay as it claimed them, follow from OnlyAppends. */
  lemma {:induction false} OthersAppend(s: State, steps: seq<Step>)
    ensures OnlyAppends(s, After(s, Others(steps, OfSaf))) && Writes(s.db, After(s, Others(steps, OfSaf)).db)
    decreases |steps|
  {
    if steps != [] {
      OthersStep(s, steps, OfSaf);
      if Foreign(steps[0], OfSaf) {
        var next := Apply(s, steps[0]);
        match steps[0] {
          case OfRequest(r) => RequestOnlyAppends(s, r);
          case OfSweep(w) => SweepOnlyAppends(s, w);
        }
        StepWrites(s, steps[0]);
        OthersAppend(next, steps[1..]);
        AppendsThen(s, next, After(s, Others(steps, OfSaf)));
      } else {
        OthersAppend(s, steps[1..]);
      }
    }
  }

  lemma AppendsThen(a: State, b: State, c: State)
    requires OnlyAppends(a, b) && OnlyAppends(b, c)
    ensures OnlyAppends(a, c)
  {
  }

  /** The sweeper's tasks are its own, and rows keep what was written in them. */
  lemma StepKeepsTasks(s: State, step: Step)
    requires Foreign(step, OfSweeper)
    ensures Apply(s, step).tasks == s.tasks
  {
  }

  ghost predicate TasksKept(s: State, s': State) {
    s'.tasks == s.tasks && Writes(s.db, s'.db)
  }

  lemma {:induction false} OthersKeepTasks(s: State, steps: seq<Step>)
    ensures TasksKept(s, After(s, Others(steps, OfSweeper)))
    decreases |steps|
  {
    if steps != [] {
      OthersStep(s, steps, OfSweeper);
      if Foreign(steps[0], OfSweeper) {
        StepKeepsTasks(s, steps[0]);
        StepWrites(s, steps[0]);
        OthersKeepTasks(Apply(s, steps[0]), steps[1..]);
      } else {
        OthersKeepTasks(s, steps[1..]);
      }
    }
  }

  /** The others take their turn, on the tables and in the state that stands for everything else. */
  method Meanwhile(t: Database, steps: seq<Step>, p: Process, ghost start: State, s: State) returns (s': State)
    requires Leads(start, s) && t.Contents() == s.db
    modifies t
    ensures s' == After(s, Others(steps, p)) && Leads(start, s') && t.Contents() == s'.db
    ensures steps == [] ==> s' == s
  {
    s' := After(s, Others(steps, p));
    t.tran, t.saf := s'.db.tran, s'.db.saf;
    LeadsAfter(start, s, Others(steps, p));
  }
}

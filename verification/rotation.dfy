/**
 Key rotation: GENERATE, SEND_0800_161, PARTNER_CONFIRM and ACTIVATE over key_store and key_rotation,
 with a statement lost or a crash at any point, and the recovery a restart runs.
 */
module Rotation {
  import opened Store

  type KeyId = nat
  type RotationId = nat

  datatype KeyStatus = Unused | Active | Retired

  /** A key_store row; Unused is the status PENDING, activated is "activated_at is set". */
  datatype KeyRow = KeyRow(keyType: string, owner: string, status: KeyStatus, activated: bool)

  datatype StepName = Generate | Send0800161 | PartnerConfirm | ActivateKey

  datatype StepStatus = Todo | Done | Failed

  datatype StepRow = StepRow(name: StepName, status: StepStatus)

  datatype RotationStatus = Running | Completed | Broken

  datatype RotationRow = RotationRow(keyType: string, status: RotationStatus, steps: seq<StepRow>, newKey: Option<KeyId>)

  const STEP_ORDER := [Generate, Send0800161, PartnerConfirm, ActivateKey]
  const RC_OUTCOME_UNKNOWN := "96"

  // Statements on key_store.

  predicate SameSlot(a: KeyRow, b: KeyRow) {
    a.keyType == b.keyType && a.owner == b.owner
  }

  predicate HasActive(keys: seq<KeyRow>, keyType: string, owner: string) {
    exists i :: 0 <= i < |keys| && keys[i].status == Active && keys[i].keyType == keyType && keys[i].owner == owner
  }

  function EnsureActive(keys: seq<KeyRow>, keyType: string): seq<KeyRow> {
    if HasActive(keys, keyType, "") then keys else keys + [KeyRow(keyType, "", Active, true)]
  }

  /** Activate: id becomes the ACTIVE key of its slot; every other ACTIVE or PENDING key there retires. */
  function Activated(keys: seq<KeyRow>, id: KeyId): seq<KeyRow>
    requires id < |keys|
  {
    seq(|keys|, i requires 0 <= i < |keys| =>
      if i == id then keys[i].(status := Active, activated := true)
      else if SameSlot(keys[i], keys[id]) then keys[i].(status := Retired)
      else keys[i])
  }

  function RetirePending(keys: seq<KeyRow>, id: KeyId): seq<KeyRow>
    requires id < |keys|
  {
    if keys[id].status == Unused then keys[id := keys[id].(status := Retired)] else keys
  }

  // Statements on key_rotation.

  function NewRotation(keyType: string): RotationRow {
    RotationRow(keyType, Running, seq(|STEP_ORDER|, i requires 0 <= i < |STEP_ORDER| => StepRow(STEP_ORDER[i], Todo)), None)
  }

  function WithStep(steps: seq<StepRow>, name: StepName, status: StepStatus): seq<StepRow> {
    seq(|steps|, i requires 0 <= i < |steps| => if steps[i].name == name then steps[i].(status := status) else steps[i])
  }

  predicate StepDone(steps: seq<StepRow>, name: StepName) {
    exists i :: 0 <= i < |steps| && steps[i] == StepRow(name, Done)
  }

  // The runner.

  datatype Pc =
    | Generating
    | Linking(key: KeyId)
    | Generated(key: KeyId)
    | Sending(key: KeyId, attempt: nat)
    | Waiting(key: KeyId, attempt: nat)
    | Heard(key: KeyId, rc: string)
    | Confirming(key: KeyId, rc: string)
    | Activating(key: KeyId)
    | Activation(key: KeyId)
    | Completing(key: KeyId)
    | Retiring(key: KeyId, step: StepName)   // failStep with a key to retire
    | Marking(step: StepName)                // failStep: the step, then the rotation

  datatype Runner = Runner(rotation: RotationId, keyType: string, owner: string, pc: Pc)

  datatype Answer = Answer(key: KeyId, rc: string)

  datatype State = State(
    keys: seq<KeyRow>,
    rotations: seq<RotationRow>,
    serving: bool,
    runner: Option<Runner>,
    // Observations.
    generated: set<KeyId>,
    sent: multiset<KeyId>,    // every 0800/161 that went out
    answers: set<Answer>)

  /** Lost: the statement did not commit and failed. Unsure: it, or a part of it, committed and still failed. */
  datatype Fault = Fine | Lost | Unsure

  datatype Step =
    | Seed(keyType: string)
    | Start(keyType: string, owner: string, heard: bool)
    | Statement(fault: Fault)
    | Transmit(linked: bool)
    | Hear(rc: string)
    | GiveUp
    | MarkFailed(step: bool, written: bool)
    | Crash
    | Recover(id: RotationId, step: bool, written: bool)
    | Serve

  function Init(): State {
    State([], [], false, None, {}, multiset{}, {})
  }

  function Go(s: State, pc: Pc): State
    requires s.runner.Some?
  {
    s.(runner := Some(s.runner.value.(pc := pc)))
  }

  predicate AtRotation(s: State) {
    s.runner.Some? && s.runner.value.rotation < |s.rotations|
  }

  function SetRotation(s: State, row: RotationRow): State
    requires AtRotation(s)
  {
    s.(rotations := s.rotations[s.runner.value.rotation := row])
  }

  function Current(s: State): RotationRow
    requires AtRotation(s)
  {
    s.rotations[s.runner.value.rotation]
  }

  /** completeStep: the step is marked DONE, then audited. */
  function CompleteStep(s: State, name: StepName, fault: Fault, next: Pc, failed: Pc): State
    requires AtRotation(s)
  {
    var marked := SetRotation(s, Current(s).(steps := WithStep(Current(s).steps, name, Done)));
    match fault
    case Fine => Go(marked, next)
    case Lost => Go(s, failed)
    case Unsure => Go(marked, failed)
  }

  function DoInsertKey(s: State, fault: Fault): State
    requires AtRotation(s)
  {
    var r := s.runner.value;
    var inserted := s.(keys := s.keys + [KeyRow(r.keyType, r.owner, Unused, false)], generated := s.generated + {|s.keys|});
    match fault
    case Fine => Go(inserted, Linking(|s.keys|))
    case Lost => Go(s, Marking(Generate))
    case Unsure => Go(inserted, Marking(Generate))
  }

  function DoLink(s: State, key: KeyId, fault: Fault): State
    requires AtRotation(s)
  {
    var linked := SetRotation(s, Current(s).(newKey := Some(key)));
    match fault
    case Fine => Go(linked, Generated(key))
    case Lost => Go(s, Retiring(key, Generate))
    case Unsure => Go(linked, Retiring(key, Generate))
  }

  function DoConfirm(s: State, key: KeyId, rc: string, fault: Fault): State
    requires AtRotation(s)
  {
    if rc != RC_APPROVED then Go(s, Retiring(key, PartnerConfirm))
    else CompleteStep(s, PartnerConfirm, fault, Activating(key), Marking(PartnerConfirm))
  }

  function DoActivate(s: State, key: KeyId, fault: Fault): State
    requires AtRotation(s)
  {
    if key >= |s.keys| then s
    else
      var activated := s.(keys := Activated(s.keys, key));
      match fault
      case Fine => Go(activated, Activation(key))
      case Lost => Go(s, Marking(ActivateKey))
      case Unsure => Go(activated, Marking(ActivateKey))
  }

  function DoComplete(s: State, fault: Fault): State
    requires AtRotation(s)
  {
    var completed := SetRotation(s, Current(s).(status := Completed));
    if fault == Lost then s.(runner := None) else completed.(runner := None)
  }

  /** failStep goes on whether or not the key was retired. */
  function DoRetire(s: State, key: KeyId, step: StepName, fault: Fault): State
    requires AtRotation(s)
  {
    if key >= |s.keys| then s
    else Go(if fault == Lost then s else s.(keys := RetirePending(s.keys, key)), Marking(step))
  }

  /** The statement the runner is at. */
  function DoStatement(s: State, fault: Fault): State {
    if !AtRotation(s) then s
    else match s.runner.value.pc
      case Generating => DoInsertKey(s, fault)
      case Linking(key) => DoLink(s, key, fault)
      case Generated(key) => CompleteStep(s, Generate, fault, Sending(key, 0), Retiring(key, Generate))
      case Heard(key, rc) => CompleteStep(s, Send0800161, fault, Confirming(key, rc), Marking(Send0800161))
      case Confirming(key, rc) => DoConfirm(s, key, rc, fault)
      case Activating(key) => DoActivate(s, key, fault)
      case Activation(key) => CompleteStep(s, ActivateKey, fault, Completing(key), Marking(ActivateKey))
      case Completing(_) => DoComplete(s, fault)
      case Retiring(key, step) => DoRetire(s, key, step, fault)
      case _ => s
  }

  /** One attempt of runSend0800161; without a link nothing is sent, and the attempt is used up. */
  function DoTransmit(s: State, linked: bool): State {
    if s.runner.None? || !s.runner.value.pc.Sending? then s
    else
      var pc := s.runner.value.pc;
      if linked then Go(s.(sent := s.sent + multiset{pc.key}), Waiting(pc.key, pc.attempt)) else Go(s, Sending(pc.key, pc.attempt + 1))
  }

  /** An 0810; RC 96 proves nothing, so the same key is sent again. */
  function DoHear(s: State, rc: string): State {
    if s.runner.None? || !s.runner.value.pc.Waiting? then s
    else
      var pc := s.runner.value.pc;
      var heard := s.(answers := s.answers + {Answer(pc.key, rc)});
      Go(heard, if rc == RC_OUTCOME_UNKNOWN then Sending(pc.key, pc.attempt + 1) else Heard(pc.key, rc))
  }

  /** No 0810: the next attempt, or none is left, or a shutdown cancelled the rest. */
  function DoGiveUp(s: State): State {
    if s.runner.None? then s
    else match s.runner.value.pc
      case Waiting(key, attempt) => Go(s, Sending(key, attempt + 1))
      case Sending(_, _) => Go(s, Marking(Send0800161))
      case _ => s
  }

  /** The end of failStep: either write may be lost, and is not retried. */
  function Broke(rotation: RotationRow, name: StepName, step: bool, status: bool): RotationRow {
    var marked := if step then rotation.(steps := WithStep(rotation.steps, name, Failed)) else rotation;
    if status then marked.(status := Broken) else marked
  }

  function DoMarkFailed(s: State, step: bool, rotation: bool): State {
    if !AtRotation(s) || !s.runner.value.pc.Marking? then s
    else SetRotation(s, Broke(Current(s), s.runner.value.pc.step, step, rotation)).(runner := None)
  }

  /** Start: one rotation at a time, and only while serving. */
  function DoStart(s: State, keyType: string, owner: string, heard: bool): State {
    if !s.serving || s.runner.Some? then s
    else
      s.(rotations := s.rotations + [NewRotation(keyType)],
         runner := if heard then Some(Runner(|s.rotations|, keyType, owner, Generating)) else None)
  }

  /** firstPending: the step the rotation was on; ACTIVATE if every step is marked. */
  function FirstPending(steps: seq<StepRow>): StepName {
    if steps == [] then ActivateKey else if steps[0].status == Todo then steps[0].name else FirstPending(steps[1..])
  }

  /** recoverOne. */
  function Recovered(row: RotationRow, step: bool, written: bool): RotationRow {
    if StepDone(row.steps, ActivateKey) && row.newKey.Some?
    then if written then row.(status := Completed) else row
    else Broke(row, FirstPending(row.steps), step, written)
  }

  function DoRecover(s: State, id: RotationId, step: bool, written: bool): State {
    if s.serving || id >= |s.rotations| || s.rotations[id].status != Running then s
    else s.(rotations := s.rotations[id := Recovered(s.rotations[id], step, written)])
  }

  function Apply(s: State, step: Step): State {
    match step
    case Seed(keyType) => s.(keys := EnsureActive(s.keys, keyType))
    case Start(keyType, owner, heard) => DoStart(s, keyType, owner, heard)
    case Statement(fault) => DoStatement(s, fault)
    case Transmit(linked) => DoTransmit(s, linked)
    case Hear(rc) => DoHear(s, rc)
    case GiveUp => DoGiveUp(s)
    case MarkFailed(st, rotation) => DoMarkFailed(s, st, rotation)
    case Crash => s.(runner := None, serving := false)
    case Recover(id, st, written) => DoRecover(s, id, st, written)
    case Serve => s.(serving := true)
  }

  function After(s: State, steps: seq<Step>): State
    decreases |steps|
  {
    if steps == [] then s else After(Apply(s, steps[0]), steps[1..])
  }

  // The tables in place.

  class KeyStore {
    var keys: seq<KeyRow>

    constructor ()
      ensures keys == []
    {
      keys := [];
    }

    method Insert(keyType: string, owner: string) returns (id: KeyId)
      modifies this
      ensures id == old(|keys|) && keys == old(keys) + [KeyRow(keyType, owner, Unused, false)]
    {
      id := |keys|;
      keys := keys + [KeyRow(keyType, owner, Unused, false)];
    }

    /** UPDATE ... SET status = 'RETIRED' for the slot of row id, where the status is which, but for row keep. */
    method RetireSlot(id: KeyId, which: KeyStatus, keep: Option<KeyId>)
      requires id < |keys|
      modifies this
      ensures |keys| == old(|keys|)
      ensures forall i :: 0 <= i < |keys| ==>
                keys[i] == if SameSlot(old(keys)[i], old(keys)[id]) && old(keys)[i].status == which && Some(i) != keep
                           then old(keys)[i].(status := Retired) else old(keys)[i]
    {
      ghost var was := keys;
      var slot := keys[id];
      var n := 0;
      while n < |keys|
        invariant n <= |keys| == |was|
        invariant forall i :: n <= i < |keys| ==> keys[i] == was[i]
        invariant forall i :: 0 <= i < n ==>
                    keys[i] == if SameSlot(was[i], slot) && was[i].status == which && Some(i) != keep
                               then was[i].(status := Retired) else was[i]
      {
        if SameSlot(keys[n], slot) && keys[n].status == which && Some(n) != keep {
          keys := keys[n := keys[n].(status := Retired)];
        }
        n := n + 1;
      }
    }

    /** The insert-unless-active statement; the key belongs to no owner. */
    method EnsureActiveKey(keyType: string) returns (inserted: bool)
      modifies this
      ensures keys == EnsureActive(old(keys), keyType)
      ensures inserted <==> !HasActive(old(keys), keyType, "")
      ensures HasActive(keys, keyType, "") && |keys| == old(|keys|) + (if inserted then 1 else 0) && keys[..old(|keys|)] == old(keys)
    {
      inserted := true;
      var i := 0;
      while i < |keys| && inserted
        invariant i <= |keys|
        invariant inserted <==> forall k :: 0 <= k < i ==> keys[k].status != Active || keys[k].keyType != keyType || keys[k].owner != ""
      {
        inserted := keys[i].status != Active || keys[i].keyType != keyType || keys[i].owner != "";
        i := i + 1;
      }
      if inserted {
        keys := keys + [KeyRow(keyType, "", Active, true)];
        assert keys[|keys| - 1].status == Active;
      }
    }

    method Retire(id: KeyId)
      requires id < |keys|
      modifies this
      ensures keys == RetirePending(old(keys), id)
    {
      if keys[id].status == Unused {
        keys := keys[id := keys[id].(status := Retired)];
      }
    }

    /** The three statements of Activate come to one change of the slot. */
    method Activate(id: KeyId)
      requires id < |keys|
      modifies this
      ensures keys == Activated(old(keys), id)
    {
      RetireSlot(id, Active, None);
      keys := keys[id := keys[id].(status := Active, activated := true)];
      RetireSlot(id, Unused, Some(id));
    }
  }

  /** UpdateStep's loop over the steps read from the row. */
  method UpdateStep(steps: seq<StepRow>, name: StepName, status: StepStatus) returns (updated: seq<StepRow>)
    ensures updated == WithStep(steps, name, status)
    ensures status == Done && (exists i :: 0 <= i < |steps| && steps[i].name == name) ==> StepDone(updated, name)
  {
    updated := steps;
    var i := 0;
    while i < |updated|
      invariant i <= |updated| == |steps|
      invariant forall k :: i <= k < |steps| ==> updated[k] == steps[k]
      invariant forall k :: 0 <= k < i ==> updated[k] == if steps[k].name == name then steps[k].(status := status) else steps[k]
    {
      if updated[i].name == name {
        updated := updated[i := updated[i].(status := status)];
      }
      i := i + 1;
    }
    if k: nat :| k < |steps| && steps[k].name == name {
      assert updated[k] == StepRow(name, status);
    }
  }

  class RotationTable {
    var rotations: seq<RotationRow>

    constructor ()
      ensures rotations == []
    {
      rotations := [];
    }

    method Create(keyType: string) returns (id: RotationId)
      modifies this
      ensures id == old(|rotations|) && rotations == old(rotations) + [NewRotation(keyType)]
    {
      id := |rotations|;
      var steps := [];
      for i := 0 to |STEP_ORDER|
        invariant |steps| == i && forall k :: 0 <= k < i ==> steps[k] == StepRow(STEP_ORDER[k], Todo)
      {
        steps := steps + [StepRow(STEP_ORDER[i], Todo)];
      }
      assert steps == NewRotation(keyType).steps;
      rotations := rotations + [RotationRow(keyType, Running, steps, None)];
    }

    method SetNewKey(id: RotationId, key: KeyId)
      requires id < |rotations|
      modifies this
      ensures rotations == old(rotations)[id := old(rotations)[id].(newKey := Some(key))]
    {
      rotations := rotations[id := rotations[id].(newKey := Some(key))];
    }

    method MarkStep(id: RotationId, name: StepName, status: StepStatus)
      requires id < |rotations|
      modifies this
      ensures rotations == old(rotations)[id := old(rotations)[id].(steps := WithStep(old(rotations)[id].steps, name, status))]
    {
      var steps := UpdateStep(rotations[id].steps, name, status);
      rotations := rotations[id := rotations[id].(steps := steps)];
    }

    method SetRotationStatus(id: RotationId, status: RotationStatus)
      requires id < |rotations|
      modifies this
      ensures rotations == old(rotations)[id := old(rotations)[id].(status := status)]
    {
      rotations := rotations[id := rotations[id].(status := status)];
    }
  }
}

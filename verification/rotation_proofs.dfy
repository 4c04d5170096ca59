/**
 What every run of the rotation workflow keeps, crashes and recovery included.
 */
module RotationProofs {
  import opened Store
  import opened Rotation

  // Why a generated key may be retired.

  ghost predicate Declined(s: State, g: KeyId) {
    exists rc :: Answer(g, rc) in s.answers && rc != RC_APPROVED && rc != RC_OUTCOME_UNKNOWN
  }

  /** The issuer confirmed key k, it was activated, and it is of g's slot and newer. */
  ghost predicate Supersedes(s: State, k: KeyId, g: KeyId) {
    && g < k < |s.keys| && SameSlot(s.keys[k], s.keys[g])
    && s.keys[k].activated && Answer(k, RC_APPROVED) in s.answers
  }

  ghost predicate Explained(s: State, g: KeyId) {
    g !in s.sent || Declined(s, g) || exists k: KeyId :: Supersedes(s, k, g)
  }

  ghost predicate OneActive(keys: seq<KeyRow>) {
    && (forall i :: 0 <= i < |keys| && keys[i].status == Active ==> keys[i].activated)
    && (forall i, j :: 0 <= i < j < |keys| && keys[i].status == Active && keys[j].status == Active ==> !SameSlot(keys[i], keys[j]))
  }

  ghost predicate KeysFit(s: State) {
    && OneActive(s.keys)
    && (forall g :: g in s.generated ==> g < |s.keys|)
    && (forall g :: g in s.generated && s.keys[g].status == Retired ==> Explained(s, g))
  }

  /** ACTIVATE is DONE, or the rotation COMPLETED, only for a key that was activated. */
  ghost predicate RotationFits(s: State, row: RotationRow) {
    StepDone(row.steps, ActivateKey) || row.status == Completed ==>
      row.newKey.Some? && row.newKey.value < |s.keys| && s.keys[row.newKey.value].activated
  }

  ghost predicate RotationsFit(s: State) {
    forall r :: 0 <= r < |s.rotations| ==> RotationFits(s, s.rotations[r])
  }

  /** The rotation has not got to ACTIVATE. */
  predicate Early(row: RotationRow) {
    !StepDone(row.steps, ActivateKey) && row.status != Completed
  }

  /** The runner's key: the newest one generated, PENDING, of the runner's slot. */
  ghost predicate Fresh(s: State, key: KeyId)
    requires s.runner.Some?
  {
    && key in s.generated && key < |s.keys|
    && s.keys[key] == KeyRow(s.runner.value.keyType, s.runner.value.owner, Unused, false)
    && (forall g :: g in s.generated ==> g <= key)
  }

  ghost predicate Linked(s: State, key: KeyId)
    requires AtRotation(s)
  {
    Fresh(s, key) && Early(Current(s)) && Current(s).newKey == Some(key)
  }

  ghost predicate InUse(s: State, key: KeyId)
    requires AtRotation(s)
  {
    key < |s.keys| && s.keys[key].activated && Current(s).newKey == Some(key)
  }

  ghost predicate RunnerFits(s: State) {
    s.runner.Some? ==>
      && s.serving && AtRotation(s)
      && match s.runner.value.pc
         case Generating => Early(Current(s))
         case Linking(key) => Fresh(s, key) && Early(Current(s)) && key !in s.sent
         case Generated(key) => Linked(s, key) && key !in s.sent
         case Sending(key, _) => Linked(s, key)
         case Waiting(key, _) => Linked(s, key)
         case Heard(key, rc) => Linked(s, key) && Answer(key, rc) in s.answers && rc != RC_OUTCOME_UNKNOWN
         case Confirming(key, rc) => Linked(s, key) && Answer(key, rc) in s.answers && rc != RC_OUTCOME_UNKNOWN
         case Activating(key) => Linked(s, key) && Answer(key, RC_APPROVED) in s.answers
         case Activation(key) => InUse(s, key)
         case Completing(key) => InUse(s, key)
         case Retiring(key, _) => key < |s.keys| && (key !in s.sent || Declined(s, key))
         case Marking(_) => true
  }

  ghost predicate Invariant(s: State) {
    KeysFit(s) && RotationsFit(s) && RunnerFits(s) && forall g :: g in s.sent ==> g < |s.keys|
  }

  // Marking steps.

  lemma WithStepDone(steps: seq<StepRow>, name: StepName, status: StepStatus, asked: StepName)
    ensures StepDone(WithStep(steps, name, status), asked) ==> StepDone(steps, asked) || (name == asked && status == Done)
  {
    var after := WithStep(steps, name, status);
    if StepDone(after, asked) {
      var i :| 0 <= i < |after| && after[i] == StepRow(asked, Done);
      assert steps[i].name == asked;
      assert name != asked ==> steps[i] == StepRow(asked, Done);
    }
  }

  /** A rotation row moved; keys and observations did not. */
  lemma RowKeeps(s: State, s': State, r: RotationId, row: RotationRow)
    requires Invariant(s) && r < |s.rotations| && s'.rotations == s.rotations[r := row]
    requires s'.keys == s.keys && s'.generated == s.generated && s'.sent == s.sent && s'.answers == s.answers
    requires RotationFits(s, row) && RunnerFits(s')
    ensures Invariant(s')
  {
    forall k | 0 <= k < |s'.rotations| ensures RotationFits(s', s'.rotations[k]) {
      assert RotationFits(s, s.rotations[k]);
    }
    SameKeys(s, s');
  }

  lemma SameKeys(s: State, s': State)
    requires KeysFit(s) && s'.keys == s.keys && s'.generated == s.generated && s'.sent == s.sent && s.answers <= s'.answers
    ensures KeysFit(s')
  {
    forall g | g in s'.generated && s'.keys[g].status == Retired ensures Explained(s', g) {
      Explains(s, s', g);
    }
  }

  /** An explanation stays one. */
  lemma Explains(s: State, s': State, g: KeyId)
    requires g < |s.keys| && Explained(s, g) && (g in s'.sent ==> g in s.sent) && s.answers <= s'.answers
    requires |s.keys| <= |s'.keys|
    requires forall k :: 0 <= k < |s.keys| ==> SameSlot(s'.keys[k], s.keys[k]) && (s.keys[k].activated ==> s'.keys[k].activated)
    ensures Explained(s', g)
  {
    if g in s'.sent {
      if Declined(s, g) {
        var rc :| Answer(g, rc) in s.answers && rc != RC_APPROVED && rc != RC_OUTCOME_UNKNOWN;
        assert Answer(g, rc) in s'.answers;
      } else {
        var k: KeyId :| Supersedes(s, k, g);
        assert Supersedes(s', k, g);
      }
    }
  }

  lemma CompleteStepKeeps(s: State, name: StepName, fault: Fault, next: Pc, failed: Pc)
    requires Invariant(s) && AtRotation(s) && name != ActivateKey
    requires (next.Sending? || next.Confirming? || next.Activating?) && Linked(s, next.key)
    requires next.Confirming? ==> Answer(next.key, next.rc) in s.answers && next.rc != RC_OUTCOME_UNKNOWN
    requires next.Activating? ==> Answer(next.key, RC_APPROVED) in s.answers
    requires failed.Marking? || (failed.Retiring? && failed.key == next.key && next.key !in s.sent)
    ensures Invariant(CompleteStep(s, name, fault, next, failed))
  {
    var row := Current(s).(steps := WithStep(Current(s).steps, name, Done));
    WithStepDone(Current(s).steps, name, Done, ActivateKey);
    assert RotationFits(s, Current(s));
    var s' := CompleteStep(s, name, fault, next, failed);
    RowKeeps(s, s', s.runner.value.rotation, if fault == Lost then Current(s) else row);
  }

  lemma ActivationKeeps(s: State, fault: Fault)
    requires Invariant(s) && AtRotation(s) && s.runner.value.pc.Activation?
    ensures Invariant(DoStatement(s, fault))
  {
    var row := Current(s).(steps := WithStep(Current(s).steps, ActivateKey, Done));
    assert RotationFits(s, Current(s));
    RowKeeps(s, DoStatement(s, fault), s.runner.value.rotation, if fault == Lost then Current(s) else row);
  }

  lemma CompleteKeeps(s: State, fault: Fault)
    requires Invariant(s) && AtRotation(s) && s.runner.value.pc.Completing?
    ensures Invariant(DoComplete(s, fault))
  {
    var row := Current(s).(status := Completed);
    assert RotationFits(s, Current(s));
    RowKeeps(s, DoComplete(s, fault), s.runner.value.rotation, if fault == Lost then Current(s) else row);
  }

  lemma LinkKeeps(s: State, key: KeyId, fault: Fault)
    requires Invariant(s) && AtRotation(s) && s.runner.value.pc == Linking(key)
    ensures Invariant(DoLink(s, key, fault))
  {
    var row := Current(s).(newKey := Some(key));
    assert RotationFits(s, Current(s));
    RowKeeps(s, DoLink(s, key, fault), s.runner.value.rotation, if fault == Lost then Current(s) else row);
  }

  /** Only the runner's own place moved. */
  lemma GoKeeps(s: State, s': State)
    requires Invariant(s) && RunnerFits(s') && s'.rotations == s.rotations && s'.keys == s.keys
    requires s'.generated == s.generated && s'.sent == s.sent && s.answers <= s'.answers
    ensures Invariant(s')
  {
    SameKeys(s, s');
    forall k | 0 <= k < |s'.rotations| ensures RotationFits(s', s'.rotations[k]) {
      assert RotationFits(s, s.rotations[k]);
    }
  }

  // Keys.

  /** A key was added; nothing else about keys changed. */
  lemma AddedKeeps(s: State, s': State, row: KeyRow)
    requires Invariant(s) && s'.keys == s.keys + [row] && s'.rotations == s.rotations
    requires s'.sent == s.sent && s'.answers == s.answers && RunnerFits(s') && row.status != Retired
    requires s'.generated == s.generated || s'.generated == s.generated + {|s.keys|}
    requires OneActive(s'.keys)
    ensures Invariant(s')
  {
    forall g | g in s'.generated && s'.keys[g].status == Retired ensures Explained(s', g) {
      Explains(s, s', g);
    }
    forall k | 0 <= k < |s'.rotations| ensures RotationFits(s', s'.rotations[k]) {
      assert RotationFits(s, s.rotations[k]);
    }
  }

  lemma InsertKeyKeeps(s: State, fault: Fault)
    requires Invariant(s) && AtRotation(s) && s.runner.value.pc == Generating
    ensures Invariant(DoInsertKey(s, fault))
  {
    if fault == Lost {
      GoKeeps(s, DoInsertKey(s, fault));
    } else {
      var row := KeyRow(s.runner.value.keyType, s.runner.value.owner, Unused, false);
      AddedKeeps(s, DoInsertKey(s, fault), row);
    }
  }

  lemma SeedKeeps(s: State, keyType: string)
    requires Invariant(s)
    ensures Invariant(Apply(s, Seed(keyType)))
  {
    if !HasActive(s.keys, keyType, "") {
      AddedKeeps(s, Apply(s, Seed(keyType)), KeyRow(keyType, "", Active, true));
    }
  }

  lemma ActivatedOneActive(keys: seq<KeyRow>, id: KeyId)
    requires OneActive(keys) && id < |keys|
    ensures OneActive(Activated(keys, id))
  {
  }

  lemma ActivateKeeps(s: State, key: KeyId, fault: Fault)
    requires Invariant(s) && AtRotation(s) && s.runner.value.pc == Activating(key)
    ensures Invariant(DoActivate(s, key, fault))
  {
    var s' := DoActivate(s, key, fault);
    if fault == Lost {
      GoKeeps(s, s');
    } else {
      ActivatedOneActive(s.keys, key);
      forall g | g in s'.generated && s'.keys[g].status == Retired ensures Explained(s', g) {
        if s.keys[g].status == Retired {
          Explains(s, s', g);
        } else {
          assert Supersedes(s', key, g);
        }
      }
      forall k | 0 <= k < |s'.rotations| ensures RotationFits(s', s'.rotations[k]) {
        assert RotationFits(s, s.rotations[k]);
      }
    }
  }

  lemma RetireKeeps(s: State, key: KeyId, step: StepName, fault: Fault)
    requires Invariant(s) && AtRotation(s) && s.runner.value.pc == Retiring(key, step)
    ensures Invariant(DoRetire(s, key, step, fault))
  {
    var s' := DoRetire(s, key, step, fault);
    if fault == Lost {
      GoKeeps(s, s');
    } else {
      forall g | g in s'.generated && s'.keys[g].status == Retired ensures Explained(s', g) {
        if g == key && s.keys[g].status != Retired {
          assert Explained(s, g);
        }
        Explains(s, s', g);
      }
      forall k | 0 <= k < |s'.rotations| ensures RotationFits(s', s'.rotations[k]) {
        assert RotationFits(s, s.rotations[k]);
      }
    }
  }

  lemma StatementKeeps(s: State, fault: Fault)
    requires Invariant(s)
    ensures Invariant(DoStatement(s, fault))
  {
    if AtRotation(s) {
      match s.runner.value.pc
      case Generating => InsertKeyKeeps(s, fault);
      case Linking(key) => LinkKeeps(s, key, fault);
      case Generated(key) => CompleteStepKeeps(s, Generate, fault, Sending(key, 0), Retiring(key, Generate));
      case Heard(key, rc) => CompleteStepKeeps(s, Send0800161, fault, Confirming(key, rc), Marking(Send0800161));
      case Confirming(key, rc) => ConfirmKeeps(s, key, rc, fault);
      case Activating(key) => ActivateKeeps(s, key, fault);
      case Activation(_) => ActivationKeeps(s, fault);
      case Completing(_) => CompleteKeeps(s, fault);
      case Retiring(key, step) => RetireKeeps(s, key, step, fault);
      case _ =>
    }
  }

  lemma ConfirmKeeps(s: State, key: KeyId, rc: string, fault: Fault)
    requires Invariant(s) && AtRotation(s) && s.runner.value.pc == Confirming(key, rc)
    ensures Invariant(DoConfirm(s, key, rc, fault))
  {
    if rc != RC_APPROVED {
      assert Declined(s, key);
      GoKeeps(s, DoConfirm(s, key, rc, fault));
    } else {
      CompleteStepKeeps(s, PartnerConfirm, fault, Activating(key), Marking(PartnerConfirm));
    }
  }

  /** A send explains nothing away: only a PENDING key is sent. */
  lemma TransmitKeeps(s: State, linked: bool)
    requires Invariant(s)
    ensures Invariant(DoTransmit(s, linked))
  {
    var s' := DoTransmit(s, linked);
    forall g | g in s'.generated && s'.keys[g].status == Retired ensures Explained(s', g) {
      Explains(s, s', g);
    }
    forall k | 0 <= k < |s'.rotations| ensures RotationFits(s', s'.rotations[k]) {
      assert RotationFits(s, s.rotations[k]);
    }
  }

  lemma BrokeFits(s: State, row: RotationRow, name: StepName, step: bool, status: bool)
    requires RotationFits(s, row)
    ensures RotationFits(s, Broke(row, name, step, status))
  {
    WithStepDone(row.steps, name, Failed, ActivateKey);
  }

  lemma MarkFailedKeeps(s: State, step: bool, written: bool)
    requires Invariant(s)
    ensures Invariant(DoMarkFailed(s, step, written))
  {
    if AtRotation(s) && s.runner.value.pc.Marking? {
      assert RotationFits(s, Current(s));
      BrokeFits(s, Current(s), s.runner.value.pc.step, step, written);
      RowKeeps(s, DoMarkFailed(s, step, written), s.runner.value.rotation, Broke(Current(s), s.runner.value.pc.step, step, written));
    }
  }

  lemma RecoverKeeps(s: State, id: RotationId, step: bool, written: bool)
    requires Invariant(s)
    ensures Invariant(DoRecover(s, id, step, written))
  {
    if !s.serving && id < |s.rotations| && s.rotations[id].status == Running {
      var row := s.rotations[id];
      assert RotationFits(s, row);
      BrokeFits(s, row, FirstPending(row.steps), step, written);
      RowKeeps(s, DoRecover(s, id, step, written), id, Recovered(row, step, written));
    }
  }

  lemma StartKeeps(s: State, keyType: string, owner: string, heard: bool)
    requires Invariant(s)
    ensures Invariant(DoStart(s, keyType, owner, heard))
  {
    var s' := DoStart(s, keyType, owner, heard);
    var row := NewRotation(keyType);
    assert forall i :: 0 <= i < |row.steps| ==> row.steps[i].status == Todo;
    assert Early(row);
    SameKeys(s, s');
    forall k | 0 <= k < |s'.rotations| ensures RotationFits(s', s'.rotations[k]) {
      assert k < |s.rotations| ==> RotationFits(s, s.rotations[k]);
    }
  }

  lemma StepKeeps(s: State, step: Step)
    requires Invariant(s)
    ensures Invariant(Apply(s, step))
  {
    match step
    case Seed(keyType) => SeedKeeps(s, keyType);
    case Start(keyType, owner, heard) => StartKeeps(s, keyType, owner, heard);
    case Statement(fault) => StatementKeeps(s, fault);
    case Transmit(linked) => TransmitKeeps(s, linked);
    case Hear(rc) => GoKeeps(s, DoHear(s, rc));
    case GiveUp => GoKeeps(s, DoGiveUp(s));
    case MarkFailed(st, written) => MarkFailedKeeps(s, st, written);
    case Crash => GoKeeps(s, Apply(s, Crash));
    case Recover(id, st, written) => RecoverKeeps(s, id, st, written);
    case Serve => GoKeeps(s, Apply(s, Serve));
  }

  lemma {:induction false} AlwaysAfter(s: State, steps: seq<Step>)
    requires Invariant(s)
    ensures Invariant(After(s, steps))
    decreases |steps|
  {
    if steps != [] {
      StepKeeps(s, steps[0]);
      AlwaysAfter(Apply(s, steps[0]), steps[1..]);
    }
  }

  // The promises.

  lemma OneActiveKey(steps: seq<Step>, i: KeyId, j: KeyId)
    requires var keys := After(Init(), steps).keys;
             i < |keys| && j < |keys| && keys[i].status == Active && keys[j].status == Active && SameSlot(keys[i], keys[j])
    ensures i == j
  {
    AlwaysAfter(Init(), steps);
  }

  /** A generated key is retired only if it was never sent, was declined, or a newer confirmed key replaced it. */
  lemma RetiredForCause(steps: seq<Step>, g: KeyId)
    requires var s := After(Init(), steps);
             g in s.generated && g < |s.keys| && s.keys[g].status == Retired
    ensures Explained(After(Init(), steps), g)
  {
    AlwaysAfter(Init(), steps);
  }

  lemma CompletedMeansActivated(steps: seq<Step>, r: RotationId)
    requires var s := After(Init(), steps);
             r < |s.rotations| && s.rotations[r].status == Completed
    ensures var s := After(Init(), steps);
            && s.rotations[r].newKey.Some? && s.rotations[r].newKey.value < |s.keys|
            && s.keys[s.rotations[r].newKey.value].activated
  {
    AlwaysAfter(Init(), steps);
    assert RotationFits(After(Init(), steps), After(Init(), steps).rotations[r]);
  }

  lemma ActiveStep(s: State, step: Step, keyType: string, owner: string)
    requires Invariant(s) && HasActive(s.keys, keyType, owner)
    ensures HasActive(Apply(s, step).keys, keyType, owner)
  {
    var i :| 0 <= i < |s.keys| && s.keys[i].status == Active && s.keys[i].keyType == keyType && s.keys[i].owner == owner;
    var keys := Apply(s, step).keys;
    if step.Statement? && s.runner.Some? && s.runner.value.pc.Activating? && step.fault != Lost {
      var k := s.runner.value.pc.key;
      assert keys == Activated(s.keys, k);
      assert if SameSlot(s.keys[i], s.keys[k]) then keys[k].status == Active && SameSlot(keys[k], s.keys[i]) else keys[i] == s.keys[i];
    } else {
      assert keys[i] == s.keys[i];
    }
  }

  /** Once a slot has an ACTIVE key it always has one. */
  lemma {:induction false} ActiveForEver(s: State, more: seq<Step>, keyType: string, owner: string)
    requires Invariant(s) && HasActive(s.keys, keyType, owner)
    ensures HasActive(After(s, more).keys, keyType, owner)
    decreases |more|
  {
    if more != [] {
      StepKeeps(s, more[0]);
      ActiveStep(s, more[0], keyType, owner);
      ActiveForEver(Apply(s, more[0]), more[1..], keyType, owner);
    }
  }

  lemma NeverWithoutKey(steps: seq<Step>, more: seq<Step>, keyType: string, owner: string)
    requires HasActive(After(Init(), steps).keys, keyType, owner)
    ensures HasActive(After(After(Init(), steps), more).keys, keyType, owner)
  {
    AlwaysAfter(Init(), steps);
    ActiveForEver(After(Init(), steps), more, keyType, owner);
  }

  // Recovery.

  /** firstPending is the first step not yet marked, ACTIVATE if there is none. */
  lemma {:induction false} FirstPendingIs(steps: seq<StepRow>)
    ensures (exists k :: 0 <= k < |steps| && steps[k].status == Todo && steps[k].name == FirstPending(steps)
                         && forall i :: 0 <= i < k ==> steps[i].status != Todo)
            || (FirstPending(steps) == ActivateKey && forall i :: 0 <= i < |steps| ==> steps[i].status != Todo)
  {
    if steps != [] && steps[0].status != Todo {
      FirstPendingIs(steps[1..]);
      if k: nat :| k < |steps| - 1 && steps[1..][k].status == Todo && steps[1..][k].name == FirstPending(steps)
                   && forall i :: 0 <= i < k ==> steps[1..][i].status != Todo {
        assert steps[k + 1].status == Todo && forall i :: 0 <= i < k + 1 ==> i == 0 || steps[i] == steps[1..][i - 1];
      } else {
        assert forall i :: 1 <= i < |steps| ==> steps[i] == steps[1..][i - 1];
      }
    }
  }

  /** A recovered rotation is over: COMPLETED exactly when its key was put in use and marked so, else FAILED. */
  lemma RecoverySettles(s: State, id: RotationId, step: bool)
    requires Invariant(s) && !s.serving && id < |s.rotations| && s.rotations[id].status == Running
    ensures var before, after := s.rotations[id], DoRecover(s, id, step, true).rotations[id];
            && after.status != Running && after.newKey == before.newKey
            && (after.status == Completed <==> StepDone(before.steps, ActivateKey))
            && DoRecover(s, id, step, true).keys == s.keys
  {
    assert RotationFits(s, s.rotations[id]);
  }

  // Reaching one state from another.

  ghost predicate Leads(s: State, s': State) {
    exists steps :: After(s, steps) == s'
  }

  lemma {:induction false} AfterThen(s: State, steps: seq<Step>, step: Step)
    ensures After(s, steps + [step]) == Apply(After(s, steps), step)
    decreases |steps|
  {
    if steps == [] {
      assert [step][1..] == [];
    } else {
      AfterThen(Apply(s, steps[0]), steps[1..], step);
      assert (steps + [step])[1..] == steps[1..] + [step];
    }
  }

  lemma LeadsOn(s: State, s': State, step: Step)
    requires Leads(s, s')
    ensures Leads(s, Apply(s', step))
  {
    var steps :| After(s, steps) == s';
    AfterThen(s, steps, step);
  }

  lemma LeadsKeeps(s: State, s': State)
    requires Invariant(s) && Leads(s, s')
    ensures Invariant(s')
  {
    var steps :| After(s, steps) == s';
    AlwaysAfter(s, steps);
  }
}

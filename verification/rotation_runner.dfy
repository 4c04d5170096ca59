/**
 The rotation runner in place: the four steps, the retry loop and failStep, with any statement lost
 or failing after it committed. Every execution is one of the machine's runs.
 */
module RotationRunner {
  import opened Store
  import opened Rotation
  import opened RotationProofs

  /** What one attempt to send the key comes to. */
  datatype Try = Unlinked | Unanswered | Answered(rc: string)

  /** How often to send and what comes of it, and which statement fails how; the last two are failStep's own writes. */
  datatype World = World(attempts: nat, tries: seq<Try>, faults: nat -> Fault, stepMarked: bool, rotationMarked: bool)

  ghost predicate Same(ks: KeyStore, rt: RotationTable, s: State)
    reads ks, rt
  {
    ks.keys == s.keys && rt.rotations == s.rotations
  }

  ghost predicate At(s: State, id: RotationId, pc: Pc) {
    AtRotation(s) && s.runner.value.rotation == id && s.runner.value.pc == pc
  }

  predicate Settles(reply: Try) {
    reply.Answered? && reply.rc != RC_OUTCOME_UNKNOWN
  }

  /** The first settling answer within the attempts. */
  function FirstAnswer(attempts: nat, tries: seq<Try>): Option<string>
    decreases attempts
  {
    if attempts == 0 || tries == [] then None
    else if Settles(tries[0]) then Some(tries[0].rc)
    else FirstAnswer(attempts - 1, tries[1..])
  }

  /** How often the key goes out until then: once for every attempt with a link. */
  function SendsUntil(attempts: nat, tries: seq<Try>): nat
    decreases attempts
  {
    if attempts == 0 || tries == [] then 0
    else (if tries[0].Unlinked? then 0 else 1) + (if Settles(tries[0]) then 0 else SendsUntil(attempts - 1, tries[1..]))
  }

  /** runSend0800161: the first answer other than 96 within the attempts, or none; the key goes out on every attempt with a link. */
  method SendKey(attempts: nat, tries: seq<Try>, id: RotationId, key: KeyId, ghost start: State, ghost s: State)
    returns (answer: Option<string>, ghost s': State)
    requires Leads(start, s) && At(s, id, Sending(key, 0))
    ensures Leads(start, s') && s'.keys == s.keys && s'.rotations == s.rotations && s'.runner.Some?
    ensures s'.runner.value == s.runner.value.(pc := if answer.Some? then Heard(key, answer.value) else Marking(Send0800161))
    ensures answer == FirstAnswer(attempts, tries)
    ensures s'.sent[key] == s.sent[key] + SendsUntil(attempts, tries)
  {
    answer, s' := None, s;
    var used := 0;
    while used < attempts && used < |tries|
      invariant used <= attempts && used <= |tries| && answer.None?
      invariant Leads(start, s') && s'.keys == s.keys && s'.rotations == s.rotations && At(s', id, Sending(key, used))
      invariant s'.runner.value == s.runner.value.(pc := Sending(key, used))
      invariant FirstAnswer(attempts, tries) == FirstAnswer(attempts - used, tries[used..])
      invariant s.sent[key] + SendsUntil(attempts, tries) == s'.sent[key] + SendsUntil(attempts - used, tries[used..])
    {
      var reply := tries[used];
      assert tries[used..][1..] == tries[used + 1..];
      s' := Attempt(reply, id, key, used, start, s');
      used := used + 1;
      if Settles(reply) {
        answer := Some(reply.rc);
        return;
      }
    }
    LeadsOn(start, s', GiveUp);
    s' := DoGiveUp(s');
  }

  lemma Attempt(reply: Try, id: RotationId, key: KeyId, used: nat, start: State, s: State) returns (s': State)
    requires Leads(start, s) && At(s, id, Sending(key, used))
    ensures Leads(start, s') && s'.keys == s.keys && s'.rotations == s.rotations && s'.runner.Some?
    ensures s'.runner.value == s.runner.value.(pc := if Settles(reply) then Heard(key, reply.rc) else Sending(key, used + 1))
    ensures s'.sent[key] == s.sent[key] + (if reply.Unlinked? then 0 else 1)
  {
    LeadsOn(start, s, Transmit(!reply.Unlinked?));
    s' := DoTransmit(s, !reply.Unlinked?);
    if reply.Unanswered? {
      LeadsOn(start, s', GiveUp);
      s' := DoGiveUp(s');
    } else if reply.Answered? {
      LeadsOn(start, s', Hear(reply.rc));
      s' := DoHear(s', reply.rc);
    }
  }

  // What an execution leaves when every write commits.

  ghost predicate Undisturbed(w: World) {
    w.stepMarked && w.rotationMarked && forall n: nat :: w.faults(n) == Fine
  }

  predicate Marks(steps: seq<StepRow>, generate: StepStatus, send: StepStatus, confirm: StepStatus, activate: StepStatus) {
    steps == [StepRow(Generate, generate), StepRow(Send0800161, send), StepRow(PartnerConfirm, confirm), StepRow(ActivateKey, activate)]
  }

  lemma MarkOne(steps: seq<StepRow>, a: StepStatus, b: StepStatus, c: StepStatus, d: StepStatus, x: StepStatus)
    requires Marks(steps, a, b, c, d)
    ensures Marks(WithStep(steps, Generate, x), x, b, c, d) && Marks(WithStep(steps, Send0800161, x), a, x, c, d)
    ensures Marks(WithStep(steps, PartnerConfirm, x), a, b, x, d) && Marks(WithStep(steps, ActivateKey, x), a, b, c, x)
  {
  }

  /** The rotation and its key after an execution whose first settling answer was this. */
  ghost predicate RotationTells(row: RotationRow, key: KeyId, answer: Option<string>) {
    && row.newKey == Some(key)
    && match answer
       case None => row.status == Broken && Marks(row.steps, Done, Failed, Todo, Todo)
       case Some(rc) =>
         if rc == "00" then row.status == Completed && Marks(row.steps, Done, Done, Done, Done)
         else row.status == Broken && Marks(row.steps, Done, Done, Failed, Todo)
  }

  /** A confirmed key is the only one of its slot in use; a declined one is retired; one never answered stays PENDING. */
  ghost predicate KeysTell(before: seq<KeyRow>, after: seq<KeyRow>, keyType: string, owner: string, answer: Option<string>) {
    && |after| == |before| + 1
    && (answer == Some("00") ==>
          && after[|before|] == KeyRow(keyType, owner, Active, true)
          && forall i :: 0 <= i < |before| ==>
               after[i] == if before[i].keyType == keyType && before[i].owner == owner then before[i].(status := Retired) else before[i])
    && (answer != Some("00") ==>
          after == before + [KeyRow(keyType, owner, if answer.None? then Unused else Retired, false)])
  }

  /** completeStep: DONE and its audit; ok is false when either failed. */
  method Complete(rt: RotationTable, id: RotationId, name: StepName, fault: Fault) returns (ok: bool)
    requires id < |rt.rotations|
    modifies rt
    ensures ok <==> fault == Fine
    ensures rt.rotations == if fault == Lost then old(rt.rotations) else
              old(rt.rotations)[id := old(rt.rotations)[id].(steps := WithStep(old(rt.rotations)[id].steps, name, Done))]
  {
    if fault != Lost {
      rt.MarkStep(id, name, Done);
    }
    ok := fault == Fine;
  }

  /** The end of failStep. */
  method EndFailed(ks: KeyStore, rt: RotationTable, id: RotationId, name: StepName, w: World, ghost start: State, ghost s: State)
    returns (ghost s': State)
    requires Leads(start, s) && Same(ks, rt, s) && At(s, id, Marking(name))
    modifies rt
    ensures Leads(start, s') && Same(ks, rt, s') && s'.runner.None? && s'.sent == s.sent
    ensures rt.rotations == old(rt.rotations)[id := Broke(old(rt.rotations)[id], name, w.stepMarked, w.rotationMarked)]
  {
    LeadsOn(start, s, Step.MarkFailed(w.stepMarked, w.rotationMarked));
    s' := DoMarkFailed(s, w.stepMarked, w.rotationMarked);
    if w.stepMarked {
      rt.MarkStep(id, name, Failed);
    }
    if w.rotationMarked {
      rt.SetRotationStatus(id, Broken);
    }
  }

  /** failStep with the never-activated key to retire. */
  method RetireAndFail(ks: KeyStore, rt: RotationTable, id: RotationId, name: StepName, key: KeyId, w: World, ghost start: State, ghost s: State)
    returns (ghost s': State)
    requires Leads(start, s) && Same(ks, rt, s) && At(s, id, Retiring(key, name)) && key < |ks.keys|
    modifies ks, rt
    ensures Leads(start, s') && Same(ks, rt, s') && s'.runner.None? && s'.sent == s.sent
    ensures ks.keys == if w.faults(8) != Lost && old(ks.keys)[key].status == Unused
                       then old(ks.keys)[key := old(ks.keys)[key].(status := Retired)] else old(ks.keys)
    ensures rt.rotations == old(rt.rotations)[id := Broke(old(rt.rotations)[id], name, w.stepMarked, w.rotationMarked)]
  {
    LeadsOn(start, s, Statement(w.faults(8)));
    s' := DoStatement(s, w.faults(8));
    if w.faults(8) != Lost {
      ks.Retire(key);
    }
    s' := EndFailed(ks, rt, id, name, w, start, s');
  }

  /**
   execute: whatever fails, a run that ends with the invariant; undisturbed, the keys and the rotation
   are as the first settling answer says, and the key went out on every attempt with a link until then.
   */
  method Execute(ks: KeyStore, rt: RotationTable, id: RotationId, keyType: string, owner: string, w: World, ghost start: State, ghost s: State)
    returns (ghost s': State)
    requires Invariant(start) && Leads(start, s) && Same(ks, rt, s) && At(s, id, Generating)
    requires s.runner.value.keyType == keyType && s.runner.value.owner == owner
    modifies ks, rt
    ensures Leads(start, s') && Same(ks, rt, s') && s'.runner.None? && Invariant(s')
    ensures Undisturbed(w) && Marks(old(rt.rotations)[id].steps, Todo, Todo, Todo, Todo) ==>
              && |rt.rotations| == old(|rt.rotations|)
              && RotationTells(rt.rotations[id], |old(ks.keys)|, FirstAnswer(w.attempts, w.tries))
              && KeysTell(old(ks.keys), ks.keys, keyType, owner, FirstAnswer(w.attempts, w.tries))
              && (forall r :: 0 <= r < |rt.rotations| && r != id ==> rt.rotations[r] == old(rt.rotations)[r])
              && s'.sent[|old(ks.keys)|] == s.sent[|old(ks.keys)|] + SendsUntil(w.attempts, w.tries)
  {
    ghost var was, row := ks.keys, rt.rotations[id];
    s' := RunSteps(ks, rt, id, keyType, owner, w, start, s);
    LeadsKeeps(start, s');
    if Undisturbed(w) && Marks(row.steps, Todo, Todo, Todo, Todo) {
      StepsTell(row.steps, FirstAnswer(w.attempts, w.tries));
      KeysEnd(was, ks.keys, keyType, owner, FirstAnswer(w.attempts, w.tries));
    }
  }

  /** The steps of a rotation whose first settling answer was this. */
  function EndSteps(steps: seq<StepRow>, answer: Option<string>): seq<StepRow> {
    var generated := WithStep(steps, Generate, Done);
    match answer
    case None => WithStep(generated, Send0800161, Failed)
    case Some(rc) => AnsweredSteps(generated, rc)
  }

  function AnsweredSteps(steps: seq<StepRow>, rc: string): seq<StepRow> {
    var sent := WithStep(steps, Send0800161, Done);
    if rc == RC_APPROVED then WithStep(WithStep(sent, PartnerConfirm, Done), ActivateKey, Done)
    else WithStep(sent, PartnerConfirm, Failed)
  }

  function EndStatus(answer: Option<string>): RotationStatus {
    if answer == Some(RC_APPROVED) then Completed else Broken
  }

  lemma StepsTell(steps: seq<StepRow>, answer: Option<string>)
    requires Marks(steps, Todo, Todo, Todo, Todo)
    ensures match answer
            case None => Marks(EndSteps(steps, answer), Done, Failed, Todo, Todo)
            case Some(rc) =>
              if rc == "00" then Marks(EndSteps(steps, answer), Done, Done, Done, Done)
              else Marks(EndSteps(steps, answer), Done, Done, Failed, Todo)
  {
    MarkOne(steps, Todo, Todo, Todo, Todo, Done);
    var generated := WithStep(steps, Generate, Done);
    MarkOne(generated, Done, Todo, Todo, Todo, Failed);
    MarkOne(generated, Done, Todo, Todo, Todo, Done);
    var sent := WithStep(generated, Send0800161, Done);
    MarkOne(sent, Done, Done, Todo, Todo, Failed);
    MarkOne(sent, Done, Done, Todo, Todo, Done);
    MarkOne(WithStep(sent, PartnerConfirm, Done), Done, Done, Done, Todo, Done);
  }

  /** The keys after an answer. */
  function EndKeys(keys: seq<KeyRow>, key: KeyId, answer: Option<string>): seq<KeyRow>
    requires key < |keys|
  {
    if answer == Some(RC_APPROVED) then Activated(keys, key)
    else if answer.Some? then RetirePending(keys, key)
    else keys
  }

  lemma KeysEnd(before: seq<KeyRow>, after: seq<KeyRow>, keyType: string, owner: string, answer: Option<string>)
    requires after == EndKeys(before + [KeyRow(keyType, owner, Unused, false)], |before|, answer)
    ensures KeysTell(before, after, keyType, owner, answer)
  {
  }

  method RunSteps(ks: KeyStore, rt: RotationTable, id: RotationId, keyType: string, owner: string, w: World, ghost start: State, ghost s: State)
    returns (ghost s': State)
    requires Leads(start, s) && Same(ks, rt, s) && At(s, id, Generating)
    requires s.runner.value.keyType == keyType && s.runner.value.owner == owner
    modifies ks, rt
    ensures Leads(start, s') && Same(ks, rt, s') && s'.runner.None?
    ensures Undisturbed(w) ==>
              var key, row, answer := |old(ks.keys)|, old(rt.rotations)[id], FirstAnswer(w.attempts, w.tries);
              && ks.keys == EndKeys(old(ks.keys) + [KeyRow(keyType, owner, Unused, false)], key, answer)
              && rt.rotations == old(rt.rotations)[id := row.(newKey := Some(key), steps := EndSteps(row.steps, answer), status := EndStatus(answer))]
              && s'.sent[key] == s.sent[key] + SendsUntil(w.attempts, w.tries)
  {
    LeadsOn(start, s, Statement(w.faults(0)));
    s' := DoStatement(s, w.faults(0));
    var key := |ks.keys|;
    if w.faults(0) != Lost {
      key := ks.Insert(keyType, owner);
    }
    if w.faults(0) != Fine {
      s' := EndFailed(ks, rt, id, Generate, w, start, s');
      return;
    }
    s' := Link(ks, rt, id, key, w, start, s');
  }

  /** SetNewKey, and on. */
  method Link(ks: KeyStore, rt: RotationTable, id: RotationId, key: KeyId, w: World, ghost start: State, ghost s: State)
    returns (ghost s': State)
    requires Leads(start, s) && Same(ks, rt, s) && At(s, id, Linking(key)) && key < |ks.keys|
    modifies ks, rt
    ensures Leads(start, s') && Same(ks, rt, s') && s'.runner.None?
    ensures Undisturbed(w) ==>
              var row, answer := old(rt.rotations)[id], FirstAnswer(w.attempts, w.tries);
              && ks.keys == EndKeys(old(ks.keys), key, answer)
              && rt.rotations == old(rt.rotations)[id := row.(newKey := Some(key), steps := EndSteps(row.steps, answer), status := EndStatus(answer))]
              && s'.sent[key] == s.sent[key] + SendsUntil(w.attempts, w.tries)
  {
    LeadsOn(start, s, Statement(w.faults(1)));
    s' := DoStatement(s, w.faults(1));
    if w.faults(1) != Lost {
      rt.SetNewKey(id, key);
    }
    if w.faults(1) != Fine {
      s' := RetireAndFail(ks, rt, id, Generate, key, w, start, s');
      return;
    }
    s' := AfterGenerate(ks, rt, id, key, w, start, s');
  }

  method AfterGenerate(ks: KeyStore, rt: RotationTable, id: RotationId, key: KeyId, w: World, ghost start: State, ghost s: State)
    returns (ghost s': State)
    requires Leads(start, s) && Same(ks, rt, s) && At(s, id, Generated(key)) && key < |ks.keys|
    modifies ks, rt
    ensures Leads(start, s') && Same(ks, rt, s') && s'.runner.None?
    ensures Undisturbed(w) ==>
              var row, answer := old(rt.rotations)[id], FirstAnswer(w.attempts, w.tries);
              && ks.keys == EndKeys(old(ks.keys), key, answer)
              && rt.rotations == old(rt.rotations)[id := row.(steps := EndSteps(row.steps, answer), status := EndStatus(answer))]
              && s'.sent[key] == s.sent[key] + SendsUntil(w.attempts, w.tries)
  {
    LeadsOn(start, s, Statement(w.faults(2)));
    s' := DoStatement(s, w.faults(2));
    var ok := Complete(rt, id, Generate, w.faults(2));
    if !ok {
      s' := RetireAndFail(ks, rt, id, Generate, key, w, start, s');
      return;
    }
    s' := SendAndConfirm(ks, rt, id, key, w, start, s');
  }

  method SendAndConfirm(ks: KeyStore, rt: RotationTable, id: RotationId, key: KeyId, w: World, ghost start: State, ghost s: State)
    returns (ghost s': State)
    requires Leads(start, s) && Same(ks, rt, s) && At(s, id, Sending(key, 0)) && key < |ks.keys|
    modifies ks, rt
    ensures Leads(start, s') && Same(ks, rt, s') && s'.runner.None?
    ensures s'.sent[key] == s.sent[key] + SendsUntil(w.attempts, w.tries)
    ensures Undisturbed(w) ==>
              var row, answer := old(rt.rotations)[id], FirstAnswer(w.attempts, w.tries);
              && ks.keys == EndKeys(old(ks.keys), key, answer)
              && rt.rotations == old(rt.rotations)[id := row.(
                   steps := (match answer case None => WithStep(row.steps, Send0800161, Failed) case Some(rc) => AnsweredSteps(row.steps, rc)),
                   status := EndStatus(answer))]
  {
    var answer;
    answer, s' := SendKey(w.attempts, w.tries, id, key, start, s);
    if answer.None? {
      s' := EndFailed(ks, rt, id, Send0800161, w, start, s');
      return;
    }
    s' := Confirm(ks, rt, id, key, answer.value, w, start, s');
  }

  /** An 0810 arrived: a decline retires the key, a confirmation activates it. */
  method Confirm(ks: KeyStore, rt: RotationTable, id: RotationId, key: KeyId, rc: string, w: World, ghost start: State, ghost s: State)
    returns (ghost s': State)
    requires Leads(start, s) && Same(ks, rt, s) && At(s, id, Heard(key, rc)) && key < |ks.keys|
    modifies ks, rt
    ensures Leads(start, s') && Same(ks, rt, s') && s'.runner.None? && s'.sent == s.sent
    ensures Undisturbed(w) ==>
              var row := old(rt.rotations)[id];
              && ks.keys == EndKeys(old(ks.keys), key, Some(rc))
              && rt.rotations == old(rt.rotations)[id := row.(steps := AnsweredSteps(row.steps, rc), status := EndStatus(Some(rc)))]
  {
    LeadsOn(start, s, Statement(w.faults(3)));
    s' := DoStatement(s, w.faults(3));
    var ok := Complete(rt, id, Send0800161, w.faults(3));
    if !ok {
      s' := EndFailed(ks, rt, id, Send0800161, w, start, s');
      return;
    }
    if rc != RC_APPROVED {
      LeadsOn(start, s', Statement(w.faults(4)));
      s' := DoStatement(s', w.faults(4));
      s' := RetireAndFail(ks, rt, id, PartnerConfirm, key, w, start, s');
      return;
    }
    s' := Confirmed(ks, rt, id, key, w, start, s');
  }

  /** runPartnerConfirm for "00", and the activation. */
  method Confirmed(ks: KeyStore, rt: RotationTable, id: RotationId, key: KeyId, w: World, ghost start: State, ghost s: State)
    returns (ghost s': State)
    requires Leads(start, s) && Same(ks, rt, s) && At(s, id, Confirming(key, RC_APPROVED)) && key < |ks.keys|
    modifies ks, rt
    ensures Leads(start, s') && Same(ks, rt, s') && s'.runner.None? && s'.sent == s.sent
    ensures Undisturbed(w) ==>
              var row := old(rt.rotations)[id];
              && ks.keys == Activated(old(ks.keys), key)
              && rt.rotations == old(rt.rotations)[id :=
                   row.(steps := WithStep(WithStep(row.steps, PartnerConfirm, Done), ActivateKey, Done), status := Completed)]
  {
    LeadsOn(start, s, Statement(w.faults(4)));
    s' := DoStatement(s, w.faults(4));
    var ok := Complete(rt, id, PartnerConfirm, w.faults(4));
    if !ok {
      s' := EndFailed(ks, rt, id, PartnerConfirm, w, start, s');
      return;
    }
    s' := ActivateConfirmed(ks, rt, id, key, w, start, s');
  }

  method ActivateConfirmed(ks: KeyStore, rt: RotationTable, id: RotationId, key: KeyId, w: World, ghost start: State, ghost s: State)
    returns (ghost s': State)
    requires Leads(start, s) && Same(ks, rt, s) && At(s, id, Activating(key)) && key < |ks.keys|
    modifies ks, rt
    ensures Leads(start, s') && Same(ks, rt, s') && s'.runner.None? && s'.sent == s.sent
    ensures ks.keys == if w.faults(5) == Lost then old(ks.keys) else Activated(old(ks.keys), key)
    ensures w.faults(5) == Fine && w.faults(6) == Fine && w.faults(7) == Fine ==>
              var row := old(rt.rotations)[id];
              rt.rotations == old(rt.rotations)[id := row.(steps := WithStep(row.steps, ActivateKey, Done), status := Completed)]
  {
    LeadsOn(start, s, Statement(w.faults(5)));
    s' := DoStatement(s, w.faults(5));
    if w.faults(5) != Lost {
      ks.Activate(key);
    }
    if w.faults(5) != Fine {
      s' := EndFailed(ks, rt, id, ActivateKey, w, start, s');
      return;
    }
    s' := MarkActivated(ks, rt, id, key, w, start, s');
  }

  /** The key is in use; the rotation says so. */
  method MarkActivated(ks: KeyStore, rt: RotationTable, id: RotationId, key: KeyId, w: World, ghost start: State, ghost s: State)
    returns (ghost s': State)
    requires Leads(start, s) && Same(ks, rt, s) && At(s, id, Activation(key))
    modifies rt
    ensures Leads(start, s') && Same(ks, rt, s') && s'.runner.None? && s'.sent == s.sent
    ensures w.faults(6) == Fine && w.faults(7) == Fine ==>
              var row := old(rt.rotations)[id];
              rt.rotations == old(rt.rotations)[id := row.(steps := WithStep(row.steps, ActivateKey, Done), status := Completed)]
  {
    LeadsOn(start, s, Statement(w.faults(6)));
    s' := DoStatement(s, w.faults(6));
    var ok := Complete(rt, id, ActivateKey, w.faults(6));
    if !ok {
      s' := EndFailed(ks, rt, id, ActivateKey, w, start, s');
      return;
    }
    LeadsOn(start, s', Statement(w.faults(7)));
    s' := DoStatement(s', w.faults(7));
    if w.faults(7) != Lost {
      rt.SetRotationStatus(id, Completed);
    }
  }
}

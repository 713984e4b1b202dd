// Drain safety: while an unforced lease is live nothing outside the allow-list reaches a
// backend and everything that did before has been answered or its bridge closed.

module GatewayDrain {
  import opened Prelude
  import opened MaintenanceGates
  import opened Gateway
  import opened GatewayTokens

  /** Calls the backend has received whose response the backend pump has not processed. */
  function Outstanding(br: Bridge): multiset<Call> {
    br.unanswered + br.answers
  }

  predicate NoCallOf(br: Bridge, key: RequestKey) {
    Call(key, true) !in Outstanding(br) && Call(key, false) !in Outstanding(br)
  }

  /** Every outstanding call of an open bridge has its own pending entry, of its own kind. */
  ghost predicate Registered(br: Bridge) {
    forall c <- Outstanding(br) ::
      && Outstanding(br)[c] == 1
      && c.key in br.pending && br.pending[c.key].Mutation? == c.mutating
  }

  /** The pump's registration is in place and not yet known to the backend. */
  predicate PumpRegistered(br: Bridge) {
    match br.pump
    case Published(t, id) => id in br.pending && br.pending[id] == Mutation(t) && NoCallOf(br, id)
    case MutFailed(t, id) => id in br.pending && br.pending[id] == Mutation(t) && NoCallOf(br, id)
    case ReadPublished(key) => key.Some? ==> key.value in br.pending && br.pending[key.value] == Read && NoCallOf(br, key.value)
    case ReadFailed(key) => key.Some? ==> key.value in br.pending && br.pending[key.value] == Read && NoCallOf(br, key.value)
    case _ => true
  }

  ghost predicate Disciplined(br: Bridge) {
    Registered(br) && PumpRegistered(br)
  }

  /** The pump has stopped taking requests and sends nothing any more. */
  predicate Ending(p: Pump) {
    p.MutFailed? || p.ReadFailed? || (p.Releasing? && p.ends)
  }

  predicate Quiet(br: Bridge) {
    br.closed && br.pending == map[] && (Ending(br.pump) || br.pump == Finished)
  }

  predicate ClosedByHandler(br: Bridge) {
    br.closed && !br.early
  }

  /** Every call is registered, or the bridge is closed and its pump on its way out. */
  ghost predicate Serves(br: Bridge) {
    && (Disciplined(br) || Quiet(br))
    && (ClosedByHandler(br) ==> Ended(br))
  }

  /** The pump has registered a keyed request and not sent it yet. */
  predicate AboutToSend(p: Pump) {
    p.Published? || (p.ReadPublished? && p.key.Some?)
  }

  /** A close under a running pump that costs the drain nothing: the pump is ending, or no call
      is outstanding and none is about to be sent. */
  predicate GentleClose(br: Bridge) {
    Ending(br.pump) || (Outstanding(br) == multiset{} && !AboutToSend(br.pump))
  }

  predicate LeaseOk(s: Sys) {
    && (s.gate.draining <==> s.waiting.Some? || s.gate.lease.Some?)
    && !(s.waiting.Some? && s.gate.lease.Some?)
    && (s.gate.lease.Some? && !s.gate.lease.value.force ==> s.gate.active == 0 && s.sent == s.granted)
  }

  ghost predicate Safe(s: Sys, owner: Owners) {
    && Owned(s, owner)
    && LeaseOk(s)
    && (forall b <- s.bridges :: Serves(s.bridges[b]))
  }

  /** With nothing live no pump stands before a mutating send. */
  lemma NoSendWithoutToken(s: Sys, owner: Owners, b: nat)
    requires Owned(s, owner) && b in s.bridges && Serves(s.bridges[b]) && s.gate.active == 0
    ensures !MaySendMutation(s.bridges[b].pump)
    ensures forall k <- s.bridges[b].pending :: s.bridges[b].pending[k] == Read
  {
    var br := s.bridges[b];
    assert s.live == {};
    assert BridgeOwned(br, b, owner);
    if MaySendMutation(br.pump) {
      assert Keeps(br, if br.pump.Published? then AtEntry(br.pump.id) else AtPump, br.pump.token);
      assert false;
    }
    forall k | k in br.pending ensures br.pending[k] == Read {
      if br.pending[k].Mutation? {
        assert Keeps(br, AtEntry(k), br.pending[k].token);
        assert false;
      }
    }
  }

  lemma ReleaseKeepsLease(s: Sys, owner: Owners, step: Step)
    requires Safe(s, owner) && Enabled(s, step) && Releases(s, step).Some?
    ensures LeaseOk(Apply(s, step))
  {
    ReleaserHolds(s, owner, step);
  }

  lemma SendKeepsLease(s: Sys, owner: Owners, step: Step)
    requires Safe(s, owner) && Enabled(s, step) && step.SendMutation?
    ensures LeaseOk(Apply(s, step))
  {
    if s.gate.active == 0 {
      NoSendWithoutToken(s, owner, step.b);
    }
  }

  lemma InnerKeepsGate(s: Sys, step: Step)
    requires Enabled(s, step) && Inner(step)
    ensures Apply(s, step) == Update(s, step.b, Local(s.bridges[step.b], step))
  {}

  lemma StepKeepsLease(s: Sys, owner: Owners, step: Step)
    requires Safe(s, owner) && Enabled(s, step)
    ensures LeaseOk(Apply(s, step))
  {
    if Releases(s, step).Some? {
      ReleaseKeepsLease(s, owner, step);
    } else if step.SendMutation? {
      SendKeepsLease(s, owner, step);
    } else if Inner(step) {
      InnerKeepsGate(s, step);
    }
  }

  // ---- one bridge ----

  /** The backend receives a registered call. */
  lemma CallKeepsDiscipline(br: Bridge, call: Call, br': Bridge)
    requires Disciplined(br) && PumpRegistered(br')
    requires NoCallOf(br, call.key) && call.key in br.pending && br.pending[call.key].Mutation? == call.mutating
    requires br'.pending == br.pending && Outstanding(br') == Outstanding(br) + multiset{call}
    ensures Disciplined(br')
  {}

  /** No entry of a call is lost. */
  lemma EntriesKeepDiscipline(br: Bridge, br': Bridge)
    requires Disciplined(br) && PumpRegistered(br')
    requires Outstanding(br') == Outstanding(br)
    requires forall k :: k in br.pending && !NoCallOf(br, k) ==> k in br'.pending && br'.pending[k] == br.pending[k]
    ensures Disciplined(br')
  {}

  lemma SendReadKeeps(br: Bridge, step: Step)
    requires step.SendRead? && br.pump.ReadPublished? && Disciplined(br)
    ensures Disciplined(Local(br, step))
  {
    var br' := Local(br, step);
    if br.pump.key.Some? {
      var call := Call(br.pump.key.value, false);
      assert Outstanding(br') == Outstanding(br) + multiset{call};
      CallKeepsDiscipline(br, call, br');
    } else {
      EntriesKeepDiscipline(br, br');
    }
  }

  lemma ReadStepsKeep(s: Sys, step: Step)
    requires ReadStep(step) && Enabled(s, step) && Disciplined(s.bridges[step.b]) && Fresh(s.bridges[step.b])
    ensures Disciplined(Local(s.bridges[step.b], step))
  {
    var br, br' := s.bridges[step.b], Local(s.bridges[step.b], step);
    if step.SendRead? {
      SendReadKeeps(br, step);
    } else {
      EntriesKeepDiscipline(br, br');
    }
  }

  lemma PublishMutationKeeps(br: Bridge, step: Step)
    requires step.PublishMutation? && br.pump.Entered? && Disciplined(br) && Fresh(br)
    ensures Disciplined(Local(br, step))
  {
    EntriesKeepDiscipline(br, Local(br, step));
  }

  lemma RetractMutationKeeps(br: Bridge, step: Step)
    requires step.RetractMutation? && br.pump.MutFailed? && Disciplined(br)
    ensures Disciplined(Local(br, step))
  {}

  lemma MutationStepsKeep(s: Sys, step: Step)
    requires step.AdmitMutation? || step.PublishMutation? || step.FailMutation? || step.RetractMutation? || step.PumpStop?
    requires Enabled(s, step) && Disciplined(s.bridges[step.b]) && Fresh(s.bridges[step.b])
    ensures Disciplined(Local(s.bridges[step.b], step))
  {
    var br := s.bridges[step.b];
    match step {
      case PublishMutation(_) => PublishMutationKeeps(br, step);
      case RetractMutation(_) => RetractMutationKeeps(br, step);
      case AdmitMutation(_, key) => EntriesKeepDiscipline(br, br.(pump := MutReady(key)));
      case PumpStop(_) => EntriesKeepDiscipline(br, br.(pump := Finished));
      case FailMutation(_) => EntriesKeepDiscipline(br, Local(br, step));
    }
  }

  lemma AnswerKeeps(s: Sys, step: Step)
    requires step.Answer? && Enabled(s, step) && Disciplined(s.bridges[step.b])
    ensures Disciplined(Local(s.bridges[step.b], step))
  {
    var br, br' := s.bridges[step.b], Local(s.bridges[step.b], step);
    assert Outstanding(br') == Outstanding(br);
  }

  lemma ForgetCallKeeps(br: Bridge, call: Call, br': Bridge)
    requires Disciplined(br) && call in Outstanding(br) && br'.pump == br.pump
    requires br'.pending == br.pending - {call.key} && Outstanding(br') == Outstanding(br) - multiset{call}
    ensures Disciplined(br')
  {
    assert PumpRegistered(br') by {
      ForgetCallPump(br, call, br');
    }
    forall c | c in Outstanding(br') ensures c in Outstanding(br) && c.key != call.key {
      assert Outstanding(br)[call] == 1;
    }
  }

  lemma ForgetCallPump(br: Bridge, call: Call, br': Bridge)
    requires PumpRegistered(br) && call in Outstanding(br) && br'.pump == br.pump
    requires br'.pending == br.pending - {call.key} && Outstanding(br') == Outstanding(br) - multiset{call}
    ensures PumpRegistered(br')
  {}

  lemma SettledBridge(br: Bridge, step: Step)
    requires step.Settle? && step.call in br.answers
    ensures var br' := Local(br, step);
            && Outstanding(br') == Outstanding(br) - multiset{step.call}
            && br'.pending == br.pending - {step.call.key} && br'.pump == br.pump
  {}

  lemma InnerKeepsDiscipline(s: Sys, step: Step)
    requires Inner(step) && !step.EarlyClose? && !step.HandlerClose? && Enabled(s, step)
    requires Disciplined(s.bridges[step.b]) && Fresh(s.bridges[step.b])
    ensures Disciplined(Local(s.bridges[step.b], step))
  {
    if ReadStep(step) {
      ReadStepsKeep(s, step);
    } else if step.Answer? {
      AnswerKeeps(s, step);
    } else if step.Settle? {
      SettledBridge(s.bridges[step.b], step);
      ForgetCallKeeps(s.bridges[step.b], step.call, Local(s.bridges[step.b], step));
    } else {
      MutationStepsKeep(s, step);
    }
  }

  lemma SendKeeps(br: Bridge)
    requires Disciplined(br) && Fresh(br) && MaySendMutation(br.pump)
    ensures Disciplined(AfterSend(br))
  {
    var br' := AfterSend(br);
    if br.pump.Published? {
      var call := Call(br.pump.id, true);
      assert Outstanding(br') == Outstanding(br) + multiset{call};
      CallKeepsDiscipline(br, call, br');
    } else {
      EntriesKeepDiscipline(br, br');
    }
  }

  /** A step on the gate's side of a bridge: only the pump's phase or the tokens in hand change. */
  predicate HandStep(step: Step) {
    step.EnterGate? || step.PumpRelease? || step.PopperRelease? || step.CloserRelease?
  }

  lemma HandStepsKeep(s: Sys, step: Step)
    requires HandStep(step) && Enabled(s, step) && Disciplined(s.bridges[step.b])
    ensures Disciplined(Apply(s, step).bridges[step.b])
  {
    var br, br' := s.bridges[step.b], Apply(s, step).bridges[step.b];
    assert Outstanding(br') == Outstanding(br);
    EntriesKeepDiscipline(br, br');
  }

  /** Whether a step is taken in bridge `b`. */
  predicate Touches(step: Step, b: nat) {
    !step.BrokerEnter? && !step.BrokerExit? && !step.DrainBegin? && !step.DrainGrant? && !step.DrainEnd?
    && step.b == b
  }

  lemma UntouchedBridge(s: Sys, step: Step, b: nat)
    requires Enabled(s, step) && b in Apply(s, step).bridges && !Touches(step, b)
    ensures b in s.bridges && Apply(s, step).bridges[b] == s.bridges[b]
  {}

  lemma DisciplineKept(s: Sys, step: Step, b: nat)
    requires Enabled(s, step) && Touches(step, b) && !step.Connect? && !step.EarlyClose? && !step.HandlerClose?
    requires Disciplined(s.bridges[b]) && Fresh(s.bridges[b])
    ensures Disciplined(Apply(s, step).bridges[b])
  {
    if Inner(step) {
      InnerKeepsDiscipline(s, step);
    } else if step.SendMutation? {
      SendKeeps(s.bridges[b]);
    } else {
      HandStepsKeep(s, step);
    }
  }

  /** A closed bridge with its pump on its way out stays like that. */
  lemma QuietKept(s: Sys, step: Step, b: nat)
    requires Enabled(s, step) && b in s.bridges && Quiet(s.bridges[b])
    ensures b in Apply(s, step).bridges && Quiet(Apply(s, step).bridges[b])
  {
    if !Touches(step, b) {
      UntouchedStays(s, step, b);
    } else if Inner(step) {
      QuietLocal(s, step);
    } else {
      QuietHand(s, step);
    }
  }

  lemma QuietLocal(s: Sys, step: Step)
    requires Inner(step) && Enabled(s, step) && Quiet(s.bridges[step.b])
    ensures Quiet(Local(s.bridges[step.b], step))
  {}

  lemma QuietHand(s: Sys, step: Step)
    requires Enabled(s, step) && (HandStep(step) || step.SendMutation? || step.Connect?)
    requires step.b in s.bridges && Quiet(s.bridges[step.b])
    ensures Quiet(Apply(s, step).bridges[step.b])
  {}

  lemma UntouchedStays(s: Sys, step: Step, b: nat)
    requires Enabled(s, step) && b in s.bridges && !Touches(step, b)
    ensures b in Apply(s, step).bridges && Apply(s, step).bridges[b] == s.bridges[b]
  {}

  /** The pump of a bridge closed by its handler has ended, and nothing is registered. */
  predicate Ended(br: Bridge) {
    br.pump == Finished && br.pending == map[]
  }

  lemma ClosedByHandlerKept(s: Sys, step: Step, b: nat)
    requires Enabled(s, step) && b in s.bridges
    requires ClosedByHandler(s.bridges[b]) ==> Ended(s.bridges[b])
    ensures b in Apply(s, step).bridges
    ensures ClosedByHandler(Apply(s, step).bridges[b]) ==> Ended(Apply(s, step).bridges[b])
  {
    if !Touches(step, b) {
      UntouchedStays(s, step, b);
    } else if Inner(step) {
      EndedLocal(s, step);
    } else {
      EndedHand(s, step);
    }
  }

  lemma EndedLocal(s: Sys, step: Step)
    requires Inner(step) && Enabled(s, step)
    requires ClosedByHandler(s.bridges[step.b]) ==> Ended(s.bridges[step.b])
    ensures ClosedByHandler(Local(s.bridges[step.b], step)) ==> Ended(Local(s.bridges[step.b], step))
  {}

  lemma EndedHand(s: Sys, step: Step)
    requires Enabled(s, step) && (HandStep(step) || step.SendMutation? || step.Connect?)
    requires step.b in s.bridges && (ClosedByHandler(s.bridges[step.b]) ==> Ended(s.bridges[step.b]))
    ensures ClosedByHandler(Apply(s, step).bridges[step.b]) ==> Ended(Apply(s, step).bridges[step.b])
  {}

  /** The close of a bridge by its handler, or under its pump when that is gentle. */
  predicate Gentle(s: Sys, step: Step)
    requires Enabled(s, step)
  {
    step.EarlyClose? ==> GentleClose(s.bridges[step.b])
  }

  lemma CloseServes(br: Bridge, early: bool)
    requires if early then GentleClose(br) else br.pump == Finished
    ensures Serves(CloseEntries(br, early))
  {
    var br' := CloseEntries(br, early);
    assert Outstanding(br') == Outstanding(br);
  }

  lemma BridgeServes(s: Sys, step: Step, b: nat)
    requires Enabled(s, step) && Gentle(s, step) && b in Apply(s, step).bridges
    requires b in s.bridges ==> Serves(s.bridges[b]) && Fresh(s.bridges[b])
    ensures Serves(Apply(s, step).bridges[b])
  {
    if !Touches(step, b) {
      UntouchedBridge(s, step, b);
    } else if step.EarlyClose? || step.HandlerClose? {
      CloseServes(s.bridges[b], step.EarlyClose?);
    } else if !step.Connect? {
      ClosedByHandlerKept(s, step, b);
      if Quiet(s.bridges[b]) {
        QuietKept(s, step, b);
      } else {
        DisciplineKept(s, step, b);
      }
    }
  }

  lemma StepSafe(s: Sys, owner: Owners, step: Step)
    requires Safe(s, owner) && Enabled(s, step) && Gentle(s, step)
    ensures Safe(Apply(s, step), Handover(s, owner, step))
  {
    StepOwned(s, owner, step);
    StepKeepsLease(s, owner, step);
    forall b | b in Apply(s, step).bridges ensures Serves(Apply(s, step).bridges[b]) {
      assert b in s.bridges ==> BridgeOwned(s.bridges[b], b, owner);
      BridgeServes(s, step, b);
    }
  }

  predicate HandlerRun(steps: seq<Step>) {
    forall step <- steps :: !step.EarlyClose?
  }

  /** Every close under a running pump in the run is gentle. */
  ghost predicate GentleRun(s: Sys, steps: seq<Step>)
    decreases |steps|
  {
    steps == [] || (Enabled(s, steps[0]) && Gentle(s, steps[0]) && GentleRun(Apply(s, steps[0]), steps[1..]))
  }

  lemma {:induction false} HandlerRunIsGentle(s: Sys, steps: seq<Step>, end: Sys)
    requires Run(s, steps, end) && HandlerRun(steps)
    ensures GentleRun(s, steps)
    decreases |steps|
  {
    if steps != [] {
      HandlerRunIsGentle(Apply(s, steps[0]), steps[1..], end);
    }
  }

  lemma {:induction false} RunSafe(s: Sys, owner: Owners, steps: seq<Step>, end: Sys)
    returns (owner': Owners)
    requires Safe(s, owner) && Run(s, steps, end) && GentleRun(s, steps)
    ensures Safe(end, owner')
    decreases |steps|
  {
    if steps == [] {
      owner' := owner;
    } else {
      StepSafe(s, owner, steps[0]);
      owner' := RunSafe(Apply(s, steps[0]), Handover(s, owner, steps[0]), steps[1..], end);
    }
  }

  lemma InitSafe()
    ensures Safe(INIT, map[])
  {}

  // ---- the results ----

  /** Over every interleaving in which bridges are closed by their handler or gently: while an
      unforced lease is live no broker mutation runs, nothing outside the allow-list has been
      sent since the lease was issued or can be sent next, and every keyed mutating request sent
      earlier has been answered to its bridge or the bridge is closed. */
  lemma DrainSafety(steps: seq<Step>, s: Sys)
    requires Run(INIT, steps, s) && GentleRun(INIT, steps)
    requires s.gate.lease.Some? && !s.gate.lease.value.force
    ensures s.gate.active == 0 && s.broker == {} && s.sent == s.granted
    ensures forall b :: !Enabled(s, SendMutation(b))
    ensures forall b, c :: b in s.bridges && !s.bridges[b].closed && c in Outstanding(s.bridges[b]) ==> !c.mutating
  {
    InitSafe();
    var owner := RunSafe(INIT, map[], steps, s);
    NoBroker(s, owner);
    forall b ensures !Enabled(s, SendMutation(b)) {
      NoSendEnabled(s, owner, b);
    }
    forall b, c | b in s.bridges && !s.bridges[b].closed && c in Outstanding(s.bridges[b]) ensures !c.mutating {
      NoSendWithoutToken(s, owner, b);
      NoMutatingCall(s.bridges[b]);
    }
  }

  lemma NoSendEnabled(s: Sys, owner: Owners, b: nat)
    requires Safe(s, owner) && s.gate.active == 0
    ensures !Enabled(s, SendMutation(b))
  {
    if b in s.bridges {
      NoSendWithoutToken(s, owner, b);
    }
  }

  lemma NoMutatingCall(br: Bridge)
    requires Serves(br) && forall k <- br.pending :: br.pending[k] == Read
    ensures forall c <- Outstanding(br) :: br.closed || !c.mutating
  {}

  lemma NoBroker(s: Sys, owner: Owners)
    requires Owned(s, owner) && s.gate.active == 0
    ensures s.broker == {}
  {
    assert s.live == {};
    forall t | t in s.broker ensures false {}
  }

  /** While draining, whether or not the lease is issued yet, no mutation enters. */
  lemma DrainAdmitsNothing(s: Sys, step: Step)
    requires Enabled(s, step) && s.gate.draining
    ensures Apply(s, step).live <= s.live && Apply(s, step).gate.active <= s.gate.active
    ensures step == DrainEnd || Apply(s, step).gate.draining
  {}

  /** The pump and the pending map of a bridge closed by its handler hold nothing; what its closer
      and its backend pump still hold they are about to release, and no step gives it more. */
  lemma HandlerClosedContributesZero(steps: seq<Step>, s: Sys, b: nat)
    requires Run(INIT, steps, s) && GentleRun(INIT, steps) && b in s.bridges && ClosedByHandler(s.bridges[b])
    ensures Contribution(s.bridges[b]) == |s.bridges[b].closing| + if s.bridges[b].popper.Some? then 1 else 0
    ensures forall step :: Enabled(s, step) && !step.Connect? ==>
              b in Apply(s, step).bridges && Contribution(Apply(s, step).bridges[b]) <= Contribution(s.bridges[b])
  {
    InitSafe();
    var owner := RunSafe(INIT, map[], steps, s);
    assert Serves(s.bridges[b]);
    forall step | Enabled(s, step) && !step.Connect?
      ensures b in Apply(s, step).bridges && Contribution(Apply(s, step).bridges[b]) <= Contribution(s.bridges[b])
    {
      ClosedStays(s, step, b);
    }
  }

  lemma ClosedStays(s: Sys, step: Step, b: nat)
    requires Enabled(s, step) && b in s.bridges && s.bridges[b].closed
    requires Ended(s.bridges[b])
    ensures b in Apply(s, step).bridges && Contribution(Apply(s, step).bridges[b]) <= Contribution(s.bridges[b])
  {
    if !Touches(step, b) {
      UntouchedStays(s, step, b);
    } else if Inner(step) {
      EndedGainsNothing(s, step);
    }
  }

  lemma EndedGainsNothing(s: Sys, step: Step)
    requires Inner(step) && Enabled(s, step) && s.bridges[step.b].closed && Ended(s.bridges[step.b])
    ensures Contribution(Local(s.bridges[step.b], step)) <= Contribution(s.bridges[step.b])
  {}

  // ---- leases ----

  predicate Expired(s: Sys, id: nat) {
    id < s.leases && (s.gate.lease.Some? ==> s.gate.lease.value.id != id)
  }

  lemma StepExpired(s: Sys, step: Step, id: nat)
    requires Enabled(s, step)
    ensures Expired(s, id) ==> Expired(Apply(s, step), id)
    ensures (s.gate.lease.Some? ==> s.gate.lease.value.id < s.leases) ==>
              (Apply(s, step).gate.lease.Some? ==> Apply(s, step).gate.lease.value.id < Apply(s, step).leases)
  {}

  lemma {:induction false} RunExpired(s: Sys, steps: seq<Step>, end: Sys, id: nat)
    requires Run(s, steps, end)
    ensures Expired(s, id) ==> Expired(end, id)
    ensures (s.gate.lease.Some? ==> s.gate.lease.value.id < s.leases) ==>
              (end.gate.lease.Some? ==> end.gate.lease.value.id < end.leases)
    decreases |steps|
  {
    if steps == [] {
    } else {
      StepExpired(s, steps[0], id);
      RunExpired(Apply(s, steps[0]), steps[1..], end, id);
    }
  }

  /** Over every run a lease that was given back never authorises anything again. */
  lemma ExpiredLeaseIsDead(prefix: seq<Step>, before: Sys, lease: Lease, steps: seq<Step>, end: Sys)
    requires Run(INIT, prefix, before) && before.gate.lease == Some(lease)
    requires Run(Apply(before, DrainEnd), steps, end)
    ensures !Authorized(end.gate, lease)
  {
    RunExpired(INIT, prefix, before, lease.id);
    RunExpired(Apply(before, DrainEnd), steps, end, lease.id);
  }
}

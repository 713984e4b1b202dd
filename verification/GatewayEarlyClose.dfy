// What a close under a running frontend pump breaks: `WebSocketGateway.close` closes bridges
// without waiting for their pumps.

module GatewayEarlyClose {
  import opened Prelude
  import opened Gateway
  import opened GatewayTokens
  import opened GatewayDrain
  import opened GatewayContinuations

  const ANY_KEY := IntKey(1)

  /** An entry of a bridge that was closed before it was registered. */
  predicate Stranded(s: Sys, b: nat, k: RequestKey, t: nat) {
    && b in s.bridges && s.bridges[b].closed && s.bridges[b].pump == Finished
    && k in s.bridges[b].pending && s.bridges[b].pending[k] == Mutation(t)
  }

  lemma StrandedStep(s: Sys, step: Step, b: nat, k: RequestKey, t: nat)
    requires Stranded(s, b, k, t) && Enabled(s, step)
    requires !(step.Settle? && step.b == b)
    ensures Stranded(Apply(s, step), b, k, t)
  {
    if !Touches(step, b) {
      UntouchedStays(s, step, b);
    } else if Inner(step) {
      StrandedLocal(s, step, k, t);
    }
  }

  lemma StrandedLocal(s: Sys, step: Step, k: RequestKey, t: nat)
    requires Inner(step) && !step.Settle? && Enabled(s, step) && Stranded(s, step.b, k, t)
    ensures var br := Local(s.bridges[step.b], step);
            br.closed && br.pump == Finished && k in br.pending && br.pending[k] == Mutation(t)
  {}

  lemma StrandedIsLive(s: Sys, owner: Owners, b: nat, k: RequestKey, t: nat)
    requires Owned(s, owner) && Stranded(s, b, k, t)
    ensures t in s.live && s.gate.active > 0
  {
    OwnedHolds(s, owner, AtBridge(b, AtEntry(k)), t);
    assert Keeps(s.bridges[b], AtEntry(k), t);
  }

  /** A token registered after an early close stays live for as long as no response is
      processed on that (closed) connection: no later close takes it back. */
  lemma {:induction false} StrandedTokenStays(s: Sys, owner: Owners, steps: seq<Step>, end: Sys,
                                              b: nat, k: RequestKey, t: nat)
    requires Owned(s, owner) && Stranded(s, b, k, t) && Run(s, steps, end)
    requires forall step <- steps :: !(step.Settle? && step.b == b)
    ensures Stranded(end, b, k, t) && t in end.live && end.gate.active > 0
    decreases |steps|
  {
    if steps == [] {
      StrandedIsLive(s, owner, b, k, t);
    } else {
      StepOwned(s, owner, steps[0]);
      StrandedStep(s, steps[0], b, k, t);
      StrandedTokenStays(Apply(s, steps[0]), Handover(s, owner, steps[0]), steps[1..], end, b, k, t);
    }
  }

  // ---- what a close under the pump leaves ----

  /** A state in which bridge `b` has just been closed under its pump. */
  ghost predicate JustClosed(s: Sys, b: nat) {
    Sane(s) && b in s.bridges && s.bridges[b].closed && s.bridges[b].pending == map[]
  }

  lemma CloseJustNow(prefix: seq<Step>, s: Sys, b: nat)
    requires Run(INIT, prefix, s) && Enabled(s, EarlyClose(b))
    ensures JustClosed(Apply(s, EarlyClose(b)), b)
  {
    InitSane();
    RunSane(INIT, prefix, s);
    StepSane(s, EarlyClose(b));
  }

  /** Everything else can run down and the closed bridge let go of its tokens. */
  lemma RunsDownAroundPump(s: Sys, b: nat) returns (end: Sys)
    requires JustClosed(s, b)
    ensures Leads(s, end) && Sane(end) && b in end.bridges && Alone(end, b)
    ensures end.bridges[b] == s.bridges[b].(closing := {}, popper := None) && Cleared(end.bridges[b])
  {
    var s1 := RestRunsDown(s, b);
    end := HandsLetGo(s1, b);
    OnlyKeepsAlone(s1, end, b);
    LeadsFurther(s, s1, end);
    LeadsSane(s, end);
  }

  /** ... and its pump come round to the next request while the gate stands open. */
  lemma ComesRoundToOpenGate(s: Sys, b: nat) returns (end: Sys)
    requires Sane(s) && b in s.bridges && Alone(s, b) && Cleared(s.bridges[b]) && Running(s.bridges[b].pump)
    ensures Leads(s, end) && Open(end, b) && Cleared(end.bridges[b]) && end.bridges[b].pump == Idle
    ensures Outstanding(s.bridges[b]) <= Outstanding(end.bridges[b])
    ensures AboutToSend(s.bridges[b].pump) ==> Outstanding(end.bridges[b]) != multiset{}
  {
    var s1 := PumpComesRound(s, b);
    OnlyKeepsAlone(s, s1, b);
    LeadsSane(s, s1);
    end := GateReopens(s1, b);
    LeadsFurther(s, s1, end);
  }

  lemma EntersOpenGate(s: Sys, b: nat, key: RequestKey) returns (end: Sys)
    requires Open(s, b) && Cleared(s.bridges[b]) && s.bridges[b].pump == Idle
    ensures Leads(s, end) && Only(s, end, b)
    ensures end.bridges[b] == s.bridges[b].(pump := Entered(s.issued, Some(key)))
  {
    var s1 := Apply(s, AdmitMutation(b, Some(key)));
    OnlyHere(s, AdmitMutation(b, Some(key)), b);
    end := Apply(s1, EnterGate(b));
    OnlyHere(s1, EnterGate(b), b);
    LeadsOnce(s1, EnterGate(b));
    LeadsOn(s, AdmitMutation(b, Some(key)), end);
  }

  /** The idle pump takes a mutating request with any key it likes and registers it, in a bridge
      that nobody will close any more. */
  lemma RegistersAfterClose(s: Sys, b: nat, key: RequestKey) returns (end: Sys)
    requires Open(s, b) && Cleared(s.bridges[b]) && s.bridges[b].pump == Idle
    ensures Leads(s, end) && Only(s, end, b)
    ensures end.bridges[b] == s.bridges[b].(pending := map[key := Mutation(s.issued)], pump := Published(s.issued, key))
  {
    var s1 := EntersOpenGate(s, b, key);
    end := Registers(s1, b);
    LeadsFurther(s, s1, end);
  }

  // ---- drain safety ----

  predicate Breached(s: Sys) {
    s.gate.lease.Some? && !s.gate.lease.value.force && s.sent > s.granted
  }

  /** Whatever handlers, pumps and drainers do from here on, no request outside the allow-list is
      sent under an unforced lease. */
  ghost predicate DrainKept(s: Sys) {
    forall end | Leads(s, end) && end.gate.lease.Some? && !end.gate.lease.value.force :: end.sent == end.granted
  }

  /** A registered request whose token is gone: the drain is granted before the send. */
  lemma SendsUnderLease(s: Sys, b: nat) returns (end: Sys)
    requires Open(s, b) && s.bridges[b].pump.Published?
    ensures Leads(s, end) && Breached(end)
  {
    var s1 := Apply(s, DrainBegin(false));
    var s2 := Apply(s1, DrainGrant);
    end := Apply(s2, SendMutation(b));
    LeadsOnce(s2, SendMutation(b));
    LeadsOn(s1, DrainGrant, end);
    LeadsOn(s, DrainBegin(false), end);
  }

  /** The late response to an earlier call takes the entry of the request that reuses its key. */
  lemma LateResponseBreaches(s: Sys, b: nat, call: Call) returns (end: Sys)
    requires Open(s, b) && Cleared(s.bridges[b]) && s.bridges[b].pump == Idle && call in Outstanding(s.bridges[b])
    ensures Leads(s, end) && Breached(end)
  {
    var s1 := RegistersAfterClose(s, b, call.key);
    assert s1.bridges[b].pending.Keys == {call.key};
    var s2 := ResponseClears(s1, b, call);
    OnlyKeepsAlone(s, s1, b);
    OnlyKeepsAlone(s1, s2, b);
    LeadsFurther(s, s1, s2);
    LeadsSane(s, s2);
    NothingHeld(s2, b);
    end := SendsUnderLease(s2, b);
    LeadsFurther(s, s2, end);
  }

  lemma UngentleBreaches(s: Sys, b: nat) returns (end: Sys)
    requires JustClosed(s, b) && Running(s.bridges[b].pump)
    requires Outstanding(s.bridges[b]) != multiset{} || AboutToSend(s.bridges[b].pump)
    ensures Leads(s, end) && Breached(end)
  {
    var s1 := RunsDownAroundPump(s, b);
    assert Outstanding(s1.bridges[b]) == Outstanding(s.bridges[b]);
    if s1.bridges[b].pump.Published? {
      var s2 := GateReopens(s1, b);
      end := SendsUnderLease(s2, b);
      LeadsFurther(s1, s2, end);
    } else {
      var s2 := ComesRoundToOpenGate(s1, b);
      var call :| call in Outstanding(s2.bridges[b]);
      end := LateResponseBreaches(s2, b, call);
      LeadsFurther(s1, s2, end);
    }
    LeadsFurther(s, s1, end);
  }

  lemma GentleKeepsDrain(prefix: seq<Step>, s: Sys, b: nat, end: Sys)
    requires Run(INIT, prefix, s) && GentleRun(INIT, prefix) && Enabled(s, EarlyClose(b)) && GentleClose(s.bridges[b])
    requires Leads(Apply(s, EarlyClose(b)), end) && end.gate.lease.Some? && !end.gate.lease.value.force
    ensures end.sent == end.granted
  {
    InitSafe();
    var owner := RunSafe(INIT, map[], prefix, s);
    var step := EarlyClose(b);
    StepSafe(s, owner, step);
    var steps :| Run(Apply(s, step), steps, end) && HandlerRun(steps);
    HandlerRunIsGentle(Apply(s, step), steps, end);
    var owner' := RunSafe(Apply(s, step), Handover(s, owner, step), steps, end);
  }

  /** The exact condition on a close under a running pump, as long as earlier ones were gentle:
      afterwards no unforced drain is ever broken if and only if the pump was ending, or no call
      was outstanding and the pump did not stand between registering a keyed request and sending
      it. */
  lemma EarlyCloseExact(prefix: seq<Step>, s: Sys, b: nat)
    requires Run(INIT, prefix, s) && GentleRun(INIT, prefix) && Enabled(s, EarlyClose(b))
    ensures DrainKept(Apply(s, EarlyClose(b))) <==> GentleClose(s.bridges[b])
  {
    var closed := Apply(s, EarlyClose(b));
    if GentleClose(s.bridges[b]) {
      forall end | Leads(closed, end) && end.gate.lease.Some? && !end.gate.lease.value.force
        ensures end.sent == end.granted
      {
        GentleKeepsDrain(prefix, s, b, end);
      }
    } else {
      CloseJustNow(prefix, s, b);
      assert Outstanding(closed.bridges[b]) == Outstanding(s.bridges[b]);
      var end := UngentleBreaches(closed, b);
      assert !DrainKept(closed);
    }
  }

  // ---- stranded tokens ----

  /** No mutation entry is ever left behind in the closed bridge by a pump that has ended. */
  ghost predicate NeverStrands(s: Sys, b: nat) {
    forall end, k, t | Leads(s, end) :: !Stranded(end, b, k, t)
  }

  lemma {:induction false} RunQuiet(s: Sys, steps: seq<Step>, end: Sys, b: nat)
    requires Run(s, steps, end) && b in s.bridges && Quiet(s.bridges[b])
    ensures b in end.bridges && Quiet(end.bridges[b])
    decreases |steps|
  {
    if steps != [] {
      QuietKept(s, steps[0], b);
      RunQuiet(Apply(s, steps[0]), steps[1..], end, b);
    }
  }

  /** The registered request is sent and the pump stops. */
  lemma SentAndStopped(s: Sys, b: nat, k: RequestKey, t: nat) returns (end: Sys)
    requires b in s.bridges && s.bridges[b].closed && s.bridges[b].pump == Published(t, k)
    requires s.bridges[b].pending == map[k := Mutation(t)]
    ensures Leads(s, end) && Stranded(end, b, k, t)
  {
    var sent := Apply(s, SendMutation(b));
    end := Apply(sent, PumpStop(b));
    LeadsOnce(sent, PumpStop(b));
    LeadsOn(s, SendMutation(b), end);
  }

  lemma RunningStrands(s: Sys, b: nat) returns (end: Sys, t: nat)
    requires JustClosed(s, b) && Running(s.bridges[b].pump)
    ensures Leads(s, end) && Stranded(end, b, ANY_KEY, t)
  {
    var s1 := RunsDownAroundPump(s, b);
    var s2 := ComesRoundToOpenGate(s1, b);
    var s3 := RegistersAfterClose(s2, b, ANY_KEY);
    t := s2.issued;
    end := SentAndStopped(s3, b, ANY_KEY, t);
    LeadsFurther(s2, s3, end);
    LeadsFurther(s1, s2, end);
    LeadsFurther(s, s1, end);
  }

  /** After any run at all, a close under a running pump can leave a token behind if and only if
      the pump was not ending. */
  lemma StrandingExact(prefix: seq<Step>, s: Sys, b: nat)
    requires Run(INIT, prefix, s) && Enabled(s, EarlyClose(b))
    ensures NeverStrands(Apply(s, EarlyClose(b)), b) <==> Ending(s.bridges[b].pump)
  {
    var closed := Apply(s, EarlyClose(b));
    if Ending(s.bridges[b].pump) {
      forall end, k, t | Leads(closed, end) ensures !Stranded(end, b, k, t) {
        var steps :| Run(closed, steps, end) && HandlerRun(steps);
        RunQuiet(closed, steps, end, b);
      }
    } else {
      CloseJustNow(prefix, s, b);
      var end, t := RunningStrands(closed, b);
      assert !NeverStrands(closed, b);
    }
  }

  // ---- two runs ----

  /** One bridge, connected, whose pump has just entered the gate. */
  lemma EntryReached() returns (s: Sys)
    ensures Leads(INIT, s) && 0 in s.bridges
    ensures s.bridges[0] == NEW_BRIDGE.(pump := Entered(0, Some(ANY_KEY)))
  {
    var s1 := AdmissionReached();
    s := Apply(s1, EnterGate(0));
    LeadsOnce(s1, EnterGate(0));
    LeadsFurther(INIT, s1, s);
  }

  lemma AdmissionReached() returns (s: Sys)
    ensures Leads(INIT, s) && 0 in s.bridges && s.gate == INIT.gate && s.issued == 0
    ensures s.bridges[0] == NEW_BRIDGE.(pump := MutReady(Some(ANY_KEY)))
  {
    var s1 := Apply(INIT, Connect(0));
    s := Apply(s1, AdmitMutation(0, Some(ANY_KEY)));
    LeadsOnce(s1, AdmitMutation(0, Some(ANY_KEY)));
    LeadsOn(INIT, Connect(0), s);
  }

  lemma ClosesUnderPump(s: Sys, b: nat) returns (closed: Sys)
    requires Leads(INIT, s) && b in s.bridges && !s.bridges[b].closed && s.bridges[b].pump != Finished
    ensures Enabled(s, EarlyClose(b)) && closed == Apply(s, EarlyClose(b))
    ensures JustClosed(closed, b) && closed.bridges[b].pump == s.bridges[b].pump
  {
    var prefix :| Run(INIT, prefix, s) && HandlerRun(prefix);
    closed := Apply(s, EarlyClose(b));
    CloseJustNow(prefix, s, b);
  }

  /** ... and then registered its request. */
  lemma RegistrationReached() returns (s: Sys)
    ensures Leads(INIT, s) && 0 in s.bridges
    ensures s.bridges[0] == NEW_BRIDGE.(pending := map[ANY_KEY := Mutation(0)], pump := Published(0, ANY_KEY))
  {
    var s1 := EntryReached();
    s := Apply(s1, PublishMutation(0));
    LeadsOnce(s1, PublishMutation(0));
    LeadsFurther(INIT, s1, s);
  }

  /** The pump has registered a request, the bridge is closed under it, and only under a lease
      granted after that does the request reach the backend. */
  lemma EarlyCloseBreaksDrain() returns (before: Sys, end: Sys)
    ensures Leads(INIT, before) && Enabled(before, EarlyClose(0)) && before.bridges[0].pump.Published?
    ensures Leads(Apply(before, EarlyClose(0)), end) && Breached(end)
  {
    before := RegistrationReached();
    var closed := ClosesUnderPump(before, 0);
    end := UngentleBreaches(closed, 0);
  }

  /** The bridge is closed between the gate and the registration, and the entry registered after
      that stays behind. */
  lemma EarlyCloseStrands() returns (before: Sys, end: Sys, t: nat)
    ensures Leads(INIT, before) && Enabled(before, EarlyClose(0)) && before.bridges[0].pump.Entered?
    ensures Leads(Apply(before, EarlyClose(0)), end) && Stranded(end, 0, ANY_KEY, t)
  {
    before := EntryReached();
    var closed := ClosesUnderPump(before, 0);
    end, t := RunningStrands(closed, 0);
  }
}

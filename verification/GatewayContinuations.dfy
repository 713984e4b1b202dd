// What can always still happen: bridges run down, broker calls return and the gate opens again,
// whatever state the gateway is in. Used to show that a close under a running pump that is not
// gentle really does break the drain.

module GatewayContinuations {
  import opened Prelude
  import opened Gateway
  import opened GatewayTokens
  import opened GatewayDrain

  /** Some run without further closes under a running pump leads from `s` to `end`. */
  ghost predicate Leads(s: Sys, end: Sys) {
    exists steps :: Run(s, steps, end) && HandlerRun(steps)
  }

  lemma LeadsNowhere(s: Sys)
    ensures Leads(s, s)
  {
    assert Run(s, [], s) && HandlerRun([]);
  }

  lemma LeadsOn(s: Sys, step: Step, end: Sys)
    requires Enabled(s, step) && !step.EarlyClose? && Leads(Apply(s, step), end)
    ensures Leads(s, end)
  {
    var rest :| Run(Apply(s, step), rest, end) && HandlerRun(rest);
    var steps := [step] + rest;
    assert steps[1..] == rest;
    assert Run(s, steps, end) && HandlerRun(steps);
  }

  lemma LeadsOnce(s: Sys, step: Step)
    requires Enabled(s, step) && !step.EarlyClose?
    ensures Leads(s, Apply(s, step))
  {
    LeadsNowhere(Apply(s, step));
    LeadsOn(s, step, Apply(s, step));
  }

  lemma {:induction false} RunsLead(s: Sys, steps: seq<Step>, middle: Sys, end: Sys)
    requires Run(s, steps, middle) && HandlerRun(steps) && Leads(middle, end)
    ensures Leads(s, end)
    decreases |steps|
  {
    if steps != [] {
      RunsLead(Apply(s, steps[0]), steps[1..], middle, end);
      LeadsOn(s, steps[0], end);
    }
  }

  lemma LeadsFurther(s: Sys, middle: Sys, end: Sys)
    requires Leads(s, middle) && Leads(middle, end)
    ensures Leads(s, end)
  {
    var steps :| Run(s, steps, middle) && HandlerRun(steps);
    RunsLead(s, steps, middle, end);
  }

  // ---- what every run keeps ----

  predicate GateOk(s: Sys) {
    && (s.gate.draining <==> s.waiting.Some? || s.gate.lease.Some?)
    && !(s.waiting.Some? && s.gate.lease.Some?)
  }

  /** Every mutation entry is the pump's own request, not sent yet or its send failed, or its
      call is outstanding: a response can still take it out. */
  ghost predicate Backed(br: Bridge) {
    forall k <- br.pending :: br.pending[k].Mutation? ==> Call(k, true) in Outstanding(br) || OwnEntry(br.pump, k, br.pending[k])
  }

  predicate OwnEntry(p: Pump, k: RequestKey, entry: Pending) {
    (p.Published? || p.MutFailed?) && p.id == k && entry == Mutation(p.token)
  }

  ghost predicate AllBacked(s: Sys) {
    forall b <- s.bridges :: Backed(s.bridges[b])
  }

  ghost predicate Sane(s: Sys) {
    GateOk(s) && AllBacked(s) && exists owner :: Owned(s, owner)
  }

  lemma EntriesStayBacked(br: Bridge, br': Bridge)
    requires Backed(br) && Outstanding(br) <= Outstanding(br')
    requires forall k <- br'.pending :: br'.pending[k].Mutation? ==>
               || OwnEntry(br'.pump, k, br'.pending[k])
               || (k in br.pending && br.pending[k] == br'.pending[k] && !OwnEntry(br.pump, k, br.pending[k]))
               || Call(k, true) in Outstanding(br')
    ensures Backed(br')
  {}

  lemma SettleBacked(br: Bridge, step: Step)
    requires step.Settle? && step.call in br.answers && Backed(br)
    ensures Backed(Local(br, step))
  {
    SettledBridge(br, step);
  }

  lemma RetractBacked(br: Bridge, step: Step)
    requires step.RetractMutation? && br.pump.MutFailed? && Backed(br)
    ensures Backed(Local(br, step))
  {
    EntriesStayBacked(br, Local(br, step));
  }

  lemma ReadStepBacked(br: Bridge, step: Step)
    requires ReadStep(step) && Backed(br) && !br.pump.Published? && !br.pump.MutFailed?
    ensures Backed(Local(br, step))
  {
    ReadStepEntries(br, step);
    EntriesStayBacked(br, Local(br, step));
  }

  /** The steps of a read change no mutation entry and lose no call. */
  lemma ReadStepEntries(br: Bridge, step: Step)
    requires ReadStep(step)
    ensures Outstanding(br) <= Outstanding(Local(br, step))
    ensures forall k <- Local(br, step).pending ::
              Local(br, step).pending[k].Mutation? ==> k in br.pending && br.pending[k] == Local(br, step).pending[k]
  {}

  lemma PumpStepBacked(br: Bridge, step: Step)
    requires step.AdmitMutation? || step.FailMutation? || step.PumpStop?
    requires step.AdmitMutation? || step.PumpStop? ==> br.pump == Idle
    requires Backed(br)
    ensures Backed(Local(br, step))
  {
    EntriesStayBacked(br, Local(br, step));
  }

  lemma PublishBacked(br: Bridge, step: Step)
    requires step.PublishMutation? && Backed(br)
    ensures Backed(Local(br, step))
  {
    EntriesStayBacked(br, Local(br, step));
  }

  lemma AnswerBacked(br: Bridge, step: Step)
    requires step.Answer? && step.call in br.unanswered && Backed(br)
    ensures Backed(Local(br, step))
  {
    assert Outstanding(Local(br, step)) == Outstanding(br);
  }

  lemma InnerBacked(s: Sys, step: Step)
    requires Inner(step) && Enabled(s, step) && Backed(s.bridges[step.b])
    ensures Backed(Local(s.bridges[step.b], step))
  {
    var br := s.bridges[step.b];
    if ReadStep(step) {
      ReadStepBacked(br, step);
    } else if step.Settle? {
      SettleBacked(br, step);
    } else if step.RetractMutation? {
      RetractBacked(br, step);
    } else if step.Answer? {
      AnswerBacked(br, step);
    } else if step.PublishMutation? {
      PublishBacked(br, step);
    } else if !step.HandlerClose? && !step.EarlyClose? {
      PumpStepBacked(br, step);
    }
  }

  lemma SendBacked(br: Bridge)
    requires Backed(br) && MaySendMutation(br.pump)
    ensures Backed(AfterSend(br))
  {
    EntriesStayBacked(br, AfterSend(br));
  }

  lemma HandBacked(s: Sys, step: Step)
    requires HandStep(step) && Enabled(s, step) && Backed(s.bridges[step.b])
    ensures Backed(Apply(s, step).bridges[step.b])
  {
    EntriesStayBacked(s.bridges[step.b], Apply(s, step).bridges[step.b]);
  }

  lemma StepBacked(s: Sys, step: Step)
    requires AllBacked(s) && Enabled(s, step)
    ensures AllBacked(Apply(s, step))
  {
    forall b | b in Apply(s, step).bridges ensures Backed(Apply(s, step).bridges[b]) {
      if !Touches(step, b) {
        UntouchedBridge(s, step, b);
      } else if Inner(step) {
        InnerBacked(s, step);
      } else if step.SendMutation? {
        SendBacked(s.bridges[b]);
      } else if !step.Connect? {
        HandBacked(s, step);
      }
    }
  }

  lemma GateStep(s: Sys, step: Step)
    requires GateOk(s) && Enabled(s, step)
    ensures GateOk(Apply(s, step))
  {}

  lemma StepSane(s: Sys, step: Step)
    requires Sane(s) && Enabled(s, step)
    ensures Sane(Apply(s, step))
  {
    var owner :| Owned(s, owner);
    GateStep(s, step);
    StepBacked(s, step);
    StepOwned(s, owner, step);
  }

  lemma {:induction false} RunSane(s: Sys, steps: seq<Step>, end: Sys)
    requires Sane(s) && Run(s, steps, end)
    ensures Sane(end)
    decreases |steps|
  {
    if steps != [] {
      StepSane(s, steps[0]);
      RunSane(Apply(s, steps[0]), steps[1..], end);
    }
  }

  lemma InitSane()
    ensures Sane(INIT)
  {
    InitOwned();
  }

  lemma LeadsSane(s: Sys, end: Sys)
    requires Sane(s) && Leads(s, end)
    ensures Sane(end)
  {
    var steps :| Run(s, steps, end) && HandlerRun(steps);
    RunSane(s, steps, end);
  }

  // ---- the steps of one bridge ----

  /** Only bridge `b` moved, and the gate neither opened nor closed. */
  ghost predicate Only(s: Sys, end: Sys, b: nat) {
    && b in s.bridges && end.bridges.Keys == s.bridges.Keys
    && (forall x <- s.bridges :: x != b ==> end.bridges[x] == s.bridges[x])
    && end.broker == s.broker && end.waiting == s.waiting
    && end.gate.draining == s.gate.draining && end.gate.lease == s.gate.lease
  }

  lemma OnlyHere(s: Sys, step: Step, b: nat)
    requires Enabled(s, step) && Touches(step, b) && !step.Connect?
    ensures Only(s, Apply(s, step), b)
  {}

  /** No token in the pending map or in any thread's hand. */
  predicate Bare(br: Bridge) {
    (forall k <- br.pending :: br.pending[k] == Read) && br.popper.None? && br.closing == {} && !br.pump.Entered? && !br.pump.Releasing?
  }

  /** How far the pump is from its end, when every send fails. */
  function Distance(p: Pump): nat {
    match p
    case Finished => 0
    case Idle => 1
    case ReadFailed(_) => 1
    case Releasing(_, _) => 2
    case ReadPublished(_) => 2
    case MutFailed(_, _) => 3
    case ReadReady(_) => 3
    case Published(_, _) => 4
    case Entered(_, _) => 5
    case MutReady(_) => 6
  }

  function Downward(p: Pump, b: nat): Step {
    match p
    case Finished => PumpStop(b)
    case Idle => PumpStop(b)
    case ReadFailed(_) => RetractRead(b)
    case Releasing(_, _) => PumpRelease(b)
    case ReadPublished(_) => FailRead(b)
    case MutFailed(_, _) => RetractMutation(b)
    case ReadReady(_) => PublishRead(b)
    case Published(_, _) => FailMutation(b)
    case Entered(_, key) => if key.Some? then PublishMutation(b) else FailMutation(b)
    case MutReady(_) => EnterGate(b)
  }

  ghost predicate MovesDown(s: Sys, b: nat, step: Step)
    requires b in s.bridges
  {
    && Enabled(s, step) && !step.EarlyClose? && Touches(step, b) && !step.Connect?
    && b in Apply(s, step).bridges
    && Distance(Apply(s, step).bridges[b].pump) < Distance(s.bridges[b].pump)
    && Apply(s, step).bridges[b].closed == s.bridges[b].closed
  }

  lemma InnerMovesDown(s: Sys, b: nat, step: Step)
    requires b in s.bridges && s.bridges[b].pump != Finished && step == Downward(s.bridges[b].pump, b)
    requires !step.PumpRelease? && !step.EnterGate?
    ensures MovesDown(s, b, step)
  {
    InnerKeepsGate(s, step);
    LocalMovesDown(s.bridges[b], b, step);
  }

  lemma LocalMovesDown(br: Bridge, b: nat, step: Step)
    requires br.pump != Finished && step == Downward(br.pump, b)
    requires !step.PumpRelease? && !step.EnterGate?
    ensures Distance(Local(br, step).pump) < Distance(br.pump) && Local(br, step).closed == br.closed
  {
    if br.pump.Entered? || br.pump.Published? || br.pump.MutFailed? {
      MutationMovesDown(br, b);
    } else {
      ReadMovesDown(br, b);
    }
  }

  lemma ReadMovesDown(br: Bridge, b: nat)
    requires br.pump == Idle || br.pump.ReadFailed? || br.pump.ReadPublished? || br.pump.ReadReady?
    ensures var br' := Local(br, Downward(br.pump, b)); Distance(br'.pump) < Distance(br.pump) && br'.closed == br.closed
  {
    match br.pump {
      case Idle => assert Downward(br.pump, b) == PumpStop(b);
      case ReadFailed(_) => assert Downward(br.pump, b) == RetractRead(b);
      case ReadPublished(_) => assert Downward(br.pump, b) == FailRead(b);
      case ReadReady(_) => assert Downward(br.pump, b) == PublishRead(b);
    }
  }

  lemma MutationMovesDown(br: Bridge, b: nat)
    requires br.pump.Entered? || br.pump.Published? || br.pump.MutFailed?
    ensures var br' := Local(br, Downward(br.pump, b)); Distance(br'.pump) < Distance(br.pump) && br'.closed == br.closed
  {
    match br.pump {
      case Published(_, _) => assert Downward(br.pump, b) == FailMutation(b);
      case MutFailed(_, _) => assert Downward(br.pump, b) == RetractMutation(b);
      case Entered(_, key) =>
        assert Downward(br.pump, b) == if key.Some? then PublishMutation(b) else FailMutation(b);
    }
  }

  lemma DownwardMoves(s: Sys, b: nat)
    requires b in s.bridges && s.bridges[b].pump != Finished
    ensures MovesDown(s, b, Downward(s.bridges[b].pump, b))
  {
    var step := Downward(s.bridges[b].pump, b);
    if !step.PumpRelease? && !step.EnterGate? {
      InnerMovesDown(s, b, step);
    }
  }

  /** The pump of any bridge can come to its end. */
  lemma {:induction false} PumpEnds(s: Sys, b: nat) returns (end: Sys)
    requires b in s.bridges
    ensures Leads(s, end) && Only(s, end, b)
    ensures end.bridges[b].pump == Finished && end.bridges[b].closed == s.bridges[b].closed
    decreases Distance(s.bridges[b].pump)
  {
    if s.bridges[b].pump == Finished {
      end := s;
      LeadsNowhere(s);
    } else {
      var step := Downward(s.bridges[b].pump, b);
      DownwardMoves(s, b);
      OnlyHere(s, step, b);
      end := PumpEnds(Apply(s, step), b);
      LeadsOn(s, step, end);
    }
  }

  /** Closers and the backend pump can let go of what they hold. */
  lemma {:induction false} HandsLetGo(s: Sys, b: nat) returns (end: Sys)
    requires b in s.bridges
    ensures Leads(s, end) && Only(s, end, b) && end.sent == s.sent
    ensures end.bridges[b] == s.bridges[b].(closing := {}, popper := None)
    decreases |s.bridges[b].closing|, s.bridges[b].popper.Some?
  {
    var br := s.bridges[b];
    if br.popper.Some? {
      OnlyHere(s, PopperRelease(b), b);
      end := HandsLetGo(Apply(s, PopperRelease(b)), b);
      LeadsOn(s, PopperRelease(b), end);
    } else if br.closing != {} {
      var t :| t in br.closing;
      OnlyHere(s, CloserRelease(b, t), b);
      end := HandsLetGo(Apply(s, CloserRelease(b, t)), b);
      LeadsOn(s, CloserRelease(b, t), end);
    } else {
      end := s;
      LeadsNowhere(s);
    }
  }

  lemma ClosesIfOpen(s: Sys, b: nat) returns (end: Sys)
    requires b in s.bridges && s.bridges[b].pump == Finished
    ensures Leads(s, end) && Only(s, end, b)
    ensures end.bridges[b].pump == Finished && end.bridges[b].closed
  {
    if s.bridges[b].closed {
      end := s;
      LeadsNowhere(s);
    } else {
      end := Apply(s, HandlerClose(b));
      LeadsOnce(s, HandlerClose(b));
      OnlyHere(s, HandlerClose(b), b);
    }
  }

  lemma AnswerArrives(s: Sys, b: nat, call: Call) returns (end: Sys)
    requires b in s.bridges && call in Outstanding(s.bridges[b])
    ensures Leads(s, end) && Only(s, end, b) && call in end.bridges[b].answers
    ensures end.bridges[b] == s.bridges[b].(unanswered := end.bridges[b].unanswered, answers := end.bridges[b].answers)
    ensures Outstanding(end.bridges[b]) == Outstanding(s.bridges[b])
  {
    if call in s.bridges[b].answers {
      end := s;
      LeadsNowhere(s);
    } else {
      end := Apply(s, Answer(b, call));
      OnlyHere(s, Answer(b, call), b);
      LeadsOnce(s, Answer(b, call));
    }
  }

  /** The response to an outstanding call arrives and is processed. */
  lemma ResponseArrives(s: Sys, b: nat, call: Call) returns (end: Sys)
    requires b in s.bridges && call in Outstanding(s.bridges[b]) && s.bridges[b].popper.None?
    ensures Leads(s, end) && Only(s, end, b)
    ensures end.bridges[b].pending == s.bridges[b].pending - {call.key}
    ensures end.bridges[b].pump == s.bridges[b].pump && end.bridges[b].closed == s.bridges[b].closed
    ensures end.bridges[b].closing == s.bridges[b].closing
    ensures Outstanding(end.bridges[b]) == Outstanding(s.bridges[b]) - multiset{call}
  {
    var s1 := AnswerArrives(s, b, call);
    end := Apply(s1, Settle(b, call));
    OnlyHere(s1, Settle(b, call), b);
    SettledBridge(s1.bridges[b], Settle(b, call));
    LeadsOnce(s1, Settle(b, call));
    LeadsFurther(s, s1, end);
  }

  /** Late responses take every mutation entry out of a bridge whose pump has ended. */
  lemma {:induction false} EntriesAreAnswered(s: Sys, b: nat) returns (end: Sys)
    requires Sane(s) && b in s.bridges && s.bridges[b].pump == Finished
    ensures Leads(s, end) && Only(s, end, b) && Bare(end.bridges[b])
    decreases |s.bridges[b].pending|
  {
    var s1 := HandsLetGo(s, b);
    if k :| k in s1.bridges[b].pending && s1.bridges[b].pending[k] != Read {
      assert Backed(s.bridges[b]);
      var s2 := ResponseArrives(s1, b, Call(k, true));
      LeadsFurther(s, s1, s2);
      LeadsSane(s, s2);
      FewerEntries(s1.bridges[b].pending, k);
      end := EntriesAreAnswered(s2, b);
      LeadsFurther(s, s2, end);
    } else {
      end := s1;
    }
  }

  lemma FewerEntries(pending: map<RequestKey, Pending>, k: RequestKey)
    requires k in pending
    ensures |pending - {k}| < |pending|
  {
    assert pending.Keys - {k} == (pending - {k}).Keys;
  }

  /** Any bridge can be run down until it holds no token, without moving anything else. */
  lemma BridgeRunsDown(s: Sys, b: nat) returns (end: Sys)
    requires Sane(s) && b in s.bridges
    ensures Leads(s, end) && Only(s, end, b) && Bare(end.bridges[b])
  {
    var s1 := PumpEnds(s, b);
    var s2 := ClosesIfOpen(s1, b);
    LeadsFurther(s, s1, s2);
    LeadsSane(s, s2);
    end := EntriesAreAnswered(s2, b);
    LeadsFurther(s, s2, end);
  }

  // ---- everything but one bridge ----

  /** Bridge `b` did not move, nor did the gate open or close. */
  ghost predicate Besides(s: Sys, end: Sys, b: nat) {
    && b in s.bridges && end.bridges.Keys == s.bridges.Keys && end.bridges[b] == s.bridges[b]
    && end.waiting == s.waiting
    && end.gate.draining == s.gate.draining && end.gate.lease == s.gate.lease
  }

  ghost predicate OthersBare(s: Sys, b: nat, except: set<nat>) {
    forall x <- s.bridges :: x == b || x in except || Bare(s.bridges[x])
  }

  lemma {:induction false} OthersRunDown(s: Sys, b: nat, others: set<nat>) returns (end: Sys)
    requires Sane(s) && b in s.bridges && b !in others && others <= s.bridges.Keys && OthersBare(s, b, others)
    ensures Leads(s, end) && Besides(s, end, b) && OthersBare(end, b, {}) && end.broker == s.broker
    decreases |others|
  {
    if others == {} {
      end := s;
      LeadsNowhere(s);
    } else {
      var x :| x in others;
      var next := BridgeRunsDown(s, x);
      LeadsSane(s, next);
      end := OthersRunDown(next, b, others - {x});
      LeadsFurther(s, next, end);
    }
  }

  lemma {:induction false} BrokerReturns(s: Sys, b: nat) returns (end: Sys)
    requires b in s.bridges
    ensures Leads(s, end) && Besides(s, end, b) && end.broker == {} && end.bridges == s.bridges
    decreases |s.broker|
  {
    if s.broker == {} {
      end := s;
      LeadsNowhere(s);
    } else {
      var t :| t in s.broker;
      end := BrokerReturns(Apply(s, BrokerExit(t)), b);
      LeadsOn(s, BrokerExit(t), end);
    }
  }

  /** Only bridge `b` can still hold tokens. */
  ghost predicate Alone(s: Sys, b: nat) {
    s.broker == {} && OthersBare(s, b, {})
  }

  lemma RestRunsDown(s: Sys, b: nat) returns (end: Sys)
    requires Sane(s) && b in s.bridges
    ensures Leads(s, end) && Besides(s, end, b) && Alone(end, b)
  {
    var s1 := OthersRunDown(s, b, s.bridges.Keys - {b});
    end := BrokerReturns(s1, b);
    LeadsFurther(s, s1, end);
  }

  lemma OnlyKeepsAlone(s: Sys, end: Sys, b: nat)
    requires Only(s, end, b) && Alone(s, b)
    ensures Alone(end, b)
  {}

  lemma NobodyHolds(s: Sys, b: nat, h: Holder, t: nat)
    requires b in s.bridges && Alone(s, b) && Bare(s.bridges[b])
    ensures !Holds(s, h, t)
  {
    if h.AtBridge? && h.b in s.bridges {
      assert Bare(s.bridges[h.b]);
    }
  }

  lemma LiveIsHeld(s: Sys, owner: Owners, t: nat)
    requires Owned(s, owner) && t in s.live
    ensures Holds(s, owner[t], t)
  {
    OwnedHolds(s, owner, owner[t], t);
  }

  lemma NothingHeld(s: Sys, b: nat)
    requires Sane(s) && b in s.bridges && Alone(s, b) && Bare(s.bridges[b])
    ensures s.live == {} && s.gate.active == 0
  {
    var owner: Owners :| Owned(s, owner);
    forall t ensures t !in s.live {
      if t in s.live {
        LiveIsHeld(s, owner, t);
        NobodyHolds(s, b, owner[t], t);
      }
    }
  }

  // ---- the gate ----

  /** The gate stands open and nothing is in flight. */
  ghost predicate Open(s: Sys, b: nat) {
    && Sane(s) && b in s.bridges && Alone(s, b) && Bare(s.bridges[b])
    && !s.gate.draining && s.gate.active == 0 && s.waiting.None? && s.gate.lease.None?
  }

  lemma GateReopens(s: Sys, b: nat) returns (end: Sys)
    requires Sane(s) && b in s.bridges && Alone(s, b) && Bare(s.bridges[b])
    ensures Leads(s, end) && Open(end, b) && end.bridges == s.bridges
  {
    NothingHeld(s, b);
    if s.waiting.Some? {
      var granted := Apply(s, DrainGrant);
      end := Apply(granted, DrainEnd);
      LeadsOnce(granted, DrainEnd);
      LeadsOn(s, DrainGrant, end);
    } else if s.gate.lease.Some? {
      end := Apply(s, DrainEnd);
      LeadsOnce(s, DrainEnd);
    } else {
      end := s;
      LeadsNowhere(s);
    }
    LeadsSane(s, end);
  }

  // ---- the pump of a bridge closed under it ----

  /** Closed, with nothing registered and nothing in a thread's hand. */
  predicate Cleared(br: Bridge) {
    br.closed && br.pending == map[] && br.popper.None? && br.closing == {}
  }

  predicate Running(p: Pump) {
    !Ending(p) && p != Finished
  }

  /** One more round of the pump on a cleared bridge: it is idle again, and of the calls that
      were outstanding none is lost. */
  ghost predicate Rounded(s: Sys, end: Sys, b: nat) {
    && Leads(s, end) && Only(s, end, b) && Cleared(end.bridges[b]) && end.bridges[b].pump == Idle
    && Outstanding(s.bridges[b]) <= Outstanding(end.bridges[b])
  }

  /** The response to the call of the only pending entry takes the entry out, and the token with
      it. */
  lemma ResponseClears(s: Sys, b: nat, call: Call) returns (end: Sys)
    requires b in s.bridges && s.bridges[b].closed && s.bridges[b].popper.None? && s.bridges[b].closing == {}
    requires call in Outstanding(s.bridges[b]) && s.bridges[b].pending.Keys == {call.key}
    ensures Leads(s, end) && Only(s, end, b) && Cleared(end.bridges[b]) && end.bridges[b].pump == s.bridges[b].pump
    ensures Outstanding(end.bridges[b]) == Outstanding(s.bridges[b]) - multiset{call}
  {
    var s1 := ResponseArrives(s, b, call);
    assert s1.bridges[b].pending == map[];
    end := HandsLetGo(s1, b);
    LeadsFurther(s, s1, end);
  }

  lemma ReadRound(s: Sys, b: nat) returns (end: Sys)
    requires b in s.bridges && Cleared(s.bridges[b]) && s.bridges[b].pump.ReadReady?
    ensures Rounded(s, end, b)
  {
    var key := s.bridges[b].pump.key;
    var s1 := SendsRead(s, b);
    if key.Some? {
      end := ResponseClears(s1, b, Call(key.value, false));
      LeadsFurther(s, s1, end);
    } else {
      end := s1;
    }
  }

  lemma SendsRead(s: Sys, b: nat) returns (end: Sys)
    requires b in s.bridges && Cleared(s.bridges[b]) && s.bridges[b].pump.ReadReady?
    ensures Leads(s, end) && Only(s, end, b)
    ensures var key, br := s.bridges[b].pump.key, end.bridges[b];
            && br.closed && br.popper.None? && br.closing == {} && br.pump == Idle
            && br.pending.Keys == (if key.Some? then {key.value} else {})
            && Outstanding(br) == Outstanding(s.bridges[b])
                                  + if key.Some? then multiset{Call(key.value, false)} else multiset{}
  {
    var s1 := PublishesRead(s, b);
    end := Apply(s1, SendRead(b));
    OnlyHere(s1, SendRead(b), b);
    LeadsOnce(s1, SendRead(b));
    LeadsFurther(s, s1, end);
  }

  lemma PublishesRead(s: Sys, b: nat) returns (end: Sys)
    requires b in s.bridges && Cleared(s.bridges[b]) && s.bridges[b].pump.ReadReady?
    ensures Leads(s, end) && Only(s, end, b)
    ensures var key, br := s.bridges[b].pump.key, end.bridges[b];
            br == s.bridges[b].(pending := br.pending, pump := ReadPublished(key))
            && br.pending.Keys == if key.Some? then {key.value} else {}
  {
    end := Apply(s, PublishRead(b));
    OnlyHere(s, PublishRead(b), b);
    LeadsOnce(s, PublishRead(b));
  }

  lemma EnteredRound(s: Sys, b: nat) returns (end: Sys)
    requires b in s.bridges && Cleared(s.bridges[b]) && s.bridges[b].pump.Entered?
    ensures Rounded(s, end, b)
  {
    if s.bridges[b].pump.key.Some? {
      var s1 := Registers(s, b);
      end := PublishedRound(s1, b);
      LeadsFurther(s, s1, end);
    } else {
      end := UnkeyedRound(s, b);
    }
  }

  lemma UnkeyedRound(s: Sys, b: nat) returns (end: Sys)
    requires b in s.bridges && Cleared(s.bridges[b]) && s.bridges[b].pump.Entered? && s.bridges[b].pump.key.None?
    ensures Rounded(s, end, b)
  {
    var s1 := SendsUnkeyed(s, b);
    end := GoesOn(s1, b);
    LeadsFurther(s, s1, end);
  }

  lemma SendsUnkeyed(s: Sys, b: nat) returns (end: Sys)
    requires b in s.bridges && s.bridges[b].pump.Entered? && s.bridges[b].pump.key.None?
    ensures Leads(s, end) && Only(s, end, b)
    ensures end.bridges[b] == s.bridges[b].(pump := Releasing(s.bridges[b].pump.token, false))
  {
    end := Apply(s, SendMutation(b));
    OnlyHere(s, SendMutation(b), b);
    LeadsOnce(s, SendMutation(b));
  }

  lemma GoesOn(s: Sys, b: nat) returns (end: Sys)
    requires b in s.bridges && s.bridges[b].pump.Releasing? && !s.bridges[b].pump.ends
    ensures Leads(s, end) && Only(s, end, b) && end.bridges[b] == s.bridges[b].(pump := Idle)
  {
    end := Apply(s, PumpRelease(b));
    OnlyHere(s, PumpRelease(b), b);
    LeadsOnce(s, PumpRelease(b));
  }

  lemma Registers(s: Sys, b: nat) returns (end: Sys)
    requires b in s.bridges && Cleared(s.bridges[b]) && s.bridges[b].pump.Entered? && s.bridges[b].pump.key.Some?
    ensures Leads(s, end) && Only(s, end, b)
    ensures var token, key := s.bridges[b].pump.token, s.bridges[b].pump.key.value;
            end.bridges[b] == s.bridges[b].(pending := map[key := Mutation(token)], pump := Published(token, key))
    ensures end.sent == s.sent
  {
    end := Apply(s, PublishMutation(b));
    OnlyHere(s, PublishMutation(b), b);
    LeadsOnce(s, PublishMutation(b));
  }

  lemma PublishedRound(s: Sys, b: nat) returns (end: Sys)
    requires b in s.bridges && s.bridges[b].pump.Published? && s.bridges[b].pending.Keys == {s.bridges[b].pump.id}
    requires s.bridges[b].closed && s.bridges[b].popper.None? && s.bridges[b].closing == {}
    ensures Rounded(s, end, b)
  {
    var call := Call(s.bridges[b].pump.id, true);
    var s1 := Apply(s, SendMutation(b));
    OnlyHere(s, SendMutation(b), b);
    assert Outstanding(s1.bridges[b]) == Outstanding(s.bridges[b]) + multiset{call};
    end := ResponseClears(s1, b, call);
    LeadsOn(s, SendMutation(b), end);
  }

  lemma GateRound(s: Sys, b: nat) returns (end: Sys)
    requires b in s.bridges && Cleared(s.bridges[b]) && s.bridges[b].pump.MutReady?
    ensures Rounded(s, end, b)
  {
    var s1 := Apply(s, EnterGate(b));
    OnlyHere(s, EnterGate(b), b);
    if s.gate.draining {
      end := s1;
      LeadsNowhere(s1);
    } else {
      end := EnteredRound(s1, b);
    }
    LeadsOn(s, EnterGate(b), end);
  }

  /** A running pump can come round to its next request. What it was about to send unregistered
      is outstanding then. */
  lemma PumpComesRound(s: Sys, b: nat) returns (end: Sys)
    requires b in s.bridges && Cleared(s.bridges[b]) && Running(s.bridges[b].pump)
    ensures Rounded(s, end, b)
    ensures AboutToSend(s.bridges[b].pump) ==> Outstanding(end.bridges[b]) != multiset{}
  {
    match s.bridges[b].pump {
      case Idle =>
        end := s;
        LeadsNowhere(s);
      case ReadReady(_) => end := ReadRound(s, b);
      case MutReady(_) => end := GateRound(s, b);
      case Entered(_, _) => end := EnteredRound(s, b);
      case ReadPublished(_) => end := SentOff(s, SendRead(b));
      case Published(_, _) => end := SentOff(s, SendMutation(b));
      case Releasing(_, _) =>
        end := GoesOn(s, b);
    }
  }

  lemma SentOff(s: Sys, step: Step) returns (end: Sys)
    requires step.SendRead? || step.SendMutation?
    requires Enabled(s, step) && Cleared(s.bridges[step.b])
    requires step.SendMutation? ==> s.bridges[step.b].pump.Published?
    ensures Rounded(s, end, step.b)
    ensures AboutToSend(s.bridges[step.b].pump) ==> Outstanding(end.bridges[step.b]) != multiset{}
  {
    end := Apply(s, step);
    OnlyHere(s, step, step.b);
    LeadsOnce(s, step);
    var pump := s.bridges[step.b].pump;
    if pump.Published? {
      assert Call(pump.id, true) in Outstanding(end.bridges[step.b]);
    } else if pump.key.Some? {
      assert Call(pump.key.value, false) in Outstanding(end.bridges[step.b]);
    }
  }
}

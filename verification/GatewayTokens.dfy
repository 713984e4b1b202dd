// Token conservation: every live mutation token has exactly one holder in every reachable
// state, the gate counts exactly the live tokens, and each token is released exactly once.

module GatewayTokens {
  import opened Prelude
  import opened MaintenanceGates
  import opened Gateway

  /** Where inside one bridge a token waits for its release. */
  datatype Place = AtPump | AtEntry(key: RequestKey) | AtPopper | AtCloser

  datatype Holder = Broker | AtBridge(b: nat, place: Place)

  predicate Keeps(br: Bridge, place: Place, t: nat) {
    match place
    case AtPump => (br.pump.Entered? || br.pump.Releasing?) && br.pump.token == t
    case AtEntry(k) => k in br.pending && br.pending[k] == Mutation(t)
    case AtPopper => br.popper == Some(t)
    case AtCloser => t in br.closing
  }

  predicate Holds(s: Sys, h: Holder, t: nat) {
    match h
    case Broker => t in s.broker
    case AtBridge(b, place) => b in s.bridges && Keeps(s.bridges[b], place, t)
  }

  /** The key the pump is about to register is still free. */
  predicate Fresh(br: Bridge) {
    br.pump.ReadReady? || br.pump.MutReady? || br.pump.Entered? ==> FreeKey(br, br.pump.key)
  }

  type Owners = map<nat, Holder>

  ghost predicate BridgeOwned(br: Bridge, b: nat, owner: Owners) {
    && (forall place, t :: Keeps(br, place, t) <==> t in owner && owner[t] == AtBridge(b, place))
    && Fresh(br)
  }

  /** The gate counts the tokens with a holder, and the broker holds its own. */
  ghost predicate Counted(s: Sys, owner: Owners) {
    && (forall t :: t in s.broker <==> t in owner && owner[t] == Broker)
    && (forall t <- owner :: t < s.issued && (owner[t].AtBridge? ==> owner[t].b in s.bridges))
    && owner.Keys == s.live
    && s.gate.active == |s.live|
  }

  ghost predicate Owned(s: Sys, owner: Owners) {
    Counted(s, owner) && forall b <- s.bridges :: BridgeOwned(s.bridges[b], b, owner)
  }

  /** Ownership in the sense of `Holds`: exactly one holder per live token. */
  lemma OwnedHolds(s: Sys, owner: Owners, h: Holder, t: nat)
    requires Owned(s, owner)
    ensures Holds(s, h, t) <==> t in owner && owner[t] == h
  {}

  /** The token a step takes out of the gate. */
  function Releases(s: Sys, step: Step): Option<nat>
    requires Enabled(s, step)
  {
    match step
    case BrokerExit(t) => Some(t)
    case PumpRelease(b) => Some(s.bridges[b].pump.token)
    case PopperRelease(b) => Some(s.bridges[b].popper.value)
    case CloserRelease(_, t) => Some(t)
    case _ => None
  }

  /** How one step hands tokens over. */
  function Handover(s: Sys, owner: Owners, step: Step): Owners
    requires Enabled(s, step)
  {
    if step.BrokerEnter? then owner[s.issued := Broker]
    else if step.EnterGate? && Enter(s.gate).Some? then owner[s.issued := AtBridge(step.b, AtPump)]
    else if Releases(s, step).Some? then owner - {Releases(s, step).value}
    else if Inner(step) then Within(s.bridges[step.b], step, owner)
    else owner
  }

  /** The steps on the gate alone, and new bridges. */
  predicate Whole(step: Step) {
    step.DrainBegin? || step.DrainGrant? || step.DrainEnd? || step.Connect? || step.SendMutation?
  }

  /** Handover inside one bridge. */
  function Within(br: Bridge, step: Step, owner: Owners): Owners
  {
    match step
    case PublishMutation(b) =>
      if br.pump.Entered? && br.pump.key.Some?
      then owner[br.pump.token := AtBridge(b, AtEntry(br.pump.key.value))] else owner
    case RetractMutation(b) =>
      if br.pump.MutFailed? && br.pump.id in br.pending && br.pending[br.pump.id] == Mutation(br.pump.token)
      then owner[br.pump.token := AtBridge(b, AtPump)] else owner
    case Settle(b, call) =>
      if call.key in br.pending && br.pending[call.key].Mutation?
      then owner[br.pending[call.key].token := AtBridge(b, AtPopper)] else owner
    case HandlerClose(b) => Collected(br, b, owner)
    case EarlyClose(b) => Collected(br, b, owner)
    case _ => owner
  }

  function Collected(br: Bridge, b: nat, owner: Owners): Owners {
    map t | t in owner :: if t in Tokens(br.pending) then AtBridge(b, AtCloser) else owner[t]
  }

  // ---- one bridge ----

  /** The steps that are one bridge's own business. */
  predicate Inner(step: Step) {
    && !step.BrokerEnter? && !step.BrokerExit? && !Whole(step) && !step.EnterGate?
    && !step.PumpRelease? && !step.PopperRelease? && !step.CloserRelease?
  }

  predicate ReadStep(step: Step) {
    step.AdmitRead? || step.PublishRead? || step.SendRead? || step.FailRead? || step.RetractRead?
  }

  /** Same tokens in the same places. */
  ghost predicate SameTokens(br: Bridge, br': Bridge) {
    && br.popper == br'.popper && br.closing == br'.closing
    && (forall t :: Keeps(br, AtPump, t) == Keeps(br', AtPump, t))
    && (forall k, t :: Keeps(br, AtEntry(k), t) == Keeps(br', AtEntry(k), t))
  }

  lemma SameTokensOwned(br: Bridge, br': Bridge, b: nat, owner: Owners)
    requires BridgeOwned(br, b, owner) && SameTokens(br, br') && Fresh(br')
    ensures BridgeOwned(br', b, owner)
  {
    forall place, t ensures Keeps(br', place, t) <==> t in owner && owner[t] == AtBridge(b, place) {
      assert Keeps(br', place, t) == Keeps(br, place, t);
    }
  }

  lemma PublishReadSame(br: Bridge, step: Step)
    requires step.PublishRead? && br.pump.ReadReady? && Fresh(br)
    ensures SameTokens(br, Local(br, step)) && Fresh(Local(br, step))
  {}

  lemma RetractReadSame(br: Bridge, step: Step)
    requires step.RetractRead? && br.pump.ReadFailed?
    ensures SameTokens(br, Local(br, step)) && Fresh(Local(br, step))
  {}

  lemma OtherReadSame(s: Sys, step: Step)
    requires step.AdmitRead? || step.SendRead? || step.FailRead?
    requires Enabled(s, step)
    ensures SameTokens(s.bridges[step.b], Local(s.bridges[step.b], step)) && Fresh(Local(s.bridges[step.b], step))
  {}

  lemma ReadStepsOwned(s: Sys, br: Bridge, step: Step, owner: Owners)
    requires ReadStep(step) && Enabled(s, step) && br == s.bridges[step.b] && BridgeOwned(br, step.b, owner)
    ensures BridgeOwned(Local(br, step), step.b, owner)
  {
    if step.PublishRead? {
      PublishReadSame(br, step);
    } else if step.RetractRead? {
      RetractReadSame(br, step);
    } else {
      OtherReadSame(s, step);
    }
    SameTokensOwned(br, Local(br, step), step.b, owner);
  }

  lemma FailMutationOwned(br: Bridge, step: Step, owner: Owners)
    requires step.FailMutation? && BridgeOwned(br, step.b, owner)
    ensures BridgeOwned(Local(br, step), step.b, owner)
  {
    SameTokensOwned(br, Local(br, step), step.b, owner);
  }

  lemma QuietStepsOwned(s: Sys, br: Bridge, step: Step, owner: Owners)
    requires step.AdmitMutation? || step.FailMutation? || step.PumpStop? || step.Answer?
    requires Enabled(s, step) && br == s.bridges[step.b] && BridgeOwned(br, step.b, owner)
    ensures BridgeOwned(Local(br, step), step.b, owner)
  {
    match step {
      case AdmitMutation(b, key) => SameTokensOwned(br, br.(pump := MutReady(key)), b, owner);
      case PumpStop(b) => SameTokensOwned(br, br.(pump := Finished), b, owner);
      case Answer(b, _) => SameTokensOwned(br, Local(br, step), b, owner);
      case FailMutation(_) => FailMutationOwned(br, step, owner);
    }
  }

  lemma PublishOwned(br: Bridge, step: Step, owner: Owners)
    requires step.PublishMutation? && br.pump.Entered? && br.pump.key.Some? && BridgeOwned(br, step.b, owner)
    ensures BridgeOwned(Local(br, step), step.b, Within(br, step, owner))
    ensures br.pump.token in owner && owner[br.pump.token] == AtBridge(step.b, AtPump)
  {
    var br', owner' := Local(br, step), Within(br, step, owner);
    assert Keeps(br, AtPump, br.pump.token);
    forall place, t ensures Keeps(br', place, t) <==> t in owner' && owner'[t] == AtBridge(step.b, place) {
      assert Keeps(br, place, t) <==> t in owner && owner[t] == AtBridge(step.b, place);
    }
  }

  lemma RetractOwned(br: Bridge, step: Step, owner: Owners)
    requires step.RetractMutation? && br.pump.MutFailed? && BridgeOwned(br, step.b, owner)
    ensures BridgeOwned(Local(br, step), step.b, Within(br, step, owner))
    ensures Within(br, step, owner) != owner ==>
              br.pump.token in owner && owner[br.pump.token] == AtBridge(step.b, AtEntry(br.pump.id))
  {
    var br', owner' := Local(br, step), Within(br, step, owner);
    if br.pump.id in br.pending && br.pending[br.pump.id] == Mutation(br.pump.token) {
      assert Keeps(br, AtEntry(br.pump.id), br.pump.token);
    }
    forall place, t ensures Keeps(br', place, t) <==> t in owner' && owner'[t] == AtBridge(step.b, place) {
      assert Keeps(br, place, t) <==> t in owner && owner[t] == AtBridge(step.b, place);
    }
  }

  lemma SettleKeyOwned(br: Bridge, b: nat, k: RequestKey, owner: Owners)
    requires br.popper.None? && BridgeOwned(br, b, owner)
    requires k in br.pending && br.pending[k].Mutation?
    ensures var t := br.pending[k].token;
            && t in owner && owner[t] == AtBridge(b, AtEntry(k))
            && BridgeOwned(SettleKey(br, k), b, owner[t := AtBridge(b, AtPopper)])
  {
    var t0 := br.pending[k].token;
    assert Keeps(br, AtEntry(k), t0);
    var br', owner' := SettleKey(br, k), owner[t0 := AtBridge(b, AtPopper)];
    forall place, t ensures Keeps(br', place, t) <==> t in owner' && owner'[t] == AtBridge(b, place) {
      assert Keeps(br, place, t) <==> t in owner && owner[t] == AtBridge(b, place);
      assert !Keeps(br, AtPopper, t);
    }
  }

  lemma SettleOwned(br: Bridge, step: Step, owner: Owners)
    requires step.Settle? && br.popper.None? && BridgeOwned(br, step.b, owner)
    ensures BridgeOwned(Local(br, step), step.b, Within(br, step, owner))
    ensures Within(br, step, owner) != owner ==>
              var t := br.pending[step.call.key].token;
              t in owner && owner[t] == AtBridge(step.b, AtEntry(step.call.key))
  {
    var br1 := br.(answers := br.answers - multiset{step.call});
    var k := step.call.key;
    SameTokensOwned(br, br1, step.b, owner);
    if k in br.pending && br.pending[k].Mutation? {
      SettleKeyOwned(br1, step.b, k, owner);
    } else {
      SameTokensOwned(br1, SettleKey(br1, k), step.b, owner);
    }
  }

  lemma TokensHeldHere(br: Bridge, b: nat, owner: Owners, t: nat)
    requires BridgeOwned(br, b, owner)
    ensures t in Tokens(br.pending) <==> t in owner && owner[t].AtBridge? && owner[t].b == b && owner[t].place.AtEntry?
  {
    if t in Tokens(br.pending) {
      var k :| k in br.pending && br.pending[k].Mutation? && br.pending[k].token == t;
      assert Keeps(br, AtEntry(k), t);
    }
    if t in owner && owner[t].AtBridge? && owner[t].b == b && owner[t].place.AtEntry? {
      assert Keeps(br, owner[t].place, t);
    }
  }

  lemma CloseOwned(br: Bridge, b: nat, early: bool, owner: Owners)
    requires BridgeOwned(br, b, owner)
    ensures BridgeOwned(CloseEntries(br, early), b, Collected(br, b, owner))
  {
    var br', owner' := CloseEntries(br, early), Collected(br, b, owner);
    forall place, t ensures Keeps(br', place, t) <==> t in owner' && owner'[t] == AtBridge(b, place) {
      TokensHeldHere(br, b, owner, t);
      assert Keeps(br, place, t) <==> t in owner && owner[t] == AtBridge(b, place);
    }
  }

  // ---- the whole system ----

  /** A bridge whose tokens did not move stays owned. */
  lemma OtherBridge(br: Bridge, b: nat, owner: Owners, owner': Owners)
    requires BridgeOwned(br, b, owner)
    requires forall t, place :: (t in owner && owner[t] == AtBridge(b, place)) <==> (t in owner' && owner'[t] == AtBridge(b, place))
    ensures BridgeOwned(br, b, owner')
  {}

  /** Tokens moved only within bridge `b`. */
  ghost predicate MovedWithin(b: nat, owner: Owners, owner': Owners) {
    && owner.Keys == owner'.Keys
    && (forall t <- owner :: owner[t] != owner'[t] ==>
          owner[t].AtBridge? && owner[t].b == b && owner'[t].AtBridge? && owner'[t].b == b)
  }

  lemma BridgeUpdateOwned(s: Sys, b: nat, br': Bridge, owner: Owners, owner': Owners)
    requires Owned(s, owner) && b in s.bridges && MovedWithin(b, owner, owner') && BridgeOwned(br', b, owner')
    ensures Owned(Update(s, b, br'), owner')
  {}

  lemma CollectedWithin(br: Bridge, b: nat, owner: Owners)
    requires BridgeOwned(br, b, owner)
    ensures MovedWithin(b, owner, Collected(br, b, owner))
  {
    forall t ensures t in Tokens(br.pending) ==> t in owner && owner[t].AtBridge? && owner[t].b == b {
      TokensHeldHere(br, b, owner, t);
    }
  }

  lemma MovedOne(b: nat, t: nat, place: Place, owner: Owners)
    requires t in owner && owner[t].AtBridge? && owner[t].b == b
    ensures MovedWithin(b, owner, owner[t := AtBridge(b, place)])
  {}

  lemma PassingStepsOwned(s: Sys, owner: Owners, step: Step)
    requires step.PublishMutation? || step.RetractMutation? || step.Settle?
    requires Owned(s, owner) && Enabled(s, step)
    ensures BridgeOwned(Local(s.bridges[step.b], step), step.b, Within(s.bridges[step.b], step, owner))
    ensures MovedWithin(step.b, owner, Within(s.bridges[step.b], step, owner))
  {
    var br := s.bridges[step.b];
    match step {
      case PublishMutation(b) =>
        PublishOwned(br, step, owner);
        MovedOne(b, br.pump.token, AtEntry(br.pump.key.value), owner);
      case RetractMutation(b) =>
        RetractOwned(br, step, owner);
        if Within(br, step, owner) != owner {
          MovedOne(b, br.pump.token, AtPump, owner);
        }
      case Settle(b, call) =>
        SettleOwned(br, step, owner);
        if Within(br, step, owner) != owner {
          MovedOne(b, br.pending[call.key].token, AtPopper, owner);
        }
    }
  }

  lemma InnerStepsOwned(s: Sys, owner: Owners, step: Step)
    requires Owned(s, owner) && Enabled(s, step) && Inner(step)
    ensures BridgeOwned(Local(s.bridges[step.b], step), step.b, Within(s.bridges[step.b], step, owner))
    ensures MovedWithin(step.b, owner, Within(s.bridges[step.b], step, owner))
  {
    var br := s.bridges[step.b];
    if step.HandlerClose? || step.EarlyClose? {
      CloseOwned(br, step.b, step.EarlyClose?, owner);
      CollectedWithin(br, step.b, owner);
    } else if step.PublishMutation? || step.RetractMutation? || step.Settle? {
      PassingStepsOwned(s, owner, step);
    } else if ReadStep(step) {
      ReadStepsOwned(s, br, step, owner);
    } else {
      QuietStepsOwned(s, br, step, owner);
    }
  }

  lemma EnterPumpOwned(br: Bridge, b: nat, token: nat, owner: Owners)
    requires br.pump.MutReady? && BridgeOwned(br, b, owner) && token !in owner
    ensures BridgeOwned(br.(pump := Entered(token, br.pump.key)), b, owner[token := AtBridge(b, AtPump)])
  {
    var br', owner' := br.(pump := Entered(token, br.pump.key)), owner[token := AtBridge(b, AtPump)];
    forall place, t ensures Keeps(br', place, t) <==> t in owner' && owner'[t] == AtBridge(b, place) {
      assert Keeps(br, place, t) <==> t in owner && owner[t] == AtBridge(b, place);
    }
  }

  /** A new token held elsewhere. */
  lemma NewTokenElsewhere(br: Bridge, b: nat, token: nat, h: Holder, owner: Owners)
    requires BridgeOwned(br, b, owner) && token !in owner && (h.AtBridge? ==> h.b != b)
    ensures BridgeOwned(br, b, owner[token := h])
  {
    OtherBridge(br, b, owner, owner[token := h]);
  }

  lemma NewBrokerCounted(s: Sys, owner: Owners)
    requires Counted(s, owner) && Enter(s.gate).Some?
    ensures Counted(EnterToken(s).(broker := s.broker + {s.issued}), owner[s.issued := Broker])
  {
    var s', owner' := EnterToken(s).(broker := s.broker + {s.issued}), owner[s.issued := Broker];
    assert s.issued !in s.live;
    assert owner'.Keys == s'.live;
    forall t ensures t in s'.broker <==> t in owner' && owner'[t] == Broker {
      if t != s.issued {
        assert t in s.broker <==> t in owner && owner[t] == Broker;
      }
    }
    forall t | t in owner' ensures t < s'.issued && (owner'[t].AtBridge? ==> owner'[t].b in s'.bridges) {
      assert t != s.issued ==> t in owner;
    }
  }

  lemma NewPumpCounted(s: Sys, b: nat, br: Bridge, owner: Owners)
    requires Counted(s, owner) && Enter(s.gate).Some? && b in s.bridges
    ensures Counted(Update(EnterToken(s), b, br), owner[s.issued := AtBridge(b, AtPump)])
  {
    assert s.issued !in s.live;
    assert owner[s.issued := AtBridge(b, AtPump)].Keys == s.live + {s.issued};
  }

  lemma BrokerEnterOwned(s: Sys, owner: Owners)
    requires Owned(s, owner) && Enter(s.gate).Some?
    ensures Owned(EnterToken(s).(broker := s.broker + {s.issued}), owner[s.issued := Broker])
  {
    forall b2 | b2 in s.bridges ensures BridgeOwned(s.bridges[b2], b2, owner[s.issued := Broker]) {
      NewTokenElsewhere(s.bridges[b2], b2, s.issued, Broker, owner);
    }
    NewBrokerCounted(s, owner);
  }

  lemma EnterGateOwned(s: Sys, owner: Owners, b: nat)
    requires Owned(s, owner) && Enabled(s, EnterGate(b))
    ensures Owned(Apply(s, EnterGate(b)), Handover(s, owner, EnterGate(b)))
  {
    if Enter(s.gate).None? {
      var idle := s.bridges[b].(pump := Idle);
      SameTokensOwned(s.bridges[b], idle, b, owner);
      BridgeUpdateOwned(s, b, idle, owner, owner);
    } else {
      EnteredOwned(s, owner, b);
    }
  }

  lemma EnteredOwned(s: Sys, owner: Owners, b: nat)
    requires Owned(s, owner) && b in s.bridges && s.bridges[b].pump.MutReady? && Enter(s.gate).Some?
    ensures Owned(Update(EnterToken(s), b, s.bridges[b].(pump := Entered(s.issued, s.bridges[b].pump.key))),
                  owner[s.issued := AtBridge(b, AtPump)])
  {
    var entered := s.bridges[b].(pump := Entered(s.issued, s.bridges[b].pump.key));
    var s' := Update(EnterToken(s), b, entered);
    EnterPumpOwned(s.bridges[b], b, s.issued, owner);
    forall b2 | b2 in s'.bridges ensures BridgeOwned(s'.bridges[b2], b2, owner[s.issued := AtBridge(b, AtPump)]) {
      if b2 != b {
        NewTokenElsewhere(s.bridges[b2], b2, s.issued, AtBridge(b, AtPump), owner);
      }
    }
    NewPumpCounted(s, b, entered, owner);
  }

  function Releaser(step: Step): Holder {
    match step
    case PumpRelease(b) => AtBridge(b, AtPump)
    case PopperRelease(b) => AtBridge(b, AtPopper)
    case CloserRelease(b, _) => AtBridge(b, AtCloser)
    case _ => Broker
  }

  /** Whoever releases a token holds it. */
  lemma ReleaserHolds(s: Sys, owner: Owners, step: Step)
    requires Owned(s, owner) && Enabled(s, step) && Releases(s, step).Some?
    ensures Holds(s, Releaser(step), Releases(s, step).value)
    ensures Releases(s, step).value in s.live && owner[Releases(s, step).value] == Releaser(step)
  {}

  lemma DropToken(br: Bridge, br': Bridge, b: nat, gone: nat, owner: Owners)
    requires BridgeOwned(br, b, owner) && Fresh(br')
    requires forall place, t :: Keeps(br', place, t) <==> Keeps(br, place, t) && t != gone
    ensures BridgeOwned(br', b, owner - {gone})
  {}

  lemma BridgeReleaseOwned(s: Sys, owner: Owners, step: Step)
    requires Owned(s, owner) && Enabled(s, step) && Releases(s, step).Some? && !step.BrokerExit?
    ensures BridgeOwned(Apply(s, step).bridges[step.b], step.b, owner - {Releases(s, step).value})
  {
    var br, br' := s.bridges[step.b], Apply(s, step).bridges[step.b];
    var gone := Releases(s, step).value;
    ReleaserHolds(s, owner, step);
    forall place, t ensures Keeps(br', place, t) <==> Keeps(br, place, t) && t != gone {
      OwnedHolds(s, owner, AtBridge(step.b, place), t);
    }
    DropToken(br, br', step.b, gone, owner);
  }

  lemma ReleaseOwned(s: Sys, owner: Owners, step: Step)
    requires Owned(s, owner) && Enabled(s, step) && Releases(s, step).Some?
    ensures Owned(Apply(s, step), owner - {Releases(s, step).value})
  {
    var s', owner' := Apply(s, step), owner - {Releases(s, step).value};
    ReleaserHolds(s, owner, step);
    if !step.BrokerExit? {
      BridgeReleaseOwned(s, owner, step);
    }
    forall b2 | b2 in s'.bridges ensures BridgeOwned(s'.bridges[b2], b2, owner') {
      if step.BrokerExit? || b2 != step.b {
        OtherBridge(s.bridges[b2], b2, owner, owner');
      }
    }
  }

  lemma WholeStepsOwned(s: Sys, owner: Owners, step: Step)
    requires Owned(s, owner) && Enabled(s, step) && Whole(step)
    ensures Owned(Apply(s, step), owner)
  {
    if step.SendMutation? {
      AfterSendOwned(s.bridges[step.b], step.b, owner);
      BridgeUpdateOwned(s.(sent := s.sent + 1), step.b, AfterSend(s.bridges[step.b]), owner, owner);
    } else if step.Connect? {
      NewBridgeOwned(s, step.b, owner);
    }
  }

  lemma AfterSendOwned(br: Bridge, b: nat, owner: Owners)
    requires BridgeOwned(br, b, owner) && MaySendMutation(br.pump)
    ensures BridgeOwned(AfterSend(br), b, owner)
  {
    assert SameTokens(br, AfterSend(br));
    SameTokensOwned(br, AfterSend(br), b, owner);
  }

  lemma NewBridgeOwned(s: Sys, b: nat, owner: Owners)
    requires Owned(s, owner) && b !in s.bridges
    ensures Owned(Update(s, b, NEW_BRIDGE), owner)
  {}

  lemma StepOwned(s: Sys, owner: Owners, step: Step)
    requires Owned(s, owner) && Enabled(s, step)
    ensures Owned(Apply(s, step), Handover(s, owner, step))
  {
    if step.BrokerEnter? {
      BrokerEnterOwned(s, owner);
    } else if step.EnterGate? {
      EnterGateOwned(s, owner, step.b);
    } else if Releases(s, step).Some? {
      ReleaseOwned(s, owner, step);
    } else if Whole(step) {
      WholeStepsOwned(s, owner, step);
    } else {
      InnerStepsOwned(s, owner, step);
      BridgeUpdateOwned(s, step.b, Local(s.bridges[step.b], step), owner, Within(s.bridges[step.b], step, owner));
    }
  }

  lemma {:induction false} RunOwned(s: Sys, owner: Owners, steps: seq<Step>, end: Sys)
    returns (owner': Owners)
    requires Owned(s, owner) && Run(s, steps, end)
    ensures Owned(end, owner')
    decreases |steps|
  {
    if steps == [] {
      owner' := owner;
    } else {
      StepOwned(s, owner, steps[0]);
      owner' := RunOwned(Apply(s, steps[0]), Handover(s, owner, steps[0]), steps[1..], end);
    }
  }

  // ---- conservation ----

  lemma InitOwned()
    ensures Owned(INIT, map[])
  {}

  /** In every reachable state the gate counts the live tokens, each of them with one and
      only one holder: a running broker call, a frontend pump, a pending entry, a backend
      pump about to release it, or a closing thread about to release it. */
  lemma TokenConservation(steps: seq<Step>, end: Sys)
    requires Run(INIT, steps, end)
    ensures end.gate.active == |end.live|
    ensures forall h, t :: Holds(end, h, t) ==> t in end.live
    ensures forall t <- end.live :: exists h :: Holds(end, h, t)
    ensures forall t, h1, h2 :: Holds(end, h1, t) && Holds(end, h2, t) ==> h1 == h2
  {
    InitOwned();
    var owner := RunOwned(INIT, map[], steps, end);
    forall h, t ensures Holds(end, h, t) <==> t in owner && owner[t] == h {
      OwnedHolds(end, owner, h, t);
    }
    forall t | t in end.live ensures exists h :: Holds(end, h, t) {
      assert Holds(end, owner[t], t);
    }
  }

  /** The underflow assertion of the gate cannot fire. */
  lemma NoUnderflow(steps: seq<Step>, s: Sys, step: Step)
    requires Run(INIT, steps, s) && Enabled(s, step) && Releases(s, step).Some?
    ensures s.gate.active > 0 && Apply(s, step).gate.active == s.gate.active - 1
  {
    InitOwned();
    var owner := RunOwned(INIT, map[], steps, s);
    ReleaserHolds(s, owner, step);
    assert |s.live - {Releases(s, step).value}| == |s.live| - 1;
  }

  /** How often a run releases a token. */
  ghost function ReleaseCount(s: Sys, steps: seq<Step>, t: nat): nat
    decreases |steps|
  {
    if steps == [] || !Enabled(s, steps[0]) then 0
    else (if Releases(s, steps[0]) == Some(t) then 1 else 0) + ReleaseCount(Apply(s, steps[0]), steps[1..], t)
  }

  predicate Enters(s: Sys, step: Step) {
    (step.BrokerEnter? || step.EnterGate?) && Enter(s.gate).Some?
  }

  lemma LiveAfter(s: Sys, step: Step)
    requires Enabled(s, step)
    ensures Releases(s, step).Some? ==>
              Apply(s, step).live == s.live - {Releases(s, step).value} && Apply(s, step).issued == s.issued
    ensures Enters(s, step) ==> Apply(s, step).live == s.live + {s.issued} && Apply(s, step).issued == s.issued + 1
    ensures Releases(s, step).None? && !Enters(s, step) ==>
              Apply(s, step).live == s.live && Apply(s, step).issued == s.issued
  {
    if Releases(s, step).Some? {
      LiveAfterExit(s, step);
    } else if Inner(step) {
      LiveAfterInner(s, step);
    }
  }

  lemma LiveAfterExit(s: Sys, step: Step)
    requires Enabled(s, step) && Releases(s, step).Some?
    ensures !Enters(s, step)
    ensures Apply(s, step).live == s.live - {Releases(s, step).value} && Apply(s, step).issued == s.issued
  {}

  lemma LiveAfterInner(s: Sys, step: Step)
    requires Enabled(s, step) && Inner(step)
    ensures !Enters(s, step) && Apply(s, step).live == s.live && Apply(s, step).issued == s.issued
  {}

  lemma StepReleases(s: Sys, owner: Owners, step: Step, t: nat)
    requires Owned(s, owner) && Enabled(s, step)
    ensures (if Releases(s, step) == Some(t) then 1 else 0) + (if t in Apply(s, step).live then 1 else 0)
         == (if t in s.live then 1 else 0) + (if s.issued <= t < Apply(s, step).issued then 1 else 0)
    ensures s.issued <= Apply(s, step).issued
  {
    LiveAfter(s, step);
    assert s.issued !in s.live;
    if Releases(s, step).Some? {
      ReleaserHolds(s, owner, step);
      BalanceOfExit(s.live, Apply(s, step).live, Releases(s, step).value, t);
    } else if Enters(s, step) {
      BalanceOfEntry(s.live, s.issued, t);
    }
  }

  lemma BalanceOfExit(live: set<nat>, live': set<nat>, gone: nat, t: nat)
    requires gone in live && live' == live - {gone}
    ensures (if gone == t then 1 else 0) + (if t in live' then 1 else 0) == if t in live then 1 else 0
  {}

  lemma BalanceOfEntry(live: set<nat>, token: nat, t: nat)
    requires token !in live
    ensures (if t in live + {token} then 1 else 0)
         == (if t in live then 1 else 0) + if token <= t < token + 1 then 1 else 0
  {}

  lemma {:induction false} ReleaseBalance(s: Sys, owner: Owners, steps: seq<Step>, end: Sys, t: nat)
    requires Owned(s, owner) && Run(s, steps, end)
    ensures ReleaseCount(s, steps, t) + (if t in end.live then 1 else 0)
         == (if t in s.live then 1 else 0) + (if s.issued <= t < end.issued then 1 else 0)
    ensures s.issued <= end.issued
    decreases |steps|
  {
    if steps == [] {
    } else {
      StepOwned(s, owner, steps[0]);
      StepReleases(s, owner, steps[0], t);
      ReleaseBalance(Apply(s, steps[0]), Handover(s, owner, steps[0]), steps[1..], end, t);
    }
  }

  /** Whoever wins the race between response, send failure and close: over any run an issued
      token has been released exactly once, or is still live and was never released. */
  lemma ReleasedExactlyOnce(steps: seq<Step>, end: Sys, t: nat)
    requires Run(INIT, steps, end)
    ensures t < end.issued ==> ReleaseCount(INIT, steps, t) == if t in end.live then 0 else 1
    ensures t >= end.issued ==> ReleaseCount(INIT, steps, t) == 0
  {
    InitOwned();
    ReleaseBalance(INIT, map[], steps, end, t);
    var owner := RunOwned(INIT, map[], steps, end);
  }

  // ---- the count, bridge by bridge ----

  function MutationKeys(pending: map<RequestKey, Pending>): set<RequestKey> {
    set k | k in pending && pending[k].Mutation?
  }

  /** What one bridge contributes to the gate's count. */
  function Contribution(br: Bridge): nat {
    |MutationKeys(br.pending)|
    + (if br.pump.Entered? || br.pump.Releasing? then 1 else 0)
    + (if br.popper.Some? then 1 else 0)
    + |br.closing|
  }

  ghost function Pick(ids: set<nat>): (b: nat)
    requires ids != {}
    ensures b in ids
  {
    var b :| b in ids; b
  }

  ghost function Contributions(bridges: map<nat, Bridge>, ids: set<nat>): nat
    requires ids <= bridges.Keys
    decreases |ids|
  {
    if ids == {} then 0
    else Contribution(bridges[Pick(ids)]) + Contributions(bridges, ids - {Pick(ids)})
  }

  ghost function HeldWithin(owner: Owners, ids: set<nat>): set<nat> {
    set t | t in owner && owner[t].AtBridge? && owner[t].b in ids
  }

  lemma {:induction false} EntryTokens(keys: set<RequestKey>, pending: map<RequestKey, Pending>, tokens: set<nat>)
    requires keys <= pending.Keys
    requires forall k <- keys :: pending[k].Mutation? && pending[k].token in tokens
    requires forall t <- tokens :: exists k <- keys :: pending[k] == Mutation(t)
    requires forall j, k | j in keys && k in keys && pending[j] == pending[k] :: j == k
    ensures |tokens| == |keys|
    decreases |keys|
  {
    if keys == {} {
      assert tokens == {};
    } else {
      var k :| k in keys;
      EntryTokens(keys - {k}, pending, tokens - {pending[k].token});
    }
  }

  lemma BridgeCount(br: Bridge, b: nat, owner: Owners)
    requires BridgeOwned(br, b, owner)
    ensures |HeldWithin(owner, {b})| == Contribution(br)
  {
    var entries := set t | t in owner && owner[t].AtBridge? && owner[t].b == b && owner[t].place.AtEntry?;
    var pump: set<nat> := if br.pump.Entered? || br.pump.Releasing? then {br.pump.token} else {};
    var popper := if br.popper.Some? then {br.popper.value} else {};
    forall place, t | Keeps(br, place, t) ensures t in HeldWithin(owner, {b}) && owner[t].place == place {}
    forall k | k in MutationKeys(br.pending) ensures br.pending[k].token in entries {
      assert Keeps(br, AtEntry(k), br.pending[k].token);
    }
    forall t | t in entries ensures exists k <- MutationKeys(br.pending) :: br.pending[k] == Mutation(t) {
      assert Keeps(br, owner[t].place, t);
    }
    forall j, k | j in MutationKeys(br.pending) && k in MutationKeys(br.pending) && br.pending[j] == br.pending[k]
      ensures j == k
    {
      assert Keeps(br, AtEntry(j), br.pending[j].token) && Keeps(br, AtEntry(k), br.pending[j].token);
    }
    EntryTokens(MutationKeys(br.pending), br.pending, entries);
    forall t ensures t in pump <==> Keeps(br, AtPump, t) {}
    forall t ensures t in popper <==> Keeps(br, AtPopper, t) {}
    forall t ensures t in br.closing <==> Keeps(br, AtCloser, t) {}
    SplitHeld(owner, b, entries, pump, popper, br.closing);
  }

  lemma DisjointSizes(a: set<nat>, b: set<nat>, c: set<nat>, d: set<nat>)
    requires a !! b && (a + b) !! c && (a + b + c) !! d
    ensures |a + b + c + d| == |a| + |b| + |c| + |d|
  {}

  lemma SplitHeld(owner: Owners, b: nat, entries: set<nat>, pump: set<nat>, popper: set<nat>, closing: set<nat>)
    requires entries == set t | t in owner && owner[t].AtBridge? && owner[t].b == b && owner[t].place.AtEntry?
    requires forall t :: t in pump <==> t in owner && owner[t] == AtBridge(b, AtPump)
    requires forall t :: t in popper <==> t in owner && owner[t] == AtBridge(b, AtPopper)
    requires forall t :: t in closing <==> t in owner && owner[t] == AtBridge(b, AtCloser)
    ensures |HeldWithin(owner, {b})| == |entries| + |pump| + |popper| + |closing|
  {
    var held := HeldWithin(owner, {b});
    forall t ensures t in held <==> t in entries + pump + popper + closing {
      if t in held {
        var place := owner[t].place;
        assert owner[t] == AtBridge(b, place);
      }
    }
    assert held == entries + pump + popper + closing;
    DisjointSizes(entries, pump, popper, closing);
  }

  lemma {:induction false} SumOfContributions(s: Sys, owner: Owners, ids: set<nat>)
    requires Owned(s, owner) && ids <= s.bridges.Keys
    ensures |HeldWithin(owner, ids)| == Contributions(s.bridges, ids)
    decreases |ids|
  {
    if ids == {} {
      assert HeldWithin(owner, ids) == {};
    } else {
      var b := Pick(ids);
      SumOfContributions(s, owner, ids - {b});
      BridgeCount(s.bridges[b], b, owner);
      assert HeldWithin(owner, ids) == HeldWithin(owner, {b}) + HeldWithin(owner, ids - {b});
      assert HeldWithin(owner, {b}) !! HeldWithin(owner, ids - {b});
    }
  }

  lemma LiveSplits(s: Sys, owner: Owners)
    requires Owned(s, owner)
    ensures |s.live| == |s.broker| + |HeldWithin(owner, s.bridges.Keys)|
  {
    var held := HeldWithin(owner, s.bridges.Keys);
    forall t ensures t in s.live <==> t in s.broker + held {
      assert t in owner && owner[t] != Broker ==> owner[t].AtBridge?;
    }
    assert s.live == s.broker + held;
    assert s.broker !! held;
  }

  /** The gate's number is the number of running broker calls plus, over all bridges, the
      pending mutation entries and the tokens in some thread's hand. */
  lemma ActiveIsTheSum(steps: seq<Step>, end: Sys)
    requires Run(INIT, steps, end)
    ensures end.gate.active == |end.broker| + Contributions(end.bridges, end.bridges.Keys)
  {
    InitOwned();
    var owner := RunOwned(INIT, map[], steps, end);
    SumOfContributions(end, owner, end.bridges.Keys);
    LiveSplits(end, owner);
  }
}

// What a bridge remembers and when its frontend pump ends: entries against the requests the
// backend has yet to answer, and the pump against stops and failed sends.

module GatewayEntries {
  import opened Prelude
  import opened MaintenanceGates
  import opened Gateway
  import opened GatewayTokens
  import opened GatewayDrain

  // ---- entries and requests ----

  /** What a bridge knows of one id: its entry, and how many requests under it, in and outside
      the allow-list, were sent and have no processed response. */
  datatype Account = Account(entry: Option<Pending>, reading: nat, mutating: nat)

  function AccountOf(br: Bridge, k: RequestKey): Account {
    Account(if k in br.pending then Some(br.pending[k]) else None,
            br.unanswered[Call(k, false)] + br.answers[Call(k, false)],
            br.unanswered[Call(k, true)] + br.answers[Call(k, true)])
  }

  predicate ReadInHand(p: Pump, k: RequestKey) {
    p == ReadPublished(Some(k)) || p == ReadFailed(Some(k))
  }

  predicate MutationInHand(p: Pump, k: RequestKey) {
    (p.Published? || p.MutFailed?) && p.id == k
  }

  /** The id a pump has found free and will register. */
  predicate Reserved(p: Pump, k: RequestKey) {
    (p.ReadReady? || p.MutReady? || p.Entered?) && p.key == Some(k)
  }

  function One(b: bool): nat {
    if b then 1 else 0
  }

  predicate HoldsRead(a: Account) {
    a.entry == Some(Read)
  }

  predicate HoldsMutation(a: Account) {
    a.entry.Some? && a.entry.value.Mutation?
  }

  /** An entry stands for a request sent and not answered, or about to be sent. */
  predicate Explained(a: Account, p: Pump, k: RequestKey) {
    && (HoldsRead(a) ==> ReadInHand(p, k) || a.reading > 0)
    && (HoldsMutation(a) ==> MutationInHand(p, k) || a.mutating > 0)
    && (a.entry.Some? ==>
          && !Reserved(p, k)
          && (ReadInHand(p, k) ==> a.entry == Some(Read))
          && (MutationInHand(p, k) ==> a.entry == Some(Mutation(p.token))))
  }

  /** While a bridge is open its entries are exactly those requests, one for one. */
  predicate Matched(a: Account, p: Pump, k: RequestKey) {
    && a.reading + One(ReadInHand(p, k)) == One(HoldsRead(a))
    && a.mutating + One(MutationInHand(p, k)) == One(HoldsMutation(a))
  }

  predicate Sound(a: Account, p: Pump, k: RequestKey, closed: bool, early: bool) {
    && Explained(a, p, k)
    && (!closed ==> Matched(a, p, k))
    && (closed && !early ==> a.entry.None? && p == Finished)
  }

  predicate Kept(br: Bridge, k: RequestKey) {
    Sound(AccountOf(br, k), br.pump, k, br.closed, br.early)
  }

  // What the steps do to the account of one id.

  lemma EntryAccount(br: Bridge, key: RequestKey, entry: Pending, k: RequestKey)
    ensures AccountOf(br.(pending := br.pending[key := entry]), k)
         == if key == k then AccountOf(br, k).(entry := Some(entry)) else AccountOf(br, k)
    ensures AccountOf(br.(pending := br.pending - {key}), k)
         == if key == k then AccountOf(br, k).(entry := None) else AccountOf(br, k)
  {}

  lemma PumpAccount(br: Bridge, p: Pump, k: RequestKey)
    ensures AccountOf(br.(pump := p), k) == AccountOf(br, k)
  {}

  lemma PublishReadAccount(br: Bridge, step: Step, k: RequestKey)
    requires br.pump.ReadReady? && step.PublishRead?
    ensures var br' := Local(br, step);
            && br'.pump == ReadPublished(br.pump.key) && br'.closed == br.closed && br'.early == br.early
            && AccountOf(br', k) == if br.pump.key == Some(k) then AccountOf(br, k).(entry := Some(Read)) else AccountOf(br, k)
  {
    var br' := br.(pump := ReadPublished(br.pump.key));
    PumpAccount(br, br'.pump, k);
    if br.pump.key.Some? {
      EntryAccount(br', br.pump.key.value, Read, k);
      assert Local(br, step) == br'.(pending := br'.pending[br.pump.key.value := Read]);
    }
  }

  lemma AskAccount(br: Bridge, call: Call, k: RequestKey)
    ensures var a, a' := AccountOf(br, k), AccountOf(br.(unanswered := br.unanswered + multiset{call}), k);
            && a'.entry == a.entry
            && a'.reading == a.reading + One(call == Call(k, false))
            && a'.mutating == a.mutating + One(call == Call(k, true))
  {
    var all := br.unanswered + multiset{call};
    assert forall c :: all[c] == br.unanswered[c] + One(c == call);
  }

  lemma SendReadAccount(br: Bridge, step: Step, k: RequestKey)
    requires br.pump.ReadPublished? && step.SendRead?
    ensures var br', a := Local(br, step), AccountOf(br, k);
            && br'.pump == Idle && br'.closed == br.closed && br'.early == br.early
            && AccountOf(br', k) == if br.pump.key == Some(k) then a.(reading := a.reading + 1) else a
  {
    var br' := br.(pump := Idle);
    PumpAccount(br, Idle, k);
    if br.pump.key.Some? {
      var call := Call(br.pump.key.value, false);
      AskAccount(br', call, k);
      assert Local(br, step) == br'.(unanswered := br'.unanswered + multiset{call});
    }
  }

  lemma RetractReadAccount(br: Bridge, step: Step, k: RequestKey)
    requires br.pump.ReadFailed? && step.RetractRead?
    ensures var br', a := Local(br, step), AccountOf(br, k);
            && br'.pump == Finished && br'.closed == br.closed && br'.early == br.early
            && AccountOf(br', k) == if br.pump.key == Some(k) && a.entry == Some(Read) then a.(entry := None) else a
  {
    var br' := br.(pump := Finished);
    PumpAccount(br, Finished, k);
    if br.pump.key.Some? && br.pump.key.value in br.pending && br.pending[br.pump.key.value] == Read {
      EntryAccount(br', br.pump.key.value, Read, k);
      assert Local(br, step) == br'.(pending := br'.pending - {br.pump.key.value});
    } else {
      assert Local(br, step) == br';
    }
  }

  lemma PublishMutationAccount(br: Bridge, step: Step, k: RequestKey)
    requires br.pump.Entered? && br.pump.key.Some? && step.PublishMutation?
    ensures var br', a := Local(br, step), AccountOf(br, k);
            && br'.pump == Published(br.pump.token, br.pump.key.value) && br'.closed == br.closed && br'.early == br.early
            && AccountOf(br', k) == if br.pump.key == Some(k) then a.(entry := Some(Mutation(br.pump.token))) else a
  {}

  lemma SendMutationAccount(br: Bridge, k: RequestKey)
    requires MaySendMutation(br.pump)
    ensures var br', a := AfterSend(br), AccountOf(br, k);
            && (br.pump.Published? ==> br'.pump == Idle) && (br.pump.Entered? ==> br'.pump.Releasing?)
            && br'.closed == br.closed && br'.early == br.early
            && AccountOf(br', k) == if br.pump.Published? && br.pump.id == k then a.(mutating := a.mutating + 1) else a
  {
    if br.pump.Published? {
      var br' := br.(pump := Idle);
      PumpAccount(br, Idle, k);
      AskAccount(br', Call(br.pump.id, true), k);
    }
  }

  lemma RetractMutationAccount(br: Bridge, step: Step, k: RequestKey)
    requires br.pump.MutFailed? && step.RetractMutation?
    ensures var br', a := Local(br, step), AccountOf(br, k);
            && (br'.pump == Finished || br'.pump.Releasing?) && br'.closed == br.closed && br'.early == br.early
            && AccountOf(br', k) ==
               if br.pump.id == k && a.entry == Some(Mutation(br.pump.token)) then a.(entry := None) else a
  {}

  lemma AnswerAccount(br: Bridge, step: Step, k: RequestKey)
    requires step.Answer? && step.call in br.unanswered
    ensures var br' := Local(br, step);
            br'.pump == br.pump && br'.closed == br.closed && br'.early == br.early && AccountOf(br', k) == AccountOf(br, k)
  {}

  lemma TakeAnswer(br: Bridge, call: Call, k: RequestKey)
    requires call in br.answers
    ensures var a, a' := AccountOf(br, k), AccountOf(br.(answers := br.answers - multiset{call}), k);
            && a'.entry == a.entry
            && a.reading == a'.reading + One(call == Call(k, false))
            && a.mutating == a'.mutating + One(call == Call(k, true))
  {
    var rest := br.answers - multiset{call};
    assert forall c :: rest[c] == br.answers[c] - One(c == call);
  }

  lemma SettleEntry(br: Bridge, key: RequestKey, k: RequestKey)
    ensures var br', a := SettleKey(br, key), AccountOf(br, k);
            && br'.pump == br.pump && br'.closed == br.closed && br'.early == br.early
            && AccountOf(br', k) == if key == k then a.(entry := None) else a
  {}

  lemma SettleKeeps(br: Bridge, call: Call, k: RequestKey)
    requires Kept(br, k) && call in br.answers
    ensures Kept(SettleKey(br.(answers := br.answers - multiset{call}), call.key), k)
  {
    TakeAnswer(br, call, k);
    SettleEntry(br.(answers := br.answers - multiset{call}), call.key, k);
  }

  lemma ReadStepKeeps(br: Bridge, step: Step, k: RequestKey)
    requires Kept(br, k)
    requires || (br.pump.ReadReady? && step.PublishRead?)
             || (br.pump.ReadPublished? && step.SendRead?)
             || (br.pump.ReadFailed? && step.RetractRead?)
    ensures Kept(Local(br, step), k)
  {
    match step {
      case PublishRead(_) => PublishReadAccount(br, step, k);
      case SendRead(_) => SendReadAccount(br, step, k);
      case RetractRead(_) => RetractReadAccount(br, step, k);
    }
  }

  lemma MutationStepKeeps(br: Bridge, step: Step, k: RequestKey)
    requires Kept(br, k)
    requires || (br.pump.Entered? && br.pump.key.Some? && step.PublishMutation?)
             || (br.pump.MutFailed? && step.RetractMutation?)
    ensures Kept(Local(br, step), k)
  {
    if step.PublishMutation? {
      PublishMutationAccount(br, step, k);
    } else {
      RetractMutationAccount(br, step, k);
    }
  }

  lemma SendMutationKeeps(br: Bridge, k: RequestKey)
    requires Kept(br, k) && MaySendMutation(br.pump)
    ensures Kept(AfterSend(br), k)
  {
    SendMutationAccount(br, k);
  }

  lemma CloseKeeps(br: Bridge, early: bool, k: RequestKey)
    requires Kept(br, k) && !br.closed && (!early ==> br.pump == Finished)
    ensures Kept(CloseEntries(br, early), k)
  {}

  lemma PumpKeeps(br: Bridge, p: Pump, k: RequestKey)
    requires Sound(AccountOf(br, k), p, k, br.closed, br.early)
    ensures Kept(br.(pump := p), k)
  {}

  lemma AdmitKeeps(br: Bridge, key: Option<RequestKey>, k: RequestKey)
    requires Kept(br, k) && br.pump == Idle && FreeKey(br, key)
    ensures Kept(br.(pump := ReadReady(key)), k) && Kept(br.(pump := MutReady(key)), k)
  {
    PumpKeeps(br, ReadReady(key), k);
    PumpKeeps(br, MutReady(key), k);
  }

  lemma PumpStepKeeps(s: Sys, step: Step, k: RequestKey)
    requires step.AdmitRead? || step.AdmitMutation? || step.FailRead? || step.FailMutation? || step.PumpStop?
    requires Enabled(s, step) && Kept(s.bridges[step.b], k)
    ensures Kept(Local(s.bridges[step.b], step), k)
  {
    var br := s.bridges[step.b];
    match step {
      case AdmitRead(_, key) => AdmitKeeps(br, key, k);
      case AdmitMutation(_, key) => AdmitKeeps(br, key, k);
      case FailRead(_) => PumpKeeps(br, ReadFailed(br.pump.key), k);
      case FailMutation(_) => FailMutationKeeps(br, step, k);
      case PumpStop(_) => PumpKeeps(br, Finished, k);
    }
  }

  lemma InnerKeeps(s: Sys, step: Step, k: RequestKey)
    requires Inner(step) && Enabled(s, step) && Kept(s.bridges[step.b], k)
    ensures Kept(Local(s.bridges[step.b], step), k)
  {
    var br := s.bridges[step.b];
    match step {
      case PublishRead(_) => ReadStepKeeps(br, step, k);
      case SendRead(_) => ReadStepKeeps(br, step, k);
      case RetractRead(_) => ReadStepKeeps(br, step, k);
      case PublishMutation(_) => MutationStepKeeps(br, step, k);
      case RetractMutation(_) => MutationStepKeeps(br, step, k);
      case Answer(_, _) => AnswerAccount(br, step, k);
      case Settle(_, call) => SettleKeeps(br, call, k);
      case HandlerClose(_) => CloseKeeps(br, false, k);
      case EarlyClose(_) => CloseKeeps(br, true, k);
      case _ => PumpStepKeeps(s, step, k);
    }
  }

  lemma FailMutationKeeps(br: Bridge, step: Step, k: RequestKey)
    requires Kept(br, k) && MaySendMutation(br.pump) && step.FailMutation?
    ensures Kept(Local(br, step), k)
  {
    if br.pump.Published? {
      PumpKeeps(br, MutFailed(br.pump.token, br.pump.id), k);
    } else {
      PumpKeeps(br, Releasing(br.pump.token, true), k);
    }
  }

  lemma EnterGateKeeps(s: Sys, b: nat, k: RequestKey)
    requires Enabled(s, EnterGate(b)) && Kept(s.bridges[b], k)
    ensures Kept(Apply(s, EnterGate(b)).bridges[b], k)
  {
    var br := s.bridges[b];
    PumpKeeps(br, if Enter(s.gate).None? then Idle else Entered(s.issued, br.pump.key), k);
  }

  lemma PumpReleaseKeeps(s: Sys, b: nat, k: RequestKey)
    requires Enabled(s, PumpRelease(b)) && Kept(s.bridges[b], k)
    ensures Kept(Apply(s, PumpRelease(b)).bridges[b], k)
  {
    var br := s.bridges[b];
    PumpKeeps(br, if br.pump.ends then Finished else Idle, k);
  }

  lemma HandStepKeeps(s: Sys, step: Step, k: RequestKey)
    requires Enabled(s, step) && (step.PopperRelease? || step.CloserRelease?)
    requires Kept(s.bridges[step.b], k)
    ensures Kept(Apply(s, step).bridges[step.b], k)
  {
    var br, br' := s.bridges[step.b], Apply(s, step).bridges[step.b];
    assert br' == br.(popper := br'.popper, closing := br'.closing);
    assert AccountOf(br', k) == AccountOf(br, k);
  }

  lemma OuterKeeps(s: Sys, step: Step, b: nat, k: RequestKey)
    requires Enabled(s, step) && Touches(step, b) && !Inner(step) && !step.Connect? && Kept(s.bridges[b], k)
    ensures Kept(Apply(s, step).bridges[b], k)
  {
    match step {
      case SendMutation(_) => SendMutationKeeps(s.bridges[b], k);
      case EnterGate(_) => EnterGateKeeps(s, b, k);
      case PumpRelease(_) => PumpReleaseKeeps(s, b, k);
      case _ => HandStepKeeps(s, step, k);
    }
  }

  lemma StepKeeps(s: Sys, step: Step, b: nat, k: RequestKey)
    requires Enabled(s, step) && b in Apply(s, step).bridges
    requires b in s.bridges ==> Kept(s.bridges[b], k)
    ensures Kept(Apply(s, step).bridges[b], k)
  {
    if !Touches(step, b) {
      UntouchedBridge(s, step, b);
    } else if step.Connect? {
      assert Kept(NEW_BRIDGE, k);
    } else if Inner(step) {
      InnerKeeps(s, step, k);
    } else {
      OuterKeeps(s, step, b, k);
    }
  }

  lemma {:induction false} RunKeeps(s: Sys, steps: seq<Step>, end: Sys, b: nat, k: RequestKey)
    requires Run(s, steps, end) && (b in s.bridges ==> Kept(s.bridges[b], k))
    ensures b in end.bridges ==> Kept(end.bridges[b], k)
    decreases |steps|
  {
    if steps == [] {
    } else {
      var next := Apply(s, steps[0]);
      if b in next.bridges {
        StepKeeps(s, steps[0], b, k);
      }
      RunKeeps(next, steps[1..], end, b, k);
    }
  }

  /** An open bridge remembers exactly the keyed requests the backend has yet to answer, and the
      one its pump has registered and not yet sent, each with its kind and no id twice; a bridge
      its handler closed remembers nothing, and no bridge an id nobody will answer. */
  lemma EntriesAreRequests(steps: seq<Step>, end: Sys, b: nat, k: RequestKey)
    requires Run(INIT, steps, end) && b in end.bridges
    ensures var br, a := end.bridges[b], AccountOf(end.bridges[b], k);
            && (!br.closed ==>
                  && (a.entry == Some(Read) <==> a.reading > 0 || ReadInHand(br.pump, k))
                  && (HoldsMutation(a) <==> a.mutating > 0 || MutationInHand(br.pump, k))
                  && a.reading + a.mutating <= 1)
            && (br.closed && !br.early ==> k !in br.pending)
            && (a.entry == Some(Read) ==> a.reading > 0 || ReadInHand(br.pump, k))
            && (HoldsMutation(a) ==> a.mutating > 0 || MutationInHand(br.pump, k))
  {
    RunKeeps(INIT, steps, end, b, k);
  }

  // ---- the end of a pump ----

  /** A frontend pump on its way out. */
  predicate Ending(p: Pump) {
    p == Finished || p.ReadFailed? || p.MutFailed? || (p.Releasing? && p.ends)
  }

  /** The pump is stopped, or one of its sends fails. */
  predicate Ends(step: Step, b: nat) {
    (step.PumpStop? || step.FailRead? || step.FailMutation?) && step.b == b
  }

  lemma LocalEnds(s: Sys, step: Step)
    requires Inner(step) && Enabled(s, step)
    ensures Ending(Local(s.bridges[step.b], step).pump) <==> Ending(s.bridges[step.b].pump) || Ends(step, step.b)
  {}

  lemma TokenStepEnds(s: Sys, step: Step)
    requires Enabled(s, step) && (step.EnterGate? || step.PumpRelease? || step.PopperRelease? || step.CloserRelease?)
    ensures Ending(Apply(s, step).bridges[step.b].pump) <==> Ending(s.bridges[step.b].pump)
  {}

  lemma SendEnds(s: Sys, step: Step)
    requires Enabled(s, step) && step.SendMutation?
    ensures Ending(Apply(s, step).bridges[step.b].pump) <==> Ending(s.bridges[step.b].pump)
  {}

  lemma StepEnds(s: Sys, step: Step, b: nat)
    requires Enabled(s, step) && b in Apply(s, step).bridges
    ensures Ending(Apply(s, step).bridges[b].pump) <==> (b in s.bridges && Ending(s.bridges[b].pump)) || Ends(step, b)
  {
    if !Touches(step, b) {
      UntouchedBridge(s, step, b);
    } else if Inner(step) {
      LocalEnds(s, step);
    } else if step.SendMutation? {
      SendEnds(s, step);
    } else if !step.Connect? {
      TokenStepEnds(s, step);
    }
  }

  lemma StepBefore(s: Sys, step: Step, b: nat)
    requires Enabled(s, step) && Ends(step, b)
    ensures b in s.bridges
  {}

  /** Bridges stay. */
  lemma StaysThere(s: Sys, step: Step, b: nat)
    requires Enabled(s, step) && b in s.bridges
    ensures b in Apply(s, step).bridges
  {}

  lemma {:induction false} RunEnds(s: Sys, steps: seq<Step>, end: Sys, b: nat)
    requires Run(s, steps, end) && b in end.bridges
    ensures Ending(end.bridges[b].pump) <==>
              (b in s.bridges && Ending(s.bridges[b].pump)) || exists step <- steps :: Ends(step, b)
    decreases |steps|
  {
    if steps == [] {
    } else {
      var next := Apply(s, steps[0]);
      RunEnds(next, steps[1..], end, b);
      assert forall step :: step in steps <==> step == steps[0] || step in steps[1..];
      if b in next.bridges {
        StepEnds(s, steps[0], b);
      } else if b in s.bridges {
        StaysThere(s, steps[0], b);
      } else if Ends(steps[0], b) {
        StepBefore(s, steps[0], b);
      }
    }
  }

  /** A frontend pump is on its way out exactly when it was stopped or a send of it failed. In
      particular a request refused by a draining gate, an answer, or a release of its token
      leaves it reading on. */
  lemma PumpEndsExactly(steps: seq<Step>, end: Sys, b: nat)
    requires Run(INIT, steps, end) && b in end.bridges
    ensures Ending(end.bridges[b].pump) <==> exists step <- steps :: Ends(step, b)
  {
    RunEnds(INIT, steps, end, b);
  }
}

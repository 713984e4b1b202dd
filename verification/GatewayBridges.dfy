// The locked sections of one bridge over its mutable pending map, each proved to be the step
// of the gateway machine it stands for.

module GatewayBridges {
  import opened Prelude
  import opened MaintenanceGates
  import opened Gateway
  import opened GatewayTokens

  lemma {:induction false} TokenCount(keys: set<RequestKey>, pending: map<RequestKey, Pending>, key: RequestKey)
    requires key in keys && keys <= pending.Keys && pending[key].Mutation?
    ensures |MutationsIn(keys, pending)| == |MutationsIn(keys - {key}, pending)| + 1
  {
    assert MutationsIn(keys, pending) == MutationsIn(keys - {key}, pending) + {key};
  }

  function MutationsIn(keys: set<RequestKey>, pending: map<RequestKey, Pending>): set<RequestKey>
    requires keys <= pending.Keys
  {
    set k | k in keys && pending[k].Mutation?
  }

  class BridgeEntries {
    var pending: map<RequestKey, Pending>
    var closed: bool

    constructor ()
      ensures pending == map[] && !closed
    {
      pending, closed := map[], false;
    }

    /** The entries of a bridge in the gateway machine. */
    predicate Matches(br: Bridge)
      reads this
    {
      br.pending == pending && br.closed == closed
    }

    method Register(key: RequestKey, entry: Pending, ghost br: Bridge)
      requires Matches(br)
      modifies this`pending
      ensures br.pump == ReadReady(Some(key)) && entry == Read ==> Matches(Local(br, PublishRead(0)))
      ensures br.pump.Entered? && br.pump.key == Some(key) && entry == Mutation(br.pump.token) ==>
                Matches(Local(br, PublishMutation(0)))
      ensures pending == old(pending)[key := entry]
    {
      pending := pending[key := entry];
    }

    /** After a failed send of a read: drop the entry unless it is no longer ours. */
    method RetractRead(key: RequestKey, ghost br: Bridge)
      requires Matches(br) && br.pump == ReadFailed(Some(key))
      modifies this`pending
      ensures Matches(Local(br, Step.RetractRead(0)))
      ensures pending == if key in old(pending) && old(pending)[key] == Read then old(pending) - {key} else old(pending)
    {
      if key in pending && pending[key] == Read {
        pending := pending - {key};
      }
    }

    /** After a failed send of a mutation: whether the token is ours again to release. */
    method RetractMutation(key: RequestKey, token: nat, ghost br: Bridge) returns (retained: bool)
      requires Matches(br) && br.pump == MutFailed(token, key)
      modifies this`pending
      ensures Matches(Local(br, Step.RetractMutation(0)))
      ensures retained <==> Local(br, Step.RetractMutation(0)).pump == Releasing(token, true)
      ensures retained <==> key in old(pending) && old(pending)[key] == Mutation(token)
      ensures pending == if retained then old(pending) - {key} else old(pending)
    {
      retained := key in pending && pending[key] == Mutation(token);
      if retained {
        pending := pending - {key};
      }
    }

    /** A response from the backend: the entry's token, if it carries one, is now the popper's. */
    method Settle(call: Call, ghost br: Bridge) returns (token: Option<nat>)
      requires Matches(br) && br.popper.None?
      modifies this`pending
      ensures Matches(Local(br, Step.Settle(0, call)))
      ensures token == Local(br, Step.Settle(0, call)).popper
      ensures pending == old(pending) - {call.key}
      ensures forall t: nat :: token == Some(t) <==> call.key in old(pending) && old(pending)[call.key] == Mutation(t)
    {
      token := None;
      if call.key in pending {
        if pending[call.key].Mutation? {
          token := Some(pending[call.key].token);
        }
        pending := pending - {call.key};
      }
    }

    /** `_close_bridge`: take the entries, then leave the gate once for each mutation among
        them; a second close does nothing. */
    method Close(gate: ServiceMaintenanceGate, ghost br: Bridge)
      requires Matches(br)
      modifies this, gate`active
      ensures closed && (!old(closed) ==> pending == map[])
      ensures br.closed ==> Matches(br) && gate.State() == old(gate.State())
      ensures !br.closed ==>
                && Matches(Local(br, HandlerClose(0)))
                && gate.active == old(gate.active) - |MutationKeys(br.pending)|
                && gate.State() == old(gate.State()).(active := gate.active)
    {
      if closed {
        return;
      }
      closed := true;
      var taken := pending;
      pending := map[];
      var left := taken.Keys;
      while left != {}
        invariant left <= taken.Keys && taken == br.pending
        invariant pending == map[] && closed
        invariant gate.active == old(gate.active) - |MutationKeys(taken)| + |MutationsIn(left, taken)|
        invariant gate.State() == old(gate.State()).(active := gate.active)
        decreases |left|
      {
        var key :| key in left;
        if taken[key].Mutation? {
          var _ := gate.ExitMutation();
          TokenCount(left, taken, key);
        } else {
          assert MutationsIn(left, taken) == MutationsIn(left - {key}, taken);
        }
        left := left - {key};
        assert MutationsIn(taken.Keys, taken) == MutationKeys(taken);
      }
    }
  }
}

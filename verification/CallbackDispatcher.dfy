// The dispatcher's dicts and sets over all turns. Each method is one critical section under
// the dispatcher's condition: it does to its own turn what the step of `CallbackTurns` it stands
// for does, and leaves every other turn alone.

module CallbackDispatcher {
  import opened Prelude
  import opened LegacyStores
  import opened CallbackTurns

  class TerminalCallbackDispatcher {
    var contexts: map<Key, string>
    var snapshots: map<Key, string>
    var completions: map<Key, Completion>
    var errors: map<Key, string>
    var projectionOwners: set<Key>
    var persistenceOwners: set<Key>
    var processing: set<Key>
    var callbackDone: set<Key>
    var callbackAbandoned: set<Key>
    var clientDone: set<Key>
    var stopping: bool

    function View(k: Key): Turn
      reads this
    {
      Turn(k in contexts, k in snapshots,
           if k in completions then Some(completions[k]) else None,
           if k in errors then Some(errors[k]) else None,
           k in projectionOwners, k in persistenceOwners, k in processing,
           k in callbackDone, k in callbackAbandoned, k in clientDone)
    }

    twostate predicate OnlyTurn(k: Key)
      reads this
    {
      forall j: Key :: j != k ==> View(j) == old(View(j))
    }

    constructor ()
      ensures forall k :: View(k) == UNTRACKED
      ensures !stopping
    {
      contexts, snapshots, completions, errors := map[], map[], map[], map[];
      projectionOwners, persistenceOwners, processing := {}, {}, {};
      callbackDone, callbackAbandoned, clientDone, stopping := {}, {}, {}, false;
    }

    /** A context is immutable once observed. */
    method ObserveTurn(k: Key, context: string) returns (accepted: bool)
      modifies this`contexts
      ensures accepted <==> !(k in old(contexts) && old(contexts)[k] != context)
      ensures View(k) == if accepted then old(View(k)).(context := true) else old(View(k))
      ensures accepted ==> contexts[k] == context
      ensures OnlyTurn(k)
    {
      accepted := !(k in contexts && contexts[k] != context);
      if accepted {
        contexts := contexts[k := context];
      }
    }

    /** The first snapshot handed over stays. */
    method HandOff(k: Key, snapshot: string)
      modifies this`snapshots
      ensures View(k) == old(View(k)).(snapshot := true)
      ensures snapshots[k] == if k in old(snapshots) then old(snapshots)[k] else snapshot
      ensures OnlyTurn(k)
    {
      if k !in snapshots {
        snapshots := snapshots[k := snapshot];
      }
    }

    predicate Ready(k: Key)
      reads this
    {
      View(k).snapshot && View(k).context && !View(k).processing && !View(k).done && !View(k).abandoned
    }

    /** `_ready_key` and the claim that follows under the same lock. */
    method ClaimReady() returns (key: Option<Key>)
      modifies this`processing
      ensures key.None? ==> (forall k :: !old(Ready(k))) && processing == old(processing)
      ensures key.Some? ==>
                && old(Ready(key.value)) && OnlyTurn(key.value)
                && View(key.value) == old(View(key.value)).(processing := true)
    {
      var todo := snapshots.Keys;
      key := None;
      while todo != {}
        invariant forall k :: Ready(k) ==> k in todo
        invariant processing == old(processing) && key.None?
        decreases |todo|
      {
        var k :| k in todo;
        if k in contexts && k !in processing && k !in callbackDone && k !in callbackAbandoned && k in snapshots {
          processing := processing + {k};
          return Some(k);
        }
        todo := todo - {k};
      }
    }

    method EnterProject(k: Key) returns (r: Admission)
      modifies this`projectionOwners
      ensures r == AdmissionFor(old(View(k)))
      ensures View(k) == if r == Owner then old(View(k)).(projecting := true) else old(View(k))
      ensures OnlyTurn(k)
      ensures r.Known? <==> k in completions && r == Known(completions[k])
      ensures r.Failed? <==> k !in completions && k in errors && r == Failed(errors[k])
      ensures r == Owner <==> k !in completions && k !in errors && k !in old(projectionOwners)
    {
      if k in completions {
        return Known(completions[k]);
      }
      if k in errors {
        return Failed(errors[k]);
      }
      if k in projectionOwners {
        return Wait;
      }
      projectionOwners := projectionOwners + {k};
      r := Owner;
    }

    method FinishProject(k: Key, seen: Seen)
      modifies this`projectionOwners, this`completions, this`errors
      ensures View(k) == ProjectedTurn(old(View(k)), seen)
      ensures OnlyTurn(k)
      ensures k !in projectionOwners
      ensures seen.Ok? ==> k in completions && completions[k] == seen.value && errors == old(errors)
      ensures seen.Err? ==> k in errors && errors[k] == seen.error && completions == old(completions)
    {
      projectionOwners := projectionOwners - {k};
      match seen {
        case Ok(c) => completions := completions[k := c];
        case Err(e) => errors := errors[k := e];
      }
    }

    /** The entry of `_persist_once`. */
    method EnterPersist(k: Key) returns (r: Permit)
      modifies this`persistenceOwners
      ensures r == PersistPermit(old(View(k)))
      ensures View(k) == PermittedTurn(old(View(k)), r)
      ensures OnlyTurn(k)
      ensures r == Settled <==> k in callbackDone || k in callbackAbandoned
      ensures r == Granted <==> k !in callbackDone && k !in callbackAbandoned && k !in old(persistenceOwners)
    {
      if k in callbackDone || k in callbackAbandoned {
        return Settled;
      }
      if k in persistenceOwners {
        return Blocked;
      }
      persistenceOwners := persistenceOwners + {k};
      r := Granted;
    }

    /** The entry of `_persist_fallback_once`, which never waits. */
    method EnterFallbackPersist(k: Key) returns (owner: bool)
      modifies this`persistenceOwners
      ensures owner <==> PersistPermit(old(View(k))) == Granted
      ensures View(k) == PermittedTurn(old(View(k)), PersistPermit(old(View(k))))
      ensures OnlyTurn(k)
      ensures owner <==> k !in callbackDone && k !in callbackAbandoned && k !in old(persistenceOwners)
    {
      owner := k !in callbackDone && k !in callbackAbandoned && k !in persistenceOwners;
      if owner {
        persistenceOwners := persistenceOwners + {k};
      }
    }

    /** The entry of `_durable_fault_once`, which looks at done but not at abandoned. */
    method EnterFaultOnce(k: Key) returns (r: Permit)
      modifies this`persistenceOwners
      ensures r == FaultPermit(old(View(k)))
      ensures View(k) == PermittedTurn(old(View(k)), r)
      ensures OnlyTurn(k)
      ensures r == Settled <==> k in callbackDone
      ensures r == Granted <==> k !in callbackDone && k !in old(persistenceOwners)
    {
      if k in callbackDone {
        return Settled;
      }
      if k in persistenceOwners {
        return Blocked;
      }
      persistenceOwners := persistenceOwners + {k};
      r := Granted;
    }

    /** `_cleanup`: all of the turn or nothing of it. */
    method CleanUp(k: Key)
      modifies this`contexts, this`snapshots, this`completions, this`errors, this`projectionOwners,
               this`persistenceOwners, this`processing, this`callbackDone, this`callbackAbandoned, this`clientDone
      ensures View(k) == CleanTurn(old(View(k)))
      ensures OnlyTurn(k)
      ensures (k in old(callbackDone) || k in old(callbackAbandoned)) && k in old(clientDone) && k !in old(processing) ==>
                View(k) == UNTRACKED
      ensures !((k in old(callbackDone) || k in old(callbackAbandoned)) && k in old(clientDone) && k !in old(processing)) ==>
                View(k) == old(View(k))
    {
      if (k !in callbackDone && k !in callbackAbandoned) || k !in clientDone || k in processing {
        return;
      }
      PopEntries(k);
      DiscardMarks(k);
    }

    /** The part of `_cleanup` that pops from the dicts. */
    method PopEntries(k: Key)
      modifies this`contexts, this`snapshots, this`completions, this`errors
      ensures View(k) == old(View(k)).(context := false, snapshot := false, completion := None, error := None)
      ensures OnlyTurn(k)
    {
      contexts, snapshots := contexts - {k}, snapshots - {k};
      completions, errors := completions - {k}, errors - {k};
    }

    /** The part that discards from the sets. */
    method DiscardMarks(k: Key)
      modifies this`projectionOwners, this`persistenceOwners, this`processing, this`callbackDone,
               this`callbackAbandoned, this`clientDone
      ensures View(k) == old(View(k)).(projecting := false, persisting := false, processing := false, done := false,
                                       abandoned := false, clientDone := false)
      ensures OnlyTurn(k)
    {
      projectionOwners, persistenceOwners := projectionOwners - {k}, persistenceOwners - {k};
      processing, callbackDone := processing - {k}, callbackDone - {k};
      callbackAbandoned, clientDone := callbackAbandoned - {k}, clientDone - {k};
    }

    method FinishDone(k: Key)
      modifies this
      ensures View(k) == SettledTurn(old(View(k)), AsDone)
      ensures OnlyTurn(k) && stopping == old(stopping)
    {
      persistenceOwners := persistenceOwners - {k};
      callbackDone := callbackDone + {k};
      CleanUp(k);
    }

    method FinishAbandoned(k: Key)
      modifies this
      ensures View(k) == SettledTurn(old(View(k)), AsLost)
      ensures OnlyTurn(k) && stopping == old(stopping)
    {
      persistenceOwners := persistenceOwners - {k};
      callbackAbandoned := callbackAbandoned + {k};
      CleanUp(k);
    }

    /** After a failed persist by the processor; while the dispatcher runs, the turn is kept for
        another try even when the fault was recorded. */
    method SettlePersist(k: Key, recorded: bool) returns (lost: bool)
      modifies this
      ensures View(k) == SettledTurn(old(View(k)), SettlementOf(OfPersist, recorded, stopping))
      ensures lost <==> SettlementOf(OfPersist, recorded, stopping) == AsLost
      ensures OnlyTurn(k) && stopping == old(stopping)
      ensures lost <==> stopping && !recorded
      ensures !stopping ==> View(k) == old(View(k)).(persisting := false)
    {
      lost := false;
      if recorded && stopping {
        FinishDone(k);
      } else if stopping {
        lost := true;
        FinishAbandoned(k);
      } else {
        persistenceOwners := persistenceOwners - {k};
      }
    }

    /** After a failed fallback by the client, which never keeps the turn. */
    method SettleFallback(k: Key, recorded: bool) returns (lost: bool)
      modifies this
      ensures View(k) == SettledTurn(old(View(k)), SettlementOf(OfFallback, recorded, stopping))
      ensures lost <==> SettlementOf(OfFallback, recorded, stopping) == AsLost
      ensures OnlyTurn(k) && stopping == old(stopping)
      ensures lost <==> !recorded
    {
      lost := false;
      if recorded {
        FinishDone(k);
      } else {
        lost := true;
        FinishAbandoned(k);
      }
    }

    /** After a failed projection, by either thread. */
    method SettleProjectionFault(k: Key, recorded: bool) returns (lost: bool)
      modifies this
      ensures View(k) == SettledTurn(old(View(k)), SettlementOf(OfProjection, recorded, stopping))
      ensures lost <==> SettlementOf(OfProjection, recorded, stopping) == AsLost
      ensures OnlyTurn(k) && stopping == old(stopping)
      ensures lost <==> stopping && !recorded
      ensures !stopping && !recorded ==> View(k) == old(View(k)).(persisting := false)
    {
      lost := false;
      if recorded {
        FinishDone(k);
      } else if stopping {
        lost := true;
        FinishAbandoned(k);
      } else {
        persistenceOwners := persistenceOwners - {k};
      }
    }

    /** The processor gives the key back. */
    method ReleaseKey(k: Key, clean: bool)
      modifies this
      ensures View(k) == FreedTurn(old(View(k)), clean)
      ensures OnlyTurn(k) && stopping == old(stopping)
    {
      processing := processing - {k};
      if clean {
        CleanUp(k);
      }
    }

    /** The client marks itself done: after projecting, after raising, or abandoning. */
    method ClientFinished(k: Key)
      modifies this
      ensures View(k) == ClientDoneTurn(old(View(k)))
      ensures OnlyTurn(k) && stopping == old(stopping)
    {
      clientDone := clientDone + {k};
      CleanUp(k);
    }
  }
}

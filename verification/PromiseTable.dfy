/** The guest's async RPC core (kafig-runtime/src/prelude.js): the map of pending
    promises and the id counter, updated in place by the prelude's closures. */
module PromiseTable {
  import opened Rpc
  import opened PromiseIds
  import opened Protocol

  class Prelude {
    var pendingRpcs: map<nat, Entry>
    var nextRpcId: nat
    var settled: seq<Settlement>  // what the promises were told, in order

    ghost predicate Valid()
      reads this
    {
      1 <= nextRpcId <= MAX_EXACT
    }

    constructor ()
      ensures Valid() && pendingRpcs == map[] && nextRpcId == CounterAt(1) == 1 && settled == []
    {
      pendingRpcs, nextRpcId, settled := map[], 1, [];
    }

    /** makeRpcPromise up to and including the insertion. */
    method MakeRpcPromise(entry: Entry) returns (id: nat)
      requires Valid() && 1 <= entry.uid && nextRpcId == CounterAt(entry.uid)
      modifies this
      ensures Valid() && nextRpcId == CounterAt(entry.uid + 1)
      ensures id == IdOf(entry.uid)
      ensures pendingRpcs == old(pendingRpcs)[id := entry] && settled == old(settled)
    {
      id := Masked(nextRpcId);
      MaskedIsModulo(nextRpcId);
      nextRpcId := Increment(nextRpcId);
      pendingRpcs := pendingRpcs[id := entry];
    }

    /** resolveRpc and rejectRpc: look up, delete, settle; an unknown id is ignored.
        QuickJS can interrupt the call; `reached` is how far it gets. */
    method SettleRpc(r: Result, reached: Reached)
      requires Valid()
      modifies this
      ensures Valid() && nextRpcId == old(nextRpcId)
      ensures pendingRpcs == if reached == Untouched then old(pendingRpcs) else old(pendingRpcs) - {r.call.id}
      ensures settled == old(settled) + if reached == Settled then Told(old(pendingRpcs), r) else []
    {
      if reached == Untouched || r.call.id !in pendingRpcs {
        return;
      }
      var e := pendingRpcs[r.call.id];
      pendingRpcs := pendingRpcs - {r.call.id};
      if reached == Settled {
        settled := settled + [Settlement(e.uid, e.inv, r.call, OutcomeOf(r))];
      }
    }

    /** A script's own call of resolveRpc or rejectRpc; `settled` is only about the
        host's. */
    method ScriptSettles(id: nat) returns (found: bool)
      requires Valid()
      modifies this
      ensures Valid() && nextRpcId == old(nextRpcId) && settled == old(settled)
      ensures pendingRpcs == old(pendingRpcs) - {id} && found == (id in old(pendingRpcs))
    {
      found := id in pendingRpcs;
      pendingRpcs := pendingRpcs - {id};
    }

    method Reset()
      requires Valid()
      modifies this
      ensures Valid() && pendingRpcs == map[] && nextRpcId == old(nextRpcId) && settled == old(settled)
    {
      pendingRpcs := map[];
    }
  }
}

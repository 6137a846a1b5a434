/**
  The queue shared by all workers remembers who claimed what under which lease,
  and lets only that claim be settled.
 */
module ClaimGuard {
  import opened Common
  import opened SyncTrace
  import Text

  datatype QueueClaim = QueueClaim(providerID: string, leaseOwner: string)

  /** A claim that was handed out: operation, provider and lease. */
  datatype ClaimRecord = ClaimRecord(id: string, claim: QueueClaim)

  datatype ClaimError = NoneEligible | QueueFailed | LeaseMissing

  /** A stored operation; the store counted the attempt when it was claimed. */
  datatype StoredOperation = StoredOperation(id: string, providerID: string, leaseOwner: string, attempts: int)

  /** The operation as workers see it, before the attempt they are about to make. */
  function FromStored(op: StoredOperation): Operation {
    Operation(op.id, op.providerID, op.leaseOwner, if op.attempts - 1 < 0 then 0 else op.attempts - 1)
  }

  /** After the worker's own increment the provider sees the stored number of attempts, and at least one. */
  lemma AttemptsAgree(op: StoredOperation)
    ensures FromStored(op).attempts + 1 == if op.attempts >= 1 then op.attempts else 1
  {
  }

  predicate LeasePresent(leaseOwner: string) { Text.Trim(leaseOwner) != "" }

  ghost predicate IsLatest(claims: seq<ClaimRecord>, id: string, k: nat) {
    k < |claims| && claims[k].id == id && forall l :: k < l < |claims| ==> claims[l].id != id
  }

  /** What is remembered is exactly each operation's latest claim, unless that was settled; none was settled twice. */
  ghost predicate Ledger(claimed: map<string, QueueClaim>, claims: seq<ClaimRecord>, latest: map<string, nat>,
                         settled: seq<nat>) {
    && Distinct(settled) && (forall k :: k in settled ==> k < |claims|)
    && (forall id :: id in latest ==> IsLatest(claims, id, latest[id]))
    && (forall k :: 0 <= k < |claims| ==> claims[k].id in latest)
    && (forall id :: id in latest && latest[id] !in settled ==> id in claimed)
    && forall id :: id in claimed ==> id in latest && claims[latest[id]].claim == claimed[id] && latest[id] !in settled
  }

  lemma ClaimKeepsLedger(claimed: map<string, QueueClaim>, claims: seq<ClaimRecord>, latest: map<string, nat>,
                         settled: seq<nat>, id: string, claim: QueueClaim)
    requires Ledger(claimed, claims, latest, settled)
    ensures Ledger(claimed[id := claim], claims + [ClaimRecord(id, claim)], latest[id := |claims|], settled)
  {
    var longer, newest := claims + [ClaimRecord(id, claim)], latest[id := |claims|];
    forall other | other in newest
      ensures IsLatest(longer, other, newest[other])
    {
      if other != id {
        assert IsLatest(claims, other, latest[other]);
      }
    }
  }

  class SharedQueue {
    var claimed: map<string, QueueClaim>
    ghost var claims: seq<ClaimRecord>
    ghost var latest: map<string, nat>
    ghost var settled: seq<nat>

    ghost predicate Valid()
      reads this
    {
      Ledger(claimed, claims, latest, settled)
    }

    constructor ()
      ensures Valid() && claims == [] && settled == [] && claimed == map[]
    {
      claimed, claims, latest, settled := map[], [], map[], [];
    }

    method Claim(providerID: string, reply: Option<StoredOperation>, fault: bool)
        returns (r: Result<Operation, ClaimError>)
      requires Valid()
      modifies this
      ensures Valid() && settled == old(settled)
      ensures r.Ok? <==> !fault && reply.Some? && LeasePresent(reply.value.leaseOwner)
      ensures r.Ok? ==> && r.value == FromStored(reply.value)
                        && claims == old(claims) + [ClaimRecord(r.value.id, QueueClaim(providerID, r.value.leaseOwner))]
                        && claimed == old(claimed)[r.value.id := QueueClaim(providerID, r.value.leaseOwner)]
                        && latest == old(latest)[r.value.id := |old(claims)|]
      ensures r.Err? ==> claims == old(claims) && claimed == old(claimed)
    {
      if fault {
        return Err(QueueFailed);
      }
      if reply.None? {
        return Err(NoneEligible);
      }
      var op := FromStored(reply.value);
      if !LeasePresent(op.leaseOwner) {
        return Err(LeaseMissing);
      }
      ClaimKeepsLedger(claimed, claims, latest, settled, op.id, QueueClaim(providerID, op.leaseOwner));
      claimed := claimed[op.id := QueueClaim(providerID, op.leaseOwner)];
      claims := claims + [ClaimRecord(op.id, QueueClaim(providerID, op.leaseOwner))];
      latest := latest[op.id := |claims| - 1];
      r := Ok(op);
    }

    predicate CheckClaim(providerID: string, id: string, leaseOwner: string)
      reads this
    {
      LeasePresent(leaseOwner) && id in claimed && claimed[id] == QueueClaim(providerID, leaseOwner)
    }

    /** Complete, Fail and Release alike: accepted once, for the latest claim's provider and lease. */
    method Settle(providerID: string, id: string, leaseOwner: string, queueOK: bool) returns (ok: bool)
      requires Valid()
      modifies `claimed, `settled
      ensures Valid()
      ensures ok ==> && id in latest && claims[latest[id]] == ClaimRecord(id, QueueClaim(providerID, leaseOwner))
                     && latest[id] !in old(settled) && settled == old(settled) + [latest[id]]
                     && claimed == old(claimed) - {id}
      ensures !ok ==> claimed == old(claimed) && settled == old(settled)
      ensures ok <==> queueOK && old(CheckClaim(providerID, id, leaseOwner))
    {
      if !CheckClaim(providerID, id, leaseOwner) {
        return false;
      }
      if !queueOK {
        return false;
      }
      claimed := claimed - {id};
      settled := settled + [latest[id]];
      ok := true;
    }

    /**
      A worker gives an operation back under the operation's own provider. The guard accepts that exactly when the
      queue handed out an operation of the worker's provider, as it should; otherwise the claim stays remembered,
      and its lease runs until stale leases are recovered.
     */
    method ClaimAndRelease(providerID: string, reply: StoredOperation, queueOK: bool) returns (ok: bool)
      requires Valid() && LeasePresent(reply.leaseOwner)
      modifies this
      ensures Valid()
      ensures ok <==> reply.providerID == providerID && queueOK
      ensures if ok then reply.id !in claimed && settled == old(settled) + [|old(claims)|]
              else reply.id in claimed && claimed[reply.id] == QueueClaim(providerID, reply.leaseOwner)
                   && settled == old(settled)
    {
      var claim := Claim(providerID, Some(reply), false);
      ok := Settle(claim.value.providerID, claim.value.id, claim.value.leaseOwner, queueOK);
    }
  }
}

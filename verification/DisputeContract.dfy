/** The dispute contract as an object whose storage its entry points overwrite, and which calls the
    delivery and escrow contracts. Each method does what the contract does, step by step, and is
    proved equal to the Disputes function of the old state of all three contracts. */
module DisputeContracts {
  import opened Prelude
  import opened Disputes
  import Delivery
  import DeliveryContracts
  import Escrow
  import EscrowContracts

  class DisputeContract {
    const delivery: DeliveryContracts.DeliveryContract
    // The delivery contract is configured with the same escrow contract.
    const escrow: EscrowContracts.EscrowContract := delivery.escrow

    var admins: set<Address>
    var timeLimit: nat
    var resolutionLimit: nat
    var cases: map<nat, DisputeCase>
    ghost var forced: set<nat>

    ghost function View(): Triple
      reads this, delivery, escrow, escrow.ledger
    {
      Triple(DisputeState(admins, timeLimit, resolutionLimit, cases, forced), delivery.State(), escrow.View())
    }

    /** The new state of the three contracts and the reported result are those of the specified outcome. */
    ghost predicate Reports(outcome: Result<Triple>, before: Triple, r: Result<Unit>)
      reads this, delivery, escrow, escrow.ledger
    {
      match outcome
      case Ok(after) => r == Ok(Unit) && View() == after
      case Err(e) => r == Err(e) && View() == before
    }

    constructor (delivery: DeliveryContracts.DeliveryContract, admin: Address, timeLimit: nat, resolutionLimit: nat)
      ensures this.delivery == delivery
      ensures View() == Triple(DisputeState({admin}, timeLimit, resolutionLimit, map[], {}), delivery.State(), delivery.escrow.View())
    {
      this.delivery, this.timeLimit, this.resolutionLimit := delivery, timeLimit, resolutionLimit;
      admins, cases, forced := {admin}, map[], {};
    }

    method CheckWindow(now: nat, record: Delivery.DeliveryRecord) returns (r: Result<Unit>)
      ensures r == DisputeWindow(View().q, record, now)
    {
      match record.status
      case Delivered =>
        var deliveredAt := if record.deliveredAt.Some? then record.deliveredAt.value else 0;
        var deadline :- AddU64(deliveredAt, timeLimit);
        return if now > deadline then Err(InvalidState) else Ok(Unit);
      case Active => return Ok(Unit);
      case InTransit => return Ok(Unit);
      case _ => return Err(InvalidState);
    }

    /** Disputes the delivery and freezes the escrow, or neither. */
    method EscalateDelivery(now: nat, caller: Address, id: nat) returns (r: Result<Unit>)
      modifies delivery`records, escrow`records
      ensures delivery.Reports(DisputeAndFreeze(old(delivery.View()), now, caller, id), old(delivery.View()), r)
    {
      var deliveries, escrows := delivery.records, escrow.records;
      var _ :- delivery.RaiseDispute(now, caller, id);
      r := escrow.FreezeFunds(now, DisputeAddress, id);
      if r.Err? {
        // The host discards the writes of a call that panicked.
        delivery.records, escrow.records := deliveries, escrows;
      }
    }

    method RaiseDispute(now: nat, caller: Address, id: nat) returns (r: Result<Unit>)
      modifies `cases, delivery`records, escrow`records
      ensures Reports(DoRaise(old(View()), now, caller, id), old(View()), r)
    {
      if id !in delivery.records {
        return Err(NotFound);
      }
      var record := delivery.records[id];
      if caller != record.sender && caller != record.recipient && Some(caller) != record.driver {
        return Err(Unauthorized);
      }
      var _ :- CheckWindow(now, record);
      RaiseParts(View(), now, caller, id);
      var deliveries, escrows := delivery.records, escrow.records;
      var _ :- EscalateDelivery(now, caller, id);
      if id in cases {
        delivery.records, escrow.records := deliveries, escrows;
        return Err(Duplicate);
      }
      cases := cases[id := DisputeCase(id, Open, now, caller, [], None, None)];
      return Ok(Unit);
    }

    method AddEvidenceHash(caller: Address, id: nat, hash: Hash) returns (r: Result<Unit>)
      modifies `cases
      ensures Reports(DoAddEvidence(old(View()), caller, id, hash), old(View()), r)
    {
      if id !in cases {
        return Err(NotFound);
      }
      var dispute := cases[id];
      if dispute.status != Open {
        return Err(InvalidState);
      }
      if id !in delivery.records {
        return Err(NotFound);
      }
      var record := delivery.records[id];
      if caller != record.sender && caller != record.recipient && Some(caller) != record.driver {
        return Err(Unauthorized);
      }
      cases := cases[id := dispute.(evidence := dispute.evidence + [hash])];
      return Ok(Unit);
    }

    method ResolveDisputeRefundSender(now: nat, caller: Address, id: nat) returns (r: Result<Unit>)
      modifies `cases, escrow`records, escrow`totalLocked, escrow`senderVolume, escrow`audit, escrow.ledger
      ensures Reports(DoRefundSender(old(View()), old(escrow.Registry()), now, caller, id), old(View()), r)
    {
      if caller !in admins {
        return Err(Unauthorized);
      }
      if id !in cases {
        return Err(NotFound);
      }
      var saved := cases;
      var dispute := cases[id];
      if dispute.status != Open {
        return Err(InvalidState);
      }
      cases := cases[id := dispute.(status := ResolvedRefund, resolvedAt := Some(now), resolvedBy := Some(caller))];
      if id !in delivery.records || delivery.records[id].driver.None? {
        cases := saved;
        return Err(NotFound);
      }
      r := escrow.ResolveDispute(caller, id, false);
      if r.Err? {
        cases := saved;
      }
    }

    method ResolveDisputeSplitFunds(now: nat, caller: Address, id: nat, senderBps: nat) returns (r: Result<Unit>)
      modifies `cases, escrow`records, escrow`totalLocked, escrow`audit, escrow.ledger
      ensures Reports(DoSplitBetween(old(View()), now, caller, id, senderBps), old(View()), r)
    {
      if caller !in admins {
        return Err(Unauthorized);
      }
      if id !in cases {
        return Err(NotFound);
      }
      var saved := cases;
      var dispute := cases[id];
      if dispute.status != Open {
        return Err(InvalidState);
      }
      cases := cases[id := dispute.(status := SplitFunds, resolvedAt := Some(now), resolvedBy := Some(caller))];
      if id !in escrow.records {
        cases := saved;
        return Err(NotFound);
      }
      if escrow.records[id].status != Escrow.Paused {
        cases := saved;
        return Err(InvalidState);
      }
      if id !in delivery.records {
        cases := saved;
        return Err(NotFound);
      }
      r := escrow.ResolveDisputeSplit(caller, id, senderBps);
      if r.Err? {
        cases := saved;
      }
    }

    /** The money moves before the delivery is looked up, so a missing delivery takes it back. */
    method ResolveDisputePayDriver(now: nat, caller: Address, id: nat) returns (r: Result<Unit>)
      modifies `cases, escrow`records, escrow`index, escrow`totalLocked, escrow`senderVolume, escrow`audit, escrow.ledger
      ensures Reports(DoPayDriver(old(View()), old(escrow.Registry()), now, caller, id), old(View()), r)
    {
      if caller !in admins {
        return Err(Unauthorized);
      }
      if id !in cases {
        return Err(NotFound);
      }
      var saved, escrowBefore, money := cases, escrow.State(), escrow.ledger.balances;
      ghost var history := escrow.audit;
      var dispute := cases[id];
      if dispute.status != Open {
        return Err(InvalidState);
      }
      cases := cases[id := dispute.(status := ResolvedPayout, resolvedAt := Some(now), resolvedBy := Some(caller))];
      r := escrow.ResolveDispute(caller, id, true);
      if r.Ok? && id !in delivery.records {
        escrow.Rollback(escrowBefore, money, history);
        r := Err(NotFound);
      }
      if r.Err? {
        cases := saved;
      }
    }

    /** The fallback split, applied only while the escrow is still paused. */
    method ForceResolveDispute(now: nat, caller: Address, id: nat) returns (r: Result<Unit>)
      modifies `cases, `forced, escrow`records, escrow`totalLocked, escrow`audit, escrow.ledger
      ensures Reports(DoForceResolve(old(View()), now, caller, id), old(View()), r)
    {
      if id !in cases {
        return Err(NotFound);
      }
      var saved := cases;
      var dispute := cases[id];
      if dispute.status != Open {
        return Err(InvalidState);
      }
      if id !in delivery.records {
        return Err(NotFound);
      }
      var record := delivery.records[id];
      if caller != record.sender && caller != record.recipient && Some(caller) != record.driver {
        return Err(Unauthorized);
      }
      var deadline :- AddU64(dispute.raisedAt, resolutionLimit);
      if now <= deadline {
        return Err(InvalidState);
      }
      ForceParts(View(), now, caller, id);
      cases := cases[id := dispute.(status := SplitFunds, resolvedAt := Some(now), resolvedBy := Some(caller))];
      if id !in escrow.records {
        cases := saved;
        return Err(NotFound);
      }
      if escrow.records[id].status == Escrow.Paused {
        r := escrow.ResolveDisputeSplit(caller, id, DEFAULT_SENDER_SHARE_BPS);
        if r.Err? {
          cases := saved;
          return;
        }
      }
      forced := forced + {id};
      return Ok(Unit);
    }
  }
}

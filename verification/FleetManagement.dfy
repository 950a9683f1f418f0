/** The fleet contract as an object whose storage its entry points overwrite. Each method does
    what the contract does, step by step, and is proved equal to the Fleet function of the old state. */
module FleetManagement {
  import opened Prelude
  import opened Fleet

  class FleetContract {
    var admin: Address
    var counter: nat
    var fleets: map<nat, FleetProfile>
    var members: map<Membership, DriverStatus>
    var rosters: map<nat, seq<Address>>
    var pending: map<nat, PendingTreasury>

    function State(): FleetState
      reads this
    {
      FleetState(admin, counter, fleets, members, rosters, pending)
    }

    /** The new state and the reported result are those of the specified outcome. */
    ghost predicate Reports(outcome: Result<FleetState>, before: FleetState, r: Result<Unit>)
      reads this
    {
      match outcome
      case Ok(after) => r == Ok(Unit) && State() == after
      case Err(e) => r == Err(e) && State() == before
    }

    constructor (admin: Address)
      ensures State() == EmptyFleets(admin)
    {
      this.admin := admin;
      counter, fleets, members, rosters, pending := 0, map[], map[], map[], map[];
    }

    /** The host discards the writes of a call that panicked. */
    method Rollback(saved: FleetState)
      modifies this
      ensures State() == saved
    {
      admin, counter := saved.admin, saved.counter;
      fleets, members, rosters, pending := saved.fleets, saved.members, saved.rosters, saved.pending;
    }

    method IsSigner(signers: seq<Address>, who: Address) returns (found: bool)
      ensures found <==> who in signers
    {
      found := false;
      for i := 0 to |signers|
        invariant !found && who !in signers[..i]
      {
        if signers[i] == who {
          return true;
        }
      }
    }

    method RegisterFleet(owner: Address, treasury: Address) returns (r: Result<nat>)
      modifies this
      ensures match Fleet.RegisterFleet(old(State()), owner, treasury)
              case Ok(after) => r == Ok(old(counter) + 1) && State() == after
              case Err(e) => r == Err(e) && State() == old(State())
    {
      var id :- AddU64(counter, 1);
      counter := id;
      var profile := FleetProfile(id, owner, treasury, 0, [owner], 1, true);
      fleets := fleets[id := profile];
      return Ok(id);
    }

    method DeactivateFleet(caller: Address, id: nat) returns (r: Result<Unit>)
      modifies this
      ensures Reports(Fleet.DeactivateFleet(old(State()), caller, id), old(State()), r)
    {
      if id !in fleets {
        return Err(NotFound);
      }
      var profile := fleets[id];
      if profile.owner != caller && admin != caller {
        return Err(Unauthorized);
      }
      fleets := fleets[id := profile.(active := false)];
      return Ok(Unit);
    }

    method UpdateFleetTreasury(now: nat, owner: Address, id: nat, treasury: Address) returns (r: Result<Unit>)
      modifies this
      ensures Reports(UpdateTreasury(old(State()), now, owner, id, treasury), old(State()), r)
    {
      if id !in fleets {
        return Err(NotFound);
      }
      var authorized := IsSigner(fleets[id].signers, owner);
      if !authorized {
        return Err(Unauthorized);
      }
      var activatesAt := if now + TREASURY_TIMELOCK > U64_MAX then U64_MAX else now + TREASURY_TIMELOCK;
      pending := pending[id := PendingTreasury(treasury, activatesAt)];
      return Ok(Unit);
    }

    method ConfirmFleetTreasuryUpdate(now: nat, id: nat) returns (r: Result<Unit>)
      modifies this
      ensures Reports(ConfirmTreasuryUpdate(old(State()), now, id), old(State()), r)
    {
      if id !in pending {
        return Err(NoPendingChange);
      }
      var change := pending[id];
      if now < change.activatesAt {
        return Err(TimelockNotElapsed);
      }
      if id !in fleets {
        return Err(NotFound);
      }
      fleets := fleets[id := fleets[id].(treasury := change.treasury)];
      pending := pending - {id};
      return Ok(Unit);
    }

    method AddDriverToFleet(caller: Address, id: nat, driver: Address) returns (r: Result<Unit>)
      modifies this
      ensures Reports(InviteDriver(old(State()), caller, id, driver), old(State()), r)
    {
      if id !in fleets {
        return Err(NotFound);
      }
      if !fleets[id].active {
        return Err(FleetInactive);
      }
      var authorized := IsSigner(fleets[id].signers, caller);
      if !authorized {
        return Err(Unauthorized);
      }
      var key := Membership(id, driver);
      if key in members {
        match members[key]
        case Pending => return Err(AlreadyInvited);
        case Active => return Err(AlreadyActive);
        case Removed =>
      }
      members := members[key := Pending];
      return Ok(Unit);
    }

    method CancelInvite(owner: Address, id: nat, driver: Address) returns (r: Result<Unit>)
      modifies this
      ensures Reports(WithdrawInvite(old(State()), owner, id, driver), old(State()), r)
    {
      if id !in fleets {
        return Err(NotFound);
      }
      var authorized := IsSigner(fleets[id].signers, owner);
      if !authorized {
        return Err(Unauthorized);
      }
      var key := Membership(id, driver);
      if key !in members {
        return Err(InviteNotFound);
      }
      if members[key] != Pending {
        return Err(AlreadyActive);
      }
      members := members - {key};
      return Ok(Unit);
    }

    method AcceptFleetInvite(id: nat, driver: Address) returns (r: Result<Unit>)
      modifies this
      ensures Reports(AcceptInvite(old(State()), id, driver), old(State()), r)
    {
      var saved := State();
      if id !in fleets {
        return Err(NotFound);
      }
      var key := Membership(id, driver);
      if key !in members {
        return Err(InviteNotFound);
      }
      match members[key]
      case Active => return Err(AlreadyActive);
      case Removed => return Err(InvalidState);
      case Pending =>
        members := members[key := Active];
        var count := AddU32(fleets[id].activeDrivers, 1);
        if count.Err? {
          Rollback(saved);
          return Err(count.error);
        }
        fleets := fleets[id := fleets[id].(activeDrivers := count.value)];
        var roster := if id in rosters then rosters[id] else [];
        if |roster| >= MAX_ROSTER_SIZE {
          Rollback(saved);
          return Err(RosterFull);
        }
        var alreadyInRoster := IsSigner(roster, driver);
        if !alreadyInRoster {
          rosters := rosters[id := roster + [driver]];
        }
        return Ok(Unit);
    }

    /** The copying loop of a removal: everybody but the driver, in order. */
    method RebuildRoster(roster: seq<Address>, driver: Address) returns (kept: seq<Address>)
      ensures kept == Without(roster, driver)
    {
      kept := [];
      for i := 0 to |roster|
        invariant kept == Without(roster[..i], driver)
      {
        assert roster[..i + 1][..i] == roster[..i];
        if roster[i] != driver {
          kept := kept + [roster[i]];
        }
      }
      assert roster[..|roster|] == roster;
    }

    /** Takes the driver off the roster; an empty roster is deleted. */
    method DropFromRoster(id: nat, driver: Address)
      modifies `rosters
      ensures var kept := Without(RosterOf(old(State()), id), driver);
              rosters == if id !in old(rosters) then old(rosters)
                         else if kept == [] then old(rosters) - {id} else old(rosters)[id := kept]
    {
      if id in rosters {
        var kept := RebuildRoster(rosters[id], driver);
        if |kept| > 0 {
          rosters := rosters[id := kept];
        } else {
          rosters := rosters - {id};
        }
      }
    }

    method RemoveDriverFromFleet(id: nat, caller: Address, driver: Address) returns (r: Result<Unit>)
      modifies this
      ensures Reports(RemoveDriver(old(State()), id, caller, driver), old(State()), r)
    {
      if id !in fleets {
        return Err(NotFound);
      }
      var profile := fleets[id];
      var authorized := IsSigner(profile.signers, caller);
      if !authorized && caller != driver {
        return Err(Unauthorized);
      }
      var key := Membership(id, driver);
      if key !in members {
        return Err(InviteNotFound);
      }
      if members[key] == Active && profile.activeDrivers > 0 {
        fleets := fleets[id := profile.(activeDrivers := profile.activeDrivers - 1)];
      }
      members := members[key := Removed];
      DropFromRoster(id, driver);
      return Ok(Unit);
    }

    method ConfigureSigners(owner: Address, id: nat, signers: seq<Address>, threshold: nat) returns (r: Result<Unit>)
      modifies this
      ensures Reports(SetSigners(old(State()), owner, id, signers, threshold), old(State()), r)
    {
      if id !in fleets {
        return Err(NotFound);
      }
      var profile := fleets[id];
      if profile.owner != owner {
        return Err(Unauthorized);
      }
      if threshold == 0 || threshold > |signers| {
        return Err(Unauthorized);
      }
      fleets := fleets[id := profile.(signers := signers, threshold := threshold)];
      return Ok(Unit);
    }

    method GetPayoutAddress(driver: Address, id: nat) returns (r: Result<Address>)
      ensures r == PayoutAddress(State(), driver, id)
    {
      var key := Membership(id, driver);
      if key !in members {
        return Ok(driver);
      }
      match members[key]
      case Active =>
        if id !in fleets {
          return Err(NotFound);
        }
        return Ok(if fleets[id].active then fleets[id].treasury else driver);
      case _ =>
        return Ok(driver);
    }
  }
}

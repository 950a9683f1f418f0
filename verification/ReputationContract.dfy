/** The reputation contract as an object whose profiles its entry points overwrite. Each method does
    what the contract does, step by step, and is proved equal to the Reputation function of the old state. */
module ReputationContracts {
  import opened Prelude
  import opened Reputation

  class ReputationContract {
    var authorized: set<Address>
    var config: Config
    var profiles: map<Address, Profile>

    function State(): ReputationState
      reads this
    {
      ReputationState(authorized, config, profiles)
    }

    /** The new state and the reported result are those of the specified outcome. */
    ghost predicate Reports(outcome: Result<ReputationState>, before: ReputationState, r: Result<Unit>)
      reads this
    {
      match outcome
      case Ok(after) => r == Ok(Unit) && State() == after
      case Err(e) => r == Err(e) && State() == before
    }

    constructor (deliveryContract: Address, disputeContract: Address)
      ensures State() == ReputationState({deliveryContract, disputeContract}, Config(5, 3, 2), map[])
    {
      authorized, config, profiles := {deliveryContract, disputeContract}, DEFAULT_CONFIG, map[];
    }

    method RegisterDriver(now: nat, driver: Address) returns (r: Result<Unit>)
      modifies `profiles
      ensures Reports(DoRegister(old(State()), now, driver), old(State()), r)
    {
      if driver in profiles {
        return Err(AlreadyInitialized);
      }
      profiles := profiles[driver := Profile(driver, 0, FIRST_SCORE, now)];
      return Ok(Unit);
    }

    method IncreaseReputation(caller: Address, driver: Address, weightGrams: nat, fragile: bool) returns (r: Result<Unit>)
      modifies `profiles
      ensures Reports(DoIncrease(old(State()), caller, driver, weightGrams, fragile), old(State()), r)
    {
      if caller !in authorized {
        return Err(Unauthorized);
      }
      if driver !in profiles {
        return Err(NotFound);
      }
      var profile := profiles[driver];
      var points :- AddU32(config.basePoints, 0);
      if weightGrams > HEAVY_CARGO_GRAMS {
        points :- AddU32(points, config.heavyCargoPoints);
      }
      if fragile {
        points :- AddU32(points, config.fragilePoints);
      }
      var raised :- AddU32(profile.score, points);
      var completed :- AddU32(profile.deliveriesCompleted, 1);
      profiles := profiles[driver := profile.(score := if raised < MAX_REPUTATION then raised else MAX_REPUTATION,
                                              deliveriesCompleted := completed)];
      return Ok(Unit);
    }

    method DecreaseReputation(caller: Address, driver: Address, points: nat) returns (r: Result<Unit>)
      modifies `profiles
      ensures Reports(DoDecrease(old(State()), caller, driver, points), old(State()), r)
    {
      if caller !in authorized {
        return Err(Unauthorized);
      }
      if driver !in profiles {
        return Err(NotFound);
      }
      var profile := profiles[driver];
      var lowered := if profile.score < points then 0 else profile.score - points;
      profiles := profiles[driver := profile.(score := lowered)];
      return Ok(Unit);
    }

    method GetDriverTier(driver: Address) returns (r: Result<DriverTier>)
      ensures driver !in profiles ==> r == Err(NotFound)
      ensures driver in profiles ==> r == Ok(TierOf(profiles[driver].score))
      ensures r.Ok? ==> (r.value == Gold <==> profiles[driver].score >= 75) && (r.value == Bronze <==> profiles[driver].score < 50)
    {
      if driver !in profiles {
        return Err(NotFound);
      }
      var score := profiles[driver].score;
      if score >= GOLD_TIER_THRESHOLD {
        return Ok(Gold);
      } else if score >= 50 {
        return Ok(Silver);
      } else {
        return Ok(Bronze);
      }
    }

    /** A driver is eligible exactly at the gold tier. */
    method IsEligibleForEnterprise(driver: Address) returns (r: Result<bool>)
      ensures r == if driver in profiles then Ok(TierOf(profiles[driver].score) == Gold) else Err(NotFound)
    {
      if driver !in profiles {
        return Err(NotFound);
      }
      return Ok(profiles[driver].score >= ENTERPRISE_THRESHOLD);
    }
  }
}

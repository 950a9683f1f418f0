/** The fleet registry: membership of drivers, and the treasury that receives their payouts. */
module Fleet {
  import opened Prelude

  const MAX_ROSTER_SIZE: nat := 10_000
  const TREASURY_TIMELOCK: nat := 3 * 24 * 60 * 60

  datatype DriverStatus = Pending | Active | Removed

  datatype FleetProfile = FleetProfile(
    id: nat, owner: Address, treasury: Address, activeDrivers: nat,
    signers: seq<Address>, threshold: nat, active: bool)

  datatype PendingTreasury = PendingTreasury(treasury: Address, activatesAt: nat)

  datatype Membership = Membership(fleet: nat, driver: Address)

  datatype FleetState = FleetState(
    admin: Address, counter: nat,
    fleets: map<nat, FleetProfile>,
    members: map<Membership, DriverStatus>,
    rosters: map<nat, seq<Address>>,
    pending: map<nat, PendingTreasury>)

  datatype FleetCall =
    | Register(owner: Address, treasury: Address)
    | Deactivate(caller: Address, id: nat)
    | ProposeTreasury(owner: Address, id: nat, treasury: Address)
    | ConfirmTreasury(id: nat)
    | Invite(caller: Address, id: nat, driver: Address)
    | CancelInvite(owner: Address, id: nat, driver: Address)
    | Accept(id: nat, driver: Address)
    | Remove(id: nat, caller: Address, driver: Address)
    | ConfigureSigners(owner: Address, id: nat, signers: seq<Address>, threshold: nat)

  function EmptyFleets(admin: Address): FleetState {
    FleetState(admin, 0, map[], map[], map[], map[])
  }

  function RosterOf(s: FleetState, id: nat): seq<Address> {
    if id in s.rosters then s.rosters[id] else []
  }

  function Without(roster: seq<Address>, driver: Address): seq<Address> {
    if roster == [] then []
    else
      var last := roster[|roster| - 1];
      Without(roster[..|roster| - 1], driver) + (if last != driver then [last] else [])
  }

  // ── What each entry point does to the registry ──────────────────────────────

  function RegisterFleet(s: FleetState, owner: Address, treasury: Address): Result<FleetState> {
    var id :- AddU64(s.counter, 1);
    Ok(s.(counter := id,
          fleets := s.fleets[id := FleetProfile(id, owner, treasury, 0, [owner], 1, true)]))
  }

  function DeactivateFleet(s: FleetState, caller: Address, id: nat): Result<FleetState> {
    if id !in s.fleets then Err(NotFound)
    else if s.fleets[id].owner != caller && caller != s.admin then Err(Unauthorized)
    else Ok(s.(fleets := s.fleets[id := s.fleets[id].(active := false)]))
  }

  function UpdateTreasury(s: FleetState, now: nat, owner: Address, id: nat, treasury: Address): Result<FleetState> {
    if id !in s.fleets then Err(NotFound)
    else if owner !in s.fleets[id].signers then Err(Unauthorized)
    else Ok(s.(pending := s.pending[id := PendingTreasury(treasury, Min(U64_MAX, now + TREASURY_TIMELOCK))]))
  }

  function ConfirmTreasuryUpdate(s: FleetState, now: nat, id: nat): Result<FleetState> {
    if id !in s.pending then Err(NoPendingChange)
    else if now < s.pending[id].activatesAt then Err(TimelockNotElapsed)
    else if id !in s.fleets then Err(NotFound)
    else Ok(s.(fleets := s.fleets[id := s.fleets[id].(treasury := s.pending[id].treasury)],
               pending := s.pending - {id}))
  }

  function InviteDriver(s: FleetState, caller: Address, id: nat, driver: Address): Result<FleetState> {
    var key := Membership(id, driver);
    if id !in s.fleets then Err(NotFound)
    else if !s.fleets[id].active then Err(FleetInactive)
    else if caller !in s.fleets[id].signers then Err(Unauthorized)
    else if key in s.members && s.members[key] == Pending then Err(AlreadyInvited)
    else if key in s.members && s.members[key] == Active then Err(AlreadyActive)
    else Ok(s.(members := s.members[key := Pending]))
  }

  function WithdrawInvite(s: FleetState, owner: Address, id: nat, driver: Address): Result<FleetState> {
    var key := Membership(id, driver);
    if id !in s.fleets then Err(NotFound)
    else if owner !in s.fleets[id].signers then Err(Unauthorized)
    else if key !in s.members then Err(InviteNotFound)
    else if s.members[key] != Pending then Err(AlreadyActive)
    else Ok(s.(members := s.members - {key}))
  }

  function AcceptInvite(s: FleetState, id: nat, driver: Address): Result<FleetState> {
    var key := Membership(id, driver);
    if id !in s.fleets then Err(NotFound)
    else if key !in s.members then Err(InviteNotFound)
    else if s.members[key] == Active then Err(AlreadyActive)
    else if s.members[key] == Removed then Err(InvalidState)
    else
      var count :- AddU32(s.fleets[id].activeDrivers, 1);
      var roster := RosterOf(s, id);
      if |roster| >= MAX_ROSTER_SIZE then Err(RosterFull)
      else Ok(s.(members := s.members[key := Active],
                 fleets := s.fleets[id := s.fleets[id].(activeDrivers := count)],
                 rosters := if driver in roster then s.rosters else s.rosters[id := roster + [driver]]))
  }

  function RemoveDriver(s: FleetState, id: nat, caller: Address, driver: Address): Result<FleetState> {
    var key := Membership(id, driver);
    if id !in s.fleets then Err(NotFound)
    else if caller !in s.fleets[id].signers && caller != driver then Err(Unauthorized)
    else if key !in s.members then Err(InviteNotFound)
    else
      var profile := s.fleets[id];
      var counted := s.members[key] == Active && profile.activeDrivers > 0;
      var kept := Without(RosterOf(s, id), driver);
      Ok(s.(members := s.members[key := Removed],
            fleets := if counted then s.fleets[id := profile.(activeDrivers := profile.activeDrivers - 1)] else s.fleets,
            rosters := if id !in s.rosters then s.rosters
                       else if kept == [] then s.rosters - {id} else s.rosters[id := kept]))
  }

  function SetSigners(s: FleetState, owner: Address, id: nat, signers: seq<Address>, threshold: nat): Result<FleetState> {
    if id !in s.fleets then Err(NotFound)
    else if s.fleets[id].owner != owner then Err(Unauthorized)
    else if threshold == 0 || threshold > |signers| then Err(Unauthorized)
    else Ok(s.(fleets := s.fleets[id := s.fleets[id].(signers := signers, threshold := threshold)]))
  }

  /** Where a driver's earnings go: the treasury of an operating fleet they are active in. */
  function PayoutAddress(s: FleetState, driver: Address, id: nat): Result<Address> {
    var key := Membership(id, driver);
    if key in s.members && s.members[key] == Active then
      if id !in s.fleets then Err(NotFound)
      else Ok(if s.fleets[id].active then s.fleets[id].treasury else driver)
    else Ok(driver)
  }

  function FleetDo(s: FleetState, now: nat, call: FleetCall): Result<FleetState> {
    match call
    case Register(owner, treasury) => RegisterFleet(s, owner, treasury)
    case Deactivate(caller, id) => DeactivateFleet(s, caller, id)
    case ProposeTreasury(owner, id, treasury) => UpdateTreasury(s, now, owner, id, treasury)
    case ConfirmTreasury(id) => ConfirmTreasuryUpdate(s, now, id)
    case Invite(caller, id, driver) => InviteDriver(s, caller, id, driver)
    case CancelInvite(owner, id, driver) => WithdrawInvite(s, owner, id, driver)
    case Accept(id, driver) => AcceptInvite(s, id, driver)
    case Remove(id, caller, driver) => RemoveDriver(s, id, caller, driver)
    case ConfigureSigners(owner, id, signers, threshold) => SetSigners(s, owner, id, signers, threshold)
  }

  // ── Agreement of roster, status map and counter ─────────────────────────────

  ghost predicate IsActive(s: FleetState, id: nat, driver: Address) {
    Membership(id, driver) in s.members && s.members[Membership(id, driver)] == Active
  }

  /** The roster of a fleet lists exactly its active drivers, each once, and is as long as its counter says. */
  ghost predicate RosterAgrees(s: FleetState, id: nat)
    requires id in s.fleets
  {
    && Distinct(RosterOf(s, id))
    && (forall d :: d in RosterOf(s, id) <==> IsActive(s, id, d))
    && s.fleets[id].activeDrivers == |RosterOf(s, id)| <= 10_000
  }

  ghost predicate FleetInv(s: FleetState) {
    && (forall id :: id in s.fleets <==> 1 <= id <= s.counter)
    && (forall id :: id in s.fleets ==> s.fleets[id].id == id)
    && (forall m :: m in s.members ==> m.fleet in s.fleets)
    && (forall id :: id in s.rosters ==> id in s.fleets)
    && (forall id :: id in s.pending ==> id in s.fleets)
    && (forall id :: id in s.fleets ==> RosterAgrees(s, id))
  }

  lemma {:induction false} WithoutKeepsOthers(roster: seq<Address>, driver: Address)
    requires Distinct(roster)
    ensures Distinct(Without(roster, driver))
    ensures forall d :: d in Without(roster, driver) <==> d in roster && d != driver
    ensures |Without(roster, driver)| == |roster| - (if driver in roster then 1 else 0)
    decreases |roster|
  {
    if roster != [] {
      var init, last := roster[..|roster| - 1], roster[|roster| - 1];
      assert roster == init + [last];
      assert last !in init;
      WithoutKeepsOthers(init, driver);
    }
  }

  /** Agreement at one fleet survives any change that leaves its roster, members and counter alone. */
  lemma RosterFrame(s: FleetState, t: FleetState, id: nat)
    requires id in s.fleets && id in t.fleets && RosterAgrees(s, id)
    requires RosterOf(t, id) == RosterOf(s, id)
    requires t.fleets[id].activeDrivers == s.fleets[id].activeDrivers
    requires forall d :: IsActive(t, id, d) <==> IsActive(s, id, d)
    ensures RosterAgrees(t, id)
  {
  }

  lemma AcceptKeepsAgreement(s: FleetState, id: nat, driver: Address)
    requires FleetInv(s) && AcceptInvite(s, id, driver).Ok?
    ensures FleetInv(AcceptInvite(s, id, driver).value)
  {
    var t := AcceptInvite(s, id, driver).value;
    assert !IsActive(s, id, driver);
    assert RosterOf(t, id) == RosterOf(s, id) + [driver];
    forall d ensures d in RosterOf(t, id) <==> IsActive(t, id, d) {
      assert d != driver ==> (IsActive(t, id, d) <==> IsActive(s, id, d));
    }
    forall other | other in t.fleets ensures RosterAgrees(t, other) {
      if other != id {
        forall d ensures IsActive(t, other, d) <==> IsActive(s, other, d) {}
        RosterFrame(s, t, other);
      }
    }
  }

  lemma RemoveAgreesHere(s: FleetState, id: nat, caller: Address, driver: Address)
    requires FleetInv(s) && RemoveDriver(s, id, caller, driver).Ok?
    ensures id in RemoveDriver(s, id, caller, driver).value.fleets && RosterAgrees(RemoveDriver(s, id, caller, driver).value, id)
  {
    var t := RemoveDriver(s, id, caller, driver).value;
    WithoutKeepsOthers(RosterOf(s, id), driver);
    assert RosterOf(t, id) == Without(RosterOf(s, id), driver);
    forall d ensures d in RosterOf(t, id) <==> IsActive(t, id, d) {
      assert d in RosterOf(s, id) <==> IsActive(s, id, d);
      assert d != driver ==> (IsActive(t, id, d) <==> IsActive(s, id, d));
    }
    assert driver in RosterOf(s, id) <==> IsActive(s, id, driver);
  }

  lemma RemoveKeepsAgreement(s: FleetState, id: nat, caller: Address, driver: Address)
    requires FleetInv(s) && RemoveDriver(s, id, caller, driver).Ok?
    ensures FleetInv(RemoveDriver(s, id, caller, driver).value)
  {
    var t := RemoveDriver(s, id, caller, driver).value;
    RemoveAgreesHere(s, id, caller, driver);
    forall other | other in t.fleets && other != id ensures RosterAgrees(t, other) {
      forall d ensures IsActive(t, other, d) <==> IsActive(s, other, d) {}
      RosterFrame(s, t, other);
    }
  }

  lemma RegisterKeepsAgreement(s: FleetState, owner: Address, treasury: Address)
    requires FleetInv(s) && RegisterFleet(s, owner, treasury).Ok?
    ensures FleetInv(RegisterFleet(s, owner, treasury).value)
  {
    var t := RegisterFleet(s, owner, treasury).value;
    forall id | id in s.fleets ensures RosterAgrees(t, id) {
      forall d ensures IsActive(t, id, d) <==> IsActive(s, id, d) {}
      RosterFrame(s, t, id);
    }
    assert RosterOf(t, t.counter) == [];
    assert forall d :: !IsActive(t, t.counter, d);
  }

  /** The remaining calls leave every fleet's roster, active drivers and counter alone. */
  lemma OtherCallsFrame(s: FleetState, now: nat, call: FleetCall, id: nat)
    requires FleetInv(s) && FleetDo(s, now, call).Ok? && id in s.fleets
    requires !call.Register? && !call.Accept? && !call.Remove?
    ensures var t := FleetDo(s, now, call).value;
            id in t.fleets && t.fleets[id].id == id && RosterAgrees(t, id)
  {
    var t := FleetDo(s, now, call).value;
    forall d ensures IsActive(t, id, d) <==> IsActive(s, id, d) {}
    RosterFrame(s, t, id);
  }

  /** Every committed call keeps the registry in agreement; a rejected one changes nothing. */
  lemma FleetStepInv(s: FleetState, now: nat, call: FleetCall)
    requires FleetInv(s)
    ensures FleetInv(FleetDo(s, now, call).OrElse(s))
  {
    if FleetDo(s, now, call).Ok? {
      match call
      case Accept(id, driver) => AcceptKeepsAgreement(s, id, driver);
      case Remove(id, caller, driver) => RemoveKeepsAgreement(s, id, caller, driver);
      case Register(owner, treasury) => RegisterKeepsAgreement(s, owner, treasury);
      case _ => OtherCallsKeepAgreement(s, now, call);
    }
  }

  lemma OtherCallsKeepAgreement(s: FleetState, now: nat, call: FleetCall)
    requires FleetInv(s) && FleetDo(s, now, call).Ok?
    requires !call.Register? && !call.Accept? && !call.Remove?
    ensures FleetInv(FleetDo(s, now, call).value)
  {
    var t := FleetDo(s, now, call).value;
    assert t.fleets.Keys == s.fleets.Keys;
    forall id | id in t.fleets ensures t.fleets[id].id == id && RosterAgrees(t, id) {
      OtherCallsFrame(s, now, call, id);
    }
  }

  /** In agreeing states two of the code's guards are redundant: an accepted driver is never on
      the roster already, and the counter of an active driver's fleet is never zero. */
  lemma FleetGuardsNeverBind(s: FleetState, id: nat, driver: Address)
    requires FleetInv(s) && id in s.fleets
    ensures AcceptInvite(s, id, driver).Ok? ==> driver !in RosterOf(s, id)
    ensures IsActive(s, id, driver) ==> s.fleets[id].activeDrivers > 0
    ensures AcceptInvite(s, id, driver).Ok? <==>
            Membership(id, driver) in s.members && s.members[Membership(id, driver)] == Pending
            && s.fleets[id].activeDrivers < 10_000
  {
    if IsActive(s, id, driver) {
      assert driver in RosterOf(s, id);
    }
  }

  /** A payout can always be routed, and only to the driver or to the treasury of their own operating fleet. */
  lemma PayoutAlwaysRouted(s: FleetState, driver: Address, id: nat)
    requires FleetInv(s)
    ensures PayoutAddress(s, driver, id).Ok?
    ensures PayoutAddress(s, driver, id).value ==
            if driver in RosterOf(s, id) && s.fleets[id].active then s.fleets[id].treasury else driver
  {
    assert id in s.fleets ==> (driver in RosterOf(s, id) <==> IsActive(s, id, driver));
  }

  // ── Runs and the treasury timelock ──────────────────────────────────────────

  datatype FleetTick = FleetTick(now: nat, call: FleetCall)

  function FleetStep(s: FleetState, tick: FleetTick): FleetState {
    FleetDo(s, tick.now, tick.call).OrElse(s)
  }

  /** A run from the freshly initialised registry; the clock never goes back. */
  ghost predicate FleetRun(states: seq<FleetState>, ticks: seq<FleetTick>) {
    && |states| == |ticks| + 1
    && (exists admin :: states[0] == EmptyFleets(admin))
    && (forall i :: 0 <= i < |ticks| ==> states[i + 1] == FleetStep(states[i], ticks[i]))
    && (forall i, j :: 0 <= i <= j < |ticks| ==> ticks[i].now <= ticks[j].now <= U64_MAX)
  }

  lemma {:induction false} FleetRunInv(states: seq<FleetState>, ticks: seq<FleetTick>, k: nat)
    requires FleetRun(states, ticks) && k < |states|
    ensures FleetInv(states[k])
    decreases k
  {
    if k > 0 {
      FleetRunInv(states, ticks, k - 1);
      FleetStepInv(states[k - 1], ticks[k - 1].now, ticks[k - 1].call);
    }
  }

  /** Step k commits a proposal for fleet id. */
  ghost predicate Proposes(states: seq<FleetState>, ticks: seq<FleetTick>, k: int, id: nat)
    requires |states| == |ticks| + 1
  {
    && 0 <= k < |ticks|
    && ticks[k].call.ProposeTreasury? && ticks[k].call.id == id
    && FleetDo(states[k], ticks[k].now, ticks[k].call).Ok?
  }

  /** Step k commits a confirmation for fleet id: the moment a new treasury takes effect. */
  ghost predicate Confirms(states: seq<FleetState>, ticks: seq<FleetTick>, k: int, id: nat)
    requires |states| == |ticks| + 1
  {
    && 0 <= k < |ticks|
    && ticks[k].call == ConfirmTreasury(id)
    && FleetDo(states[k], ticks[k].now, ticks[k].call).Ok?
  }

  lemma TreasuryStep(s: FleetState, now: nat, call: FleetCall, id: nat)
    requires FleetInv(s) && id in s.fleets
    ensures var t := FleetDo(s, now, call).OrElse(s);
            && id in t.fleets
            && (t.fleets[id].treasury != s.fleets[id].treasury ==> call == ConfirmTreasury(id) && FleetDo(s, now, call).Ok?)
  {
  }

  /** Only a confirmation changes the treasury of a registered fleet. */
  lemma OnlyConfirmationRedirects(states: seq<FleetState>, ticks: seq<FleetTick>, k: nat, id: nat)
    requires FleetRun(states, ticks) && k < |ticks| && id in states[k].fleets
    ensures id in states[k + 1].fleets
    ensures states[k + 1].fleets[id].treasury != states[k].fleets[id].treasury ==> Confirms(states, ticks, k, id)
  {
    FleetRunInv(states, ticks, k);
    TreasuryStep(states[k], ticks[k].now, ticks[k].call, id);
  }

  /** A pending change is the proposal just made, or was pending before with nothing confirmed. */
  lemma PendingStep(s: FleetState, now: nat, call: FleetCall, id: nat)
    requires id in FleetDo(s, now, call).OrElse(s).pending
    ensures var t := FleetDo(s, now, call).OrElse(s);
            if call.ProposeTreasury? && call.id == id && FleetDo(s, now, call).Ok?
            then && id in s.fleets && call.owner in s.fleets[id].signers
                 && t.pending[id] == PendingTreasury(call.treasury, Min(U64_MAX, now + 259_200))
            else && id in s.pending && t.pending[id] == s.pending[id]
                 && !(call == ConfirmTreasury(id) && FleetDo(s, now, call).Ok?)
  {
  }

  /** A pending change comes from the latest proposal, made by a signer of that moment, and
      nothing was proposed or confirmed for the fleet since: re-proposing restarts the wait. */
  lemma {:induction false} PendingOrigin(states: seq<FleetState>, ticks: seq<FleetTick>, k: nat, id: nat) returns (j: nat)
    requires FleetRun(states, ticks) && k < |states| && id in states[k].pending
    ensures j < k && Proposes(states, ticks, j, id)
    ensures id in states[j].fleets && ticks[j].call.owner in states[j].fleets[id].signers
    ensures states[k].pending[id] ==
            PendingTreasury(ticks[j].call.treasury, Min(U64_MAX, ticks[j].now + 259_200))
    ensures forall i :: j < i < k ==> !Proposes(states, ticks, i, id) && !Confirms(states, ticks, i, id)
    decreases k
  {
    assert states[k] == FleetStep(states[k - 1], ticks[k - 1]);
    PendingStep(states[k - 1], ticks[k - 1].now, ticks[k - 1].call, id);
    if Proposes(states, ticks, k - 1, id) {
      j := k - 1;
    } else {
      j := PendingOrigin(states, ticks, k - 1, id);
    }
  }

  /** Every treasury that takes effect was proposed by a then-current signer, and at least the
      timelock earlier: exactly, no earlier than the saturated activation time of that proposal. */
  lemma TreasuryTimelock(states: seq<FleetState>, ticks: seq<FleetTick>, k: nat, id: nat) returns (j: nat)
    requires FleetRun(states, ticks) && Confirms(states, ticks, k, id)
    ensures j < k && Proposes(states, ticks, j, id)
    ensures id in states[j].fleets && ticks[j].call.owner in states[j].fleets[id].signers
    ensures id in states[k + 1].fleets && states[k + 1].fleets[id].treasury == ticks[j].call.treasury
    ensures ticks[k].now >= Min(U64_MAX, ticks[j].now + 259_200)
    ensures forall i :: j < i < k ==> !Proposes(states, ticks, i, id) && !Confirms(states, ticks, i, id)
  {
    j := PendingOrigin(states, ticks, k, id);
    assert states[k + 1] == FleetStep(states[k], ticks[k]);
  }

  /** A fleet appears by registration alone, under the next id and with the treasury named there. */
  lemma NewFleetStep(s: FleetState, now: nat, call: FleetCall, id: nat)
    requires FleetInv(s) && id !in s.fleets && id in FleetDo(s, now, call).OrElse(s).fleets
    ensures var t := FleetDo(s, now, call).OrElse(s);
            call.Register? && id == t.counter && t.fleets[id].treasury == call.treasury
  {
  }

  /** Step k registers fleet id with this treasury. */
  ghost predicate Registers(states: seq<FleetState>, ticks: seq<FleetTick>, k: int, id: nat, treasury: Address)
    requires |states| == |ticks| + 1
  {
    && 0 <= k < |ticks|
    && ticks[k].call.Register? && ticks[k].call.treasury == treasury
    && id !in states[k].fleets && id in states[k + 1].fleets && states[k + 1].fleets[id].treasury == treasury
  }

  /** One step of a run leaves a fleet's treasury alone unless it registers the fleet or confirms a change. */
  lemma TreasuryRunStep(states: seq<FleetState>, ticks: seq<FleetTick>, k: nat, id: nat)
    requires FleetRun(states, ticks) && k < |ticks| && id in states[k + 1].fleets
    ensures || Confirms(states, ticks, k, id)
            || Registers(states, ticks, k, id, states[k + 1].fleets[id].treasury)
            || (id in states[k].fleets && states[k].fleets[id].treasury == states[k + 1].fleets[id].treasury)
  {
    FleetRunInv(states, ticks, k);
    assert states[k + 1] == FleetStep(states[k], ticks[k]);
    if id in states[k].fleets {
      TreasuryStep(states[k], ticks[k].now, ticks[k].call, id);
    } else {
      NewFleetStep(states[k], ticks[k].now, ticks[k].call, id);
    }
  }

  /** The treasury a fleet has comes from its latest confirmation or, if there was none, from its
      registration. */
  lemma {:induction false} TreasuryOrigin(states: seq<FleetState>, ticks: seq<FleetTick>, k: nat, id: nat) returns (c: nat)
    requires FleetRun(states, ticks) && k < |states| && id in states[k].fleets
    ensures c < k && id in states[c + 1].fleets
    ensures states[c + 1].fleets[id].treasury == states[k].fleets[id].treasury
    ensures forall i :: c < i < k ==> !Confirms(states, ticks, i, id)
    ensures Confirms(states, ticks, c, id) || Registers(states, ticks, c, id, states[k].fleets[id].treasury)
    decreases k
  {
    assert k > 0;
    TreasuryRunStep(states, ticks, k - 1, id);
    c := k - 1;
    if !Confirms(states, ticks, c, id) && !Registers(states, ticks, c, id, states[k].fleets[id].treasury) {
      c := TreasuryOrigin(states, ticks, k - 1, id);
    }
  }

  /** Where earnings go that do not go to the driver: to the treasury the fleet was registered with,
      or to one a signer proposed and somebody confirmed, at least the timelock later; no other
      change took effect since. */
  lemma RedirectionOrigin(states: seq<FleetState>, ticks: seq<FleetTick>, k: nat, driver: Address, id: nat) returns (c: nat, j: nat)
    requires FleetRun(states, ticks) && k < |states|
    requires PayoutAddress(states[k], driver, id).Ok? && PayoutAddress(states[k], driver, id).value != driver
    ensures var payee := PayoutAddress(states[k], driver, id).value;
            && c < k && (forall i :: c < i < k ==> !Confirms(states, ticks, i, id))
            && (|| Registers(states, ticks, c, id, payee)
                || (&& Confirms(states, ticks, c, id)
                    && j < c && Proposes(states, ticks, j, id) && ticks[j].call.treasury == payee
                    && id in states[j].fleets && ticks[j].call.owner in states[j].fleets[id].signers
                    && ticks[c].now >= Min(U64_MAX, ticks[j].now + 259_200)))
  {
    c := TreasuryOrigin(states, ticks, k, id);
    j := 0;
    if Confirms(states, ticks, c, id) {
      j := TreasuryTimelock(states, ticks, c, id);
    }
  }

  /** Two successive changes of one fleet's treasury are at least the timelock apart. */
  lemma RedirectionsAreSpaced(states: seq<FleetState>, ticks: seq<FleetTick>, i: nat, k: nat, id: nat)
    requires FleetRun(states, ticks) && i < k
    requires Confirms(states, ticks, i, id) && Confirms(states, ticks, k, id)
    ensures ticks[k].now >= Min(U64_MAX, ticks[i].now + 259_200)
  {
    var j := TreasuryTimelock(states, ticks, k, id);
  }
}

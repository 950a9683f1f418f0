/** Every fleet is the replay of the committed calls: who may make which call, and what it writes. */
module FleetHistory {
  import opened Prelude
  import opened Fleet

  // ── Who may do what ─────────────────────────────────────────────────────────

  function StatusIn(s: FleetState, id: nat, driver: Address): Option<DriverStatus> {
    if Membership(id, driver) in s.members then Some(s.members[Membership(id, driver)]) else None
  }

  predicate Signs(s: FleetState, id: nat, who: Address) {
    id in s.fleets && who in s.fleets[id].signers
  }

  /** The calls that a registry in agreement accepts. */
  predicate Permitted(s: FleetState, now: nat, call: FleetCall) {
    match call
    case Register(_, _) => s.counter < U64_MAX
    case Deactivate(caller, id) => id in s.fleets && caller in {s.fleets[id].owner, s.admin}
    case ConfigureSigners(owner, id, signers, threshold) =>
      id in s.fleets && owner == s.fleets[id].owner && 1 <= threshold <= |signers|
    case ProposeTreasury(owner, id, _) => Signs(s, id, owner)
    case ConfirmTreasury(id) => id in s.pending && s.pending[id].activatesAt <= now
    case Invite(caller, id, driver) =>
      Signs(s, id, caller) && s.fleets[id].active && StatusIn(s, id, driver) in {None, Some(Removed)}
    case CancelInvite(owner, id, driver) => Signs(s, id, owner) && StatusIn(s, id, driver) == Some(Pending)
    case Accept(id, driver) =>
      id in s.fleets && StatusIn(s, id, driver) == Some(Pending) && s.fleets[id].activeDrivers < 10_000
    case Remove(id, caller, driver) =>
      id in s.fleets && (Signs(s, id, caller) || caller == driver) && StatusIn(s, id, driver) != None
  }

  /** Every call goes through exactly when it is permitted. */
  lemma CommitsIff(s: FleetState, now: nat, call: FleetCall)
    requires FleetInv(s)
    ensures FleetDo(s, now, call).Ok? <==> Permitted(s, now, call)
  {
    match call
    case Accept(id, driver) =>
      if id in s.fleets {
        FleetGuardsNeverBind(s, id, driver);
      }
    case _ =>
  }

  // ── The replay ──────────────────────────────────────────────────────────────

  /** A fleet as its committed calls tell it. */
  datatype Story = Story(
    owner: Address, treasury: Address, signers: seq<Address>, threshold: nat, active: bool,
    proposed: Option<PendingTreasury>, drivers: map<Address, DriverStatus>, roster: seq<Address>)

  function Except(roster: seq<Address>, driver: Address): seq<Address> {
    if roster == [] then []
    else (if roster[0] == driver then [] else [roster[0]]) + Except(roster[1..], driver)
  }

  /** What a committed call adds to the story of a fleet that is there. */
  function Continued(story: Story, now: nat, call: FleetCall, id: nat): Story {
    match call
    case Register(_, _) => story
    case Deactivate(_, i) => if i == id then story.(active := false) else story
    case ConfigureSigners(_, i, signers, threshold) =>
      if i == id then story.(signers := signers, threshold := threshold) else story
    case ProposeTreasury(_, i, treasury) =>
      if i == id then story.(proposed := Some(PendingTreasury(treasury, Min(U64_MAX, now + 259_200)))) else story
    case ConfirmTreasury(i) =>
      if i == id && story.proposed.Some? then story.(treasury := story.proposed.value.treasury, proposed := None) else story
    case Invite(_, i, driver) => if i == id then story.(drivers := story.drivers[driver := Pending]) else story
    case CancelInvite(_, i, driver) => if i == id then story.(drivers := story.drivers - {driver}) else story
    case Accept(i, driver) =>
      if i == id then story.(drivers := story.drivers[driver := Active], roster := story.roster + [driver]) else story
    case Remove(i, _, driver) =>
      if i == id then story.(drivers := story.drivers[driver := Removed], roster := Except(story.roster, driver)) else story
  }

  /** A new fleet: signed for by its owner alone, in operation, without drivers. */
  function Begun(owner: Address, treasury: Address): Story {
    Story(owner, treasury, [owner], 1, true, None, map[], [])
  }

  /** The registry says of the fleet what the story says. */
  ghost predicate Tells(s: FleetState, id: nat, story: Story) {
    && id in s.fleets
    && s.fleets[id] == FleetProfile(id, story.owner, story.treasury, |story.roster|, story.signers, story.threshold, story.active)
    && (if id in s.pending then story.proposed == Some(s.pending[id]) else story.proposed == None)
    && (forall d :: StatusIn(s, id, d) == if d in story.drivers then Some(story.drivers[d]) else None)
    && RosterOf(s, id) == story.roster
  }

  lemma {:induction false} WithoutIsExcept(roster: seq<Address>, driver: Address)
    ensures Without(roster, driver) == Except(roster, driver)
    decreases |roster|
  {
    if roster != [] {
      var init, last := roster[..|roster| - 1], roster[|roster| - 1];
      WithoutIsExcept(init, driver);
      ExceptSnoc(init, last, driver);
      assert roster == init + [last];
    }
  }

  lemma {:induction false} ExceptSnoc(init: seq<Address>, last: Address, driver: Address)
    ensures Except(init + [last], driver) == Except(init, driver) + (if last == driver then [] else [last])
    decreases |init|
  {
    if init == [] {
      assert [last][1..] == [];
    } else {
      ExceptSnoc(init[1..], last, driver);
      assert (init + [last])[1..] == init[1..] + [last];
    }
  }

  lemma AcceptTells(s: FleetState, i: nat, driver: Address, id: nat, story: Story)
    requires FleetInv(s) && Tells(s, id, story) && AcceptInvite(s, i, driver).Ok?
    ensures Tells(AcceptInvite(s, i, driver).value, id, Continued(story, 0, Accept(i, driver), id))
  {
    FleetGuardsNeverBind(s, i, driver);
  }

  lemma RemovalCounts(s: FleetState, i: nat, driver: Address)
    requires FleetInv(s) && i in s.fleets
    ensures Without(RosterOf(s, i), driver) == Except(RosterOf(s, i), driver)
    ensures s.fleets[i].activeDrivers == |RosterOf(s, i)|
    ensures |Without(RosterOf(s, i), driver)| == |RosterOf(s, i)| - if IsActive(s, i, driver) then 1 else 0
  {
    WithoutIsExcept(RosterOf(s, i), driver);
    WithoutKeepsOthers(RosterOf(s, i), driver);
    assert driver in RosterOf(s, i) <==> IsActive(s, i, driver);
  }

  /** One driver taken off one roster. */
  ghost predicate TakenOff(s: FleetState, t: FleetState, i: nat, driver: Address) {
    && i in s.fleets && t.fleets.Keys == s.fleets.Keys
    && RosterOf(t, i) == Without(RosterOf(s, i), driver)
    && t.fleets[i] == s.fleets[i].(activeDrivers := |RosterOf(t, i)|)
    && (forall id :: id != i && id in s.fleets ==> t.fleets[id] == s.fleets[id])
    && (forall id :: id != i ==> RosterOf(t, id) == RosterOf(s, id))
    && t.pending == s.pending && t.members == s.members[Membership(i, driver) := Removed]
  }

  lemma RemovalTakesOff(s: FleetState, i: nat, caller: Address, driver: Address)
    requires RemoveDriver(s, i, caller, driver).Ok? && s.fleets[i].activeDrivers == |RosterOf(s, i)|
    requires |Without(RosterOf(s, i), driver)| == |RosterOf(s, i)| - if IsActive(s, i, driver) then 1 else 0
    ensures TakenOff(s, RemoveDriver(s, i, caller, driver).value, i, driver)
  {
  }

  lemma TakenOffTells(s: FleetState, t: FleetState, i: nat, caller: Address, driver: Address, id: nat, story: Story)
    requires Tells(s, id, story) && TakenOff(s, t, i, driver)
    requires Without(RosterOf(s, i), driver) == Except(RosterOf(s, i), driver)
    ensures Tells(t, id, Continued(story, 0, Remove(i, caller, driver), id))
  {
    StatusPut(s, t, i, driver, Some(Removed));
  }

  lemma RemoveTells(s: FleetState, i: nat, caller: Address, driver: Address, id: nat, story: Story)
    requires FleetInv(s) && Tells(s, id, story) && RemoveDriver(s, i, caller, driver).Ok?
    ensures Tells(RemoveDriver(s, i, caller, driver).value, id, Continued(story, 0, Remove(i, caller, driver), id))
  {
    RemovalCounts(s, i, driver);
    RemovalTakesOff(s, i, caller, driver);
    TakenOffTells(s, RemoveDriver(s, i, caller, driver).value, i, caller, driver, id, story);
  }

  /** Writing or deleting one driver's status. */
  lemma StatusPut(s: FleetState, t: FleetState, i: nat, driver: Address, status: Option<DriverStatus>)
    requires t.members == if status.Some? then s.members[Membership(i, driver) := status.value] else s.members - {Membership(i, driver)}
    ensures forall id, d :: StatusIn(t, id, d) == if id == i && d == driver then status else StatusIn(s, id, d)
  {
  }

  lemma InvitesTell(s: FleetState, now: nat, call: FleetCall, id: nat, story: Story)
    requires Tells(s, id, story) && FleetDo(s, now, call).Ok? && (call.Invite? || call.CancelInvite?)
    ensures Tells(FleetDo(s, now, call).value, id, Continued(story, now, call, id))
  {
    StatusPut(s, FleetDo(s, now, call).value, call.id, call.driver, if call.Invite? then Some(Pending) else None);
  }

  lemma OthersRegisteredTell(s: FleetState, owner: Address, treasury: Address, id: nat, story: Story)
    requires FleetInv(s) && Tells(s, id, story) && RegisterFleet(s, owner, treasury).Ok?
    ensures Tells(RegisterFleet(s, owner, treasury).value, id, story)
  {
    var t := RegisterFleet(s, owner, treasury).value;
    assert forall d :: StatusIn(t, id, d) == StatusIn(s, id, d);
  }

  lemma ProfilesTell(s: FleetState, now: nat, call: FleetCall, id: nat, story: Story)
    requires Tells(s, id, story) && FleetDo(s, now, call).Ok? && (call.Deactivate? || call.ConfigureSigners?)
    ensures Tells(FleetDo(s, now, call).value, id, Continued(story, now, call, id))
  {
    var t := FleetDo(s, now, call).value;
    assert forall d :: StatusIn(t, id, d) == StatusIn(s, id, d);
  }

  lemma TreasuriesTell(s: FleetState, now: nat, call: FleetCall, id: nat, story: Story)
    requires Tells(s, id, story) && FleetDo(s, now, call).Ok? && (call.ProposeTreasury? || call.ConfirmTreasury?)
    ensures Tells(FleetDo(s, now, call).value, id, Continued(story, now, call, id))
  {
    var t := FleetDo(s, now, call).value;
    assert forall d :: StatusIn(t, id, d) == StatusIn(s, id, d);
  }

  /** One more committed call, told. */
  lemma StepTells(s: FleetState, now: nat, call: FleetCall, id: nat, story: Story)
    requires FleetInv(s) && Tells(s, id, story) && FleetDo(s, now, call).Ok?
    ensures Tells(FleetDo(s, now, call).value, id, Continued(story, now, call, id))
  {
    if call.Accept? {
      AcceptTells(s, call.id, call.driver, id, story);
    } else if call.Remove? {
      RemoveTells(s, call.id, call.caller, call.driver, id, story);
    } else if call.Invite? || call.CancelInvite? {
      InvitesTell(s, now, call, id, story);
    } else if call.ProposeTreasury? || call.ConfirmTreasury? {
      TreasuriesTell(s, now, call, id, story);
    } else if call.Register? {
      OthersRegisteredTell(s, call.owner, call.treasury, id, story);
    } else {
      ProfilesTell(s, now, call, id, story);
    }
  }

  lemma RegisterTells(s: FleetState, owner: Address, treasury: Address)
    requires FleetInv(s) && RegisterFleet(s, owner, treasury).Ok?
    ensures var t := RegisterFleet(s, owner, treasury).value;
            && s.counter + 1 !in s.fleets && t.counter == s.counter + 1 && t.fleets.Keys == s.fleets.Keys + {t.counter}
            && Tells(t, t.counter, Begun(owner, treasury))
  {
  }

  /** How many fleets have been registered before step k. */
  ghost function Registered(states: seq<FleetState>, ticks: seq<FleetTick>, k: nat): nat
    requires k <= |ticks| < |states|
  {
    if k == 0 then 0
    else Registered(states, ticks, k - 1)
         + if ticks[k - 1].call.Register? && FleetDo(states[k - 1], ticks[k - 1].now, ticks[k - 1].call).Ok? then 1 else 0
  }

  /** The committed calls before step k, told for one fleet; the n-th registration is that of fleet n. */
  ghost function Told(states: seq<FleetState>, ticks: seq<FleetTick>, k: nat, id: nat): Option<Story>
    requires k <= |ticks| < |states|
  {
    if k == 0 then None
    else
      var before, tick := Told(states, ticks, k - 1, id), ticks[k - 1];
      if FleetDo(states[k - 1], tick.now, tick.call).Err? then before
      else if before.Some? then Some(Continued(before.value, tick.now, tick.call, id))
      else if tick.call.Register? && id == Registered(states, ticks, k) then Some(Begun(tick.call.owner, tick.call.treasury))
      else None
  }

  lemma NoOtherRegisters(s: FleetState, now: nat, call: FleetCall)
    requires FleetInv(s) && FleetDo(s, now, call).Ok? && !call.Register?
    ensures FleetDo(s, now, call).value.fleets.Keys == s.fleets.Keys && FleetDo(s, now, call).value.counter == s.counter
  {
  }

  /** Over every run a fleet exists exactly once it is told of, and everything the registry stores about
      it, and about its drivers, is what the committed calls tell. */
  lemma {:induction false} FleetIsItsHistory(states: seq<FleetState>, ticks: seq<FleetTick>, k: nat, id: nat)
    requires FleetRun(states, ticks) && k < |states|
    ensures states[k].counter == Registered(states, ticks, k)
    ensures match Told(states, ticks, k, id)
            case None => id !in states[k].fleets
            case Some(story) => Tells(states[k], id, story)
    decreases k
  {
    if k > 0 {
      var s, tick := states[k - 1], ticks[k - 1];
      FleetIsItsHistory(states, ticks, k - 1, id);
      FleetRunInv(states, ticks, k - 1);
      assert states[k] == FleetStep(s, tick);
      if FleetDo(s, tick.now, tick.call).Ok? {
        if id in s.fleets {
          StepTells(s, tick.now, tick.call, id, Told(states, ticks, k - 1, id).value);
        }
        if tick.call.Register? {
          RegisterTells(s, tick.call.owner, tick.call.treasury);
        } else {
          NoOtherRegisters(s, tick.now, tick.call);
        }
      }
    }
  }

  // ── Who signs ───────────────────────────────────────────────────────────────

  /** Step k registers fleet id. */
  ghost predicate Founds(states: seq<FleetState>, ticks: seq<FleetTick>, k: int, id: nat)
    requires |states| == |ticks| + 1
  {
    && 0 <= k < |ticks| && ticks[k].call.Register?
    && FleetDo(states[k], ticks[k].now, ticks[k].call).Ok? && id !in states[k].fleets && id in states[k + 1].fleets
  }

  /** Step k replaces the signers of fleet id. */
  ghost predicate Replaces(states: seq<FleetState>, ticks: seq<FleetTick>, k: int, id: nat)
    requires |states| == |ticks| + 1
  {
    && 0 <= k < |ticks| && ticks[k].call.ConfigureSigners? && ticks[k].call.id == id
    && FleetDo(states[k], ticks[k].now, ticks[k].call).Ok?
  }

  lemma SignersStep(s: FleetState, now: nat, call: FleetCall, id: nat)
    requires FleetInv(s) && id in s.fleets
    ensures var t := FleetDo(s, now, call).OrElse(s);
            && id in t.fleets && t.fleets[id].owner == s.fleets[id].owner
            && (if call.ConfigureSigners? && call.id == id && FleetDo(s, now, call).Ok?
                then call.owner == s.fleets[id].owner && t.fleets[id].signers == call.signers
                else t.fleets[id].signers == s.fleets[id].signers)
  {
  }

  lemma FoundingStep(s: FleetState, now: nat, call: FleetCall, id: nat)
    requires FleetInv(s) && id !in s.fleets && id in FleetDo(s, now, call).OrElse(s).fleets
    ensures FleetDo(s, now, call).Ok? && call.Register?
    ensures var t := FleetDo(s, now, call).value; t.fleets[id].owner == call.owner && t.fleets[id].signers == [call.owner]
  {
  }

  /** A fleet belongs to whoever registered it. That owner alone signs for it until they name the signers,
      and from then on the signers are those they named last. */
  lemma {:induction false} SignersOrigin(states: seq<FleetState>, ticks: seq<FleetTick>, k: nat, id: nat) returns (f: nat, c: nat)
    requires FleetRun(states, ticks) && k < |states| && id in states[k].fleets
    ensures f <= c < k && Founds(states, ticks, f, id) && states[k].fleets[id].owner == ticks[f].call.owner
    ensures forall i :: c < i < k ==> !Replaces(states, ticks, i, id)
    ensures || (c == f && states[k].fleets[id].signers == [ticks[f].call.owner])
            || (&& Replaces(states, ticks, c, id) && ticks[c].call.owner == ticks[f].call.owner
                && states[k].fleets[id].signers == ticks[c].call.signers)
    decreases k
  {
    assert k > 0;
    var s, tick := states[k - 1], ticks[k - 1];
    FleetRunInv(states, ticks, k - 1);
    assert states[k] == FleetStep(s, tick);
    if id in s.fleets {
      f, c := SignersOrigin(states, ticks, k - 1, id);
      SignersStep(s, tick.now, tick.call, id);
      if Replaces(states, ticks, k - 1, id) {
        c := k - 1;
      }
    } else {
      FoundingStep(s, tick.now, tick.call, id);
      f, c := k - 1, k - 1;
    }
  }

  /** A registry that tells of a fleet what one just registered is told of. */
  lemma FreshFleetAnswers(t: FleetState, id: nat, owner: Address, treasury: Address, caller: Address, someone: Address, now: nat)
    requires Tells(t, id, Begun(owner, treasury))
    ensures InviteDriver(t, caller, id, someone).Ok? <==> caller == owner
    ensures UpdateTreasury(t, now, caller, id, someone).Ok? <==> caller == owner
    ensures SetSigners(t, caller, id, [someone], 1).Ok? <==> caller == owner
    ensures AcceptInvite(t, id, someone).Err?
    ensures PayoutAddress(t, someone, id) == Ok(someone)
  {
    assert StatusIn(t, id, someone) == None;
  }

  /** Of a fleet just registered, its owner and nobody else can invite drivers, propose treasuries and name
      signers; nobody can accept, and every driver is paid in person. */
  lemma FreshFleetIsOwned(s: FleetState, owner: Address, treasury: Address, caller: Address, someone: Address, now: nat)
    requires FleetInv(s) && RegisterFleet(s, owner, treasury).Ok?
    ensures var t := RegisterFleet(s, owner, treasury).value;
            var id := t.counter;
            && id == s.counter + 1
            && (InviteDriver(t, caller, id, someone).Ok? <==> caller == owner)
            && (UpdateTreasury(t, now, caller, id, someone).Ok? <==> caller == owner)
            && (SetSigners(t, caller, id, [someone], 1).Ok? <==> caller == owner)
            && AcceptInvite(t, id, someone).Err?
            && PayoutAddress(t, someone, id) == Ok(someone)
  {
    RegisterTells(s, owner, treasury);
    FreshFleetAnswers(RegisterFleet(s, owner, treasury).value, s.counter + 1, owner, treasury, caller, someone, now);
  }
}

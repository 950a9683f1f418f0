/** Each contract's part of a composed run is a run of that contract, so that what was proved of the
    contracts one by one holds of the composition. */
module SystemProjections {
  import opened Prelude
  import opened System
  import Escrow
  import EscrowBooks
  import EscrowLife
  import EscrowSolvency
  import Delivery
  import Disputes
  import Fleet

  // ── The escrow contract's part ──────────────────────────────────────────────

  /** The escrow calls a committed or rejected transaction amounts to: none or one. */
  function EscrowPart(w: World, call: Call): seq<Escrow.EscrowTick> {
    var inner :=
      match call
      case OnEscrow(c) => if c.FreezeFunds? && c.caller == DisputeAddress then None else Some(c)
      case OnDelivery(c) => if WorldDo(w, call).Ok? then InnerCall(c) else None
      case OnDispute(c) =>
        if WorldDo(w, call).Err? then None
        else if c.Raise? then Some(Escrow.RaiseDispute(c.caller, c.id))
        else ResolvingCall(w, c)
      case _ => None;
    if inner.Some? then [Escrow.EscrowTick(w.now, w.fleet, inner.value)] else []
  }

  lemma OneTick(v: Escrow.Vault, tick: Escrow.EscrowTick)
    ensures Escrow.EscrowRun(v, [tick]) == Escrow.EscrowStep(v, tick)
    ensures Escrow.EscrowRun(v, []) == v
  {
    assert [tick][..0] == [];
  }

  lemma AfterInnerIsRun(w: World, inner: Option<Escrow.EscrowCall>)
    ensures AfterInner(w, inner).v
         == Escrow.EscrowRun(w.v, if inner.Some? then [Escrow.EscrowTick(w.now, w.fleet, inner.value)] else [])
  {
    if inner.Some? {
      OneTick(w.v, Escrow.EscrowTick(w.now, w.fleet, inner.value));
    }
  }

  lemma DeliveryPart(w: World, c: Delivery.DeliveryCall)
    requires Joint(w)
    ensures WorldStep(w, OnDelivery(c)).v == Escrow.EscrowRun(w.v, EscrowPart(w, OnDelivery(c)))
  {
    if WorldDo(w, OnDelivery(c)).Ok? {
      AfterInnerIsRun(w, InnerCall(c));
      if c.CreateOne? || c.CreateMany? {
        CreationTies(w, c);
      } else {
        DeliveryCallShape(w, c);
      }
    }
  }

  lemma DisputedPart(w: World, caller: Address, id: nat, m: World)
    requires Delivery.AllTied(PairOf(w)) && WorldDo(w, OnDelivery(Delivery.Dispute(caller, id))) == Ok(m)
    ensures m.v == Escrow.EscrowRun(w.v, [Escrow.EscrowTick(w.now, w.fleet, Escrow.RaiseDispute(caller, id))])
  {
    DisputeShape(w, Delivery.Dispute(caller, id));
    OneTick(w.v, Escrow.EscrowTick(w.now, w.fleet, Escrow.RaiseDispute(caller, id)));
  }

  lemma RaisePart(w: World, caller: Address, id: nat)
    requires Joint(w) && WorldDo(w, OnDispute(Disputes.Raise(caller, id))).Ok?
    ensures WorldStep(w, OnDispute(Disputes.Raise(caller, id))).v
         == Escrow.EscrowRun(w.v, [Escrow.EscrowTick(w.now, w.fleet, Escrow.RaiseDispute(caller, id))])
  {
    var m := RaiseShape(w, caller, id);
    DisputedPart(w, caller, id, m);
  }

  lemma ResolutionPart(w: World, c: Disputes.DisputeCall)
    requires CasesSound(w) && Delivery.AllTied(PairOf(w)) && IsResolution(c) && WorldDo(w, OnDispute(c)).Ok?
    ensures WorldStep(w, OnDispute(c)).v == Escrow.EscrowRun(w.v, EscrowPart(w, OnDispute(c)))
  {
    ResolutionShape(w, c);
    AfterInnerIsRun(w, ResolvingCall(w, c));
  }

  lemma DisputePart(w: World, c: Disputes.DisputeCall)
    requires Joint(w)
    ensures WorldStep(w, OnDispute(c)).v == Escrow.EscrowRun(w.v, EscrowPart(w, OnDispute(c)))
  {
    if WorldDo(w, OnDispute(c)).Ok? {
      if c.Raise? {
        RaisePart(w, c.caller, c.id);
      } else if IsResolution(c) {
        ResolutionPart(w, c);
      }
    }
  }

  /** Whatever a transaction does to the vault, escrow calls do. */
  lemma StepPart(w: World, call: Call)
    requires Joint(w)
    ensures WorldStep(w, call).v == Escrow.EscrowRun(w.v, EscrowPart(w, call))
  {
    match call
    case OnEscrow(c) => OneTick(w.v, Escrow.EscrowTick(w.now, w.fleet, c));
    case OnDelivery(c) => DeliveryPart(w, c);
    case OnDispute(c) => DisputePart(w, c);
    case _ =>
  }

  lemma RunOn(v: Escrow.Vault, ticks: seq<Escrow.EscrowTick>, more: seq<Escrow.EscrowTick>)
    requires |more| <= 1
    ensures Escrow.EscrowRun(v, ticks + more) == Escrow.EscrowRun(Escrow.EscrowRun(v, ticks), more)
  {
    if more == [] {
      assert ticks + more == ticks;
    } else {
      assert (ticks + more)[..|ticks|] == ticks && more[..0] == [];
    }
  }

  function EscrowTicks(w: World, calls: seq<Call>): seq<Escrow.EscrowTick>
    decreases |calls|
  {
    if calls == [] then []
    else
      var init := calls[..|calls| - 1];
      EscrowTicks(w, init) + EscrowPart(WorldRun(w, init), calls[|calls| - 1])
  }

  /** Only direct calls create batches or sweep. */
  ghost predicate DirectOnly(ticks: seq<Escrow.EscrowTick>, calls: seq<Call>) {
    forall t :: t in ticks && (t.call.CreateBatch? || t.call.Sweep?) ==> OnEscrow(t.call) in calls
  }

  lemma PartIsDirect(w: World, call: Call)
    ensures DirectOnly(EscrowPart(w, call), [call])
  {
  }

  lemma {:induction false} TicksAreDirect(w: World, calls: seq<Call>)
    ensures DirectOnly(EscrowTicks(w, calls), calls)
    decreases |calls|
  {
    if calls != [] {
      var init, last := calls[..|calls| - 1], calls[|calls| - 1];
      TicksAreDirect(w, init);
      PartIsDirect(WorldRun(w, init), last);
      assert calls == init + [last];
    }
  }

  /** The vault of every composed run is the vault of a run of escrow calls, none of them a batch or
      a sweep that was not asked for directly. */
  lemma {:induction false} VaultRun(w: World, calls: seq<Call>)
    requires InitialWorld(w) && GenuineRun(calls)
    ensures WorldRun(w, calls).v == Escrow.EscrowRun(w.v, EscrowTicks(w, calls))
    ensures DirectOnly(EscrowTicks(w, calls), calls)
    decreases |calls|
  {
    TicksAreDirect(w, calls);
    if calls != [] {
      var init, last := calls[..|calls| - 1], calls[|calls| - 1];
      VaultRun(w, init);
      WorldRunJoint(w, init);
      StepPart(WorldRun(w, init), last);
      RunOn(w.v, EscrowTicks(w, init), EscrowPart(WorldRun(w, init), last));
    }
  }

  /** A direct release, or an admin's decision for the driver. */
  predicate IsReleaseCall(call: Call, id: nat) {
    || (call.OnEscrow? && Escrow.IsRelease(call.escrow) && call.escrow.id == id)
    || (call.OnDispute? && call.dispute.PayDriver? && call.dispute.id == id)
  }

  lemma PartReleases(w: World, call: Call, tick: Escrow.EscrowTick)
    requires EscrowPart(w, call) == [tick] && Escrow.IsRelease(tick.call)
    ensures IsReleaseCall(call, tick.call.id) && tick.now == w.now && tick.fleet == w.fleet
  {
  }

  lemma PartCommits(w: World, call: Call, tick: Escrow.EscrowTick)
    requires EscrowPart(w, call) == [tick] && Escrow.EscrowDo(w.v, tick.fleet, tick.now, tick.call).Ok?
    ensures WorldDo(w, call).Ok?
  {
  }

  lemma StepEvolves(w: World, call: Call)
    requires Joint(w)
    ensures EscrowLife.Evolves(w.v, WorldStep(w, call).v)
  {
    StepPart(w, call);
    if EscrowPart(w, call) != [] {
      OneTick(w.v, EscrowPart(w, call)[0]);
      EscrowLife.EscrowStepEvolves(w.v, EscrowPart(w, call)[0]);
    }
  }

  /** Over every composed run without batches the running total is exactly what is owed, and is held. */
  lemma CompositionBalances(w: World, calls: seq<Call>, token: Address)
    requires InitialWorld(w) && GenuineRun(calls)
    requires forall k :: 0 <= k < |calls| ==> !(calls[k].OnEscrow? && calls[k].escrow.CreateBatch?)
    ensures var v := WorldRun(w, calls).v;
            0 <= Escrow.TotalLocked(v.e, token) == EscrowSolvency.Live(v, token) <= Escrow.Held(v, token) <= I128_MAX
  {
    var ticks := EscrowTicks(w, calls);
    VaultRun(w, calls);
    forall k | 0 <= k < |ticks| ensures !ticks[k].call.CreateBatch? {
      assert ticks[k] in ticks;
    }
    EscrowSolvency.SolvencyWithoutBatches(w.v, ticks, token);
  }

  // ── The fleet contract's part ───────────────────────────────────────────────

  /** Fleet 0 does not exist: confirming a change for it always fails, and stands for no fleet call. */
  function FleetPart(call: Call): Fleet.FleetCall {
    if call.OnFleet? then call.fleet else Fleet.ConfirmTreasury(0)
  }

  function FleetStates(w: World, calls: seq<Call>): (states: seq<Fleet.FleetState>)
    ensures |states| == |calls| + 1
    ensures forall i :: 0 <= i <= |calls| ==> states[i] == WorldRun(w, calls[..i]).fleet
  {
    seq(|calls| + 1, i requires 0 <= i <= |calls| => WorldRun(w, calls[..i]).fleet)
  }

  function FleetTicks(w: World, calls: seq<Call>): (ticks: seq<Fleet.FleetTick>)
    ensures |ticks| == |calls|
    ensures forall i :: 0 <= i < |calls| ==> ticks[i] == Fleet.FleetTick(WorldRun(w, calls[..i]).now, FleetPart(calls[i]))
  {
    seq(|calls|, i requires 0 <= i < |calls| => Fleet.FleetTick(WorldRun(w, calls[..i]).now, FleetPart(calls[i])))
  }

  /** Disputes and deliveries do not touch the registry, and the clock never goes back. */
  lemma FleetStepPart(w: World, call: Call)
    requires Fleet.FleetInv(w.fleet)
    ensures WorldStep(w, call).fleet == Fleet.FleetStep(w.fleet, Fleet.FleetTick(w.now, FleetPart(call)))
    ensures w.now <= U64_MAX ==> w.now <= WorldStep(w, call).now <= U64_MAX
  {
  }

  lemma {:induction false} ClockAndFleet(w: World, calls: seq<Call>, i: nat)
    requires InitialWorld(w) && i <= |calls|
    ensures Fleet.FleetInv(WorldRun(w, calls[..i]).fleet) && WorldRun(w, calls[..i]).now <= U64_MAX
    ensures forall h :: 0 <= h <= i ==> WorldRun(w, calls[..h]).now <= WorldRun(w, calls[..i]).now
    decreases i
  {
    if i > 0 {
      var u := WorldRun(w, calls[..i - 1]);
      ClockAndFleet(w, calls, i - 1);
      PrefixStep(w, calls, i - 1);
      FleetStepPart(u, calls[i - 1]);
      Fleet.FleetStepInv(u.fleet, u.now, FleetPart(calls[i - 1]));
    }
  }

  /** The registry of every composed run goes through a run of fleet calls, call by call. */
  lemma RegistryRun(w: World, calls: seq<Call>)
    requires InitialWorld(w)
    ensures Fleet.FleetRun(FleetStates(w, calls), FleetTicks(w, calls))
  {
    var states, ticks := FleetStates(w, calls), FleetTicks(w, calls);
    assert calls[..0] == [];
    assert states[0] == Fleet.EmptyFleets(w.fleet.admin);
    forall i | 0 <= i < |ticks| ensures states[i + 1] == Fleet.FleetStep(states[i], ticks[i]) {
      ClockAndFleet(w, calls, i);
      PrefixStep(w, calls, i);
      FleetStepPart(WorldRun(w, calls[..i]), calls[i]);
    }
    forall i, j | 0 <= i <= j < |ticks| ensures ticks[i].now <= ticks[j].now <= U64_MAX {
      ClockAndFleet(w, calls, j);
    }
  }

  /** Call c registered fleet id with this treasury. */
  ghost predicate RegisteredWith(w: World, calls: seq<Call>, c: nat, id: nat, treasury: Address) {
    && c < |calls| && calls[c].OnFleet? && calls[c].fleet.Register? && calls[c].fleet.treasury == treasury
    && id !in WorldRun(w, calls[..c]).fleet.fleets
    && id in WorldRun(w, calls[..c + 1]).fleet.fleets
    && WorldRun(w, calls[..c + 1]).fleet.fleets[id].treasury == treasury
  }

  /** Call j, which committed, proposed this treasury, by a signer of that moment. */
  ghost predicate ProposedBySigner(w: World, calls: seq<Call>, j: nat, id: nat, treasury: Address) {
    && j < |calls| && calls[j].OnFleet? && calls[j].fleet.ProposeTreasury?
    && calls[j].fleet.id == id && calls[j].fleet.treasury == treasury
    && WorldDo(WorldRun(w, calls[..j]), calls[j]).Ok?
    && id in WorldRun(w, calls[..j]).fleet.fleets
    && calls[j].fleet.owner in WorldRun(w, calls[..j]).fleet.fleets[id].signers
  }

  /** Call c confirmed a change for the fleet. */
  ghost predicate ConfirmedBy(w: World, calls: seq<Call>, c: nat, id: nat) {
    c < |calls| && calls[c] == OnFleet(Fleet.ConfirmTreasury(id)) && WorldDo(WorldRun(w, calls[..c]), calls[c]).Ok?
  }

  /** Call c came no earlier after call j than the timelock allows. */
  ghost predicate TimelockElapsed(w: World, calls: seq<Call>, j: nat, c: nat) {
    && j < c < |calls|
    && WorldRun(w, calls[..c]).now >= Min(U64_MAX, WorldRun(w, calls[..j]).now + 259_200)
  }

  /** A signer proposed this treasury by call j, and call c put it in place once the timelock had elapsed. */
  ghost predicate RedirectedBy(w: World, calls: seq<Call>, j: nat, c: nat, id: nat, treasury: Address) {
    ProposedBySigner(w, calls, j, id, treasury) && ConfirmedBy(w, calls, c, id) && TimelockElapsed(w, calls, j, c)
  }

  lemma RegistrationSeen(w: World, calls: seq<Call>, c: nat, id: nat, treasury: Address)
    requires Fleet.Registers(FleetStates(w, calls), FleetTicks(w, calls), c, id, treasury)
    ensures RegisteredWith(w, calls, c, id, treasury)
  {
    assert FleetStates(w, calls)[c] == WorldRun(w, calls[..c]).fleet;
    assert FleetStates(w, calls)[c + 1] == WorldRun(w, calls[..c + 1]).fleet;
  }

  lemma ProposalSeen(w: World, calls: seq<Call>, j: nat, id: nat)
    requires Fleet.Proposes(FleetStates(w, calls), FleetTicks(w, calls), j, id)
    requires var s := FleetStates(w, calls)[j]; id in s.fleets && FleetTicks(w, calls)[j].call.owner in s.fleets[id].signers
    ensures ProposedBySigner(w, calls, j, id, FleetTicks(w, calls)[j].call.treasury)
  {
    assert FleetStates(w, calls)[j] == WorldRun(w, calls[..j]).fleet;
  }

  /** A committed confirmation on either side. */
  lemma ConfirmationSeen(w: World, calls: seq<Call>, c: nat, id: nat)
    requires c < |calls| && id != 0
    ensures Fleet.Confirms(FleetStates(w, calls), FleetTicks(w, calls), c, id) <==> ConfirmedBy(w, calls, c, id)
  {
    assert FleetStates(w, calls)[c] == WorldRun(w, calls[..c]).fleet;
  }

  lemma TimelockSeen(w: World, calls: seq<Call>, j: nat, c: nat)
    requires j < c < |calls|
    requires FleetTicks(w, calls)[c].now >= Min(U64_MAX, FleetTicks(w, calls)[j].now + 259_200)
    ensures TimelockElapsed(w, calls, j, c)
  {
    assert FleetTicks(w, calls)[c].now == WorldRun(w, calls[..c]).now;
    assert FleetTicks(w, calls)[j].now == WorldRun(w, calls[..j]).now;
  }

  lemma NoneConfirmedSince(w: World, calls: seq<Call>, c: nat, id: nat)
    requires id != 0
    requires forall i :: c < i < |calls| ==> !Fleet.Confirms(FleetStates(w, calls), FleetTicks(w, calls), i, id)
    ensures forall i :: c < i < |calls| ==> !ConfirmedBy(w, calls, i, id)
  {
    forall i | c < i < |calls| ensures !ConfirmedBy(w, calls, i, id) {
      ConfirmationSeen(w, calls, i, id);
    }
  }

  lemma OriginSeen(w: World, calls: seq<Call>, c: nat, j: nat, id: nat, treasury: Address)
    requires c < |calls| && id != 0
    requires var states, ticks := FleetStates(w, calls), FleetTicks(w, calls);
             || Fleet.Registers(states, ticks, c, id, treasury)
             || (&& Fleet.Confirms(states, ticks, c, id)
                 && j < c && Fleet.Proposes(states, ticks, j, id) && ticks[j].call.treasury == treasury
                 && id in states[j].fleets && ticks[j].call.owner in states[j].fleets[id].signers
                 && ticks[c].now >= Min(U64_MAX, ticks[j].now + 259_200))
    ensures || RegisteredWith(w, calls, c, id, treasury)
            || RedirectedBy(w, calls, j, c, id, treasury)
  {
    if Fleet.Registers(FleetStates(w, calls), FleetTicks(w, calls), c, id, treasury) {
      RegistrationSeen(w, calls, c, id, treasury);
    } else {
      ProposalSeen(w, calls, j, id);
      ConfirmationSeen(w, calls, c, id);
      TimelockSeen(w, calls, j, c);
    }
  }

  lemma RedirectionInRegistry(w: World, calls: seq<Call>, driver: Address, id: nat) returns (c: nat, j: nat)
    requires InitialWorld(w)
    requires Fleet.PayoutAddress(WorldRun(w, calls).fleet, driver, id).Ok?
    requires Fleet.PayoutAddress(WorldRun(w, calls).fleet, driver, id).value != driver
    ensures var payee := Fleet.PayoutAddress(WorldRun(w, calls).fleet, driver, id).value;
            var states, ticks := FleetStates(w, calls), FleetTicks(w, calls);
            && c < |calls| && (forall i :: c < i < |calls| ==> !Fleet.Confirms(states, ticks, i, id))
            && (|| Fleet.Registers(states, ticks, c, id, payee)
                || (&& Fleet.Confirms(states, ticks, c, id)
                    && j < c && Fleet.Proposes(states, ticks, j, id) && ticks[j].call.treasury == payee
                    && id in states[j].fleets && ticks[j].call.owner in states[j].fleets[id].signers
                    && ticks[c].now >= Min(U64_MAX, ticks[j].now + 259_200)))
  {
    RegistryRun(w, calls);
    assert calls[..|calls|] == calls;
    c, j := Fleet.RedirectionOrigin(FleetStates(w, calls), FleetTicks(w, calls), |calls|, driver, id);
  }

  /** Whenever a driver's earnings go anywhere but to the driver, they go to the treasury their
      fleet was registered with, or to one that was proposed by a signer of that moment and
      confirmed at least the timelock later; no change took effect since, everything else in the
      system going on meanwhile. */
  lemma RedirectedPayouts(w: World, calls: seq<Call>, driver: Address, id: nat) returns (c: nat, j: nat)
    requires InitialWorld(w)
    requires Fleet.PayoutAddress(WorldRun(w, calls).fleet, driver, id).Ok?
    requires Fleet.PayoutAddress(WorldRun(w, calls).fleet, driver, id).value != driver
    ensures var payee := Fleet.PayoutAddress(WorldRun(w, calls).fleet, driver, id).value;
            || RegisteredWith(w, calls, c, id, payee)
            || RedirectedBy(w, calls, j, c, id, payee)
    ensures forall i :: c < i < |calls| ==> !ConfirmedBy(w, calls, i, id)
  {
    assert calls[..|calls|] == calls;
    ClockAndFleet(w, calls, |calls|);
    c, j := RedirectionInRegistry(w, calls, driver, id);
    OriginSeen(w, calls, c, j, id, Fleet.PayoutAddress(WorldRun(w, calls).fleet, driver, id).value);
    NoneConfirmedSince(w, calls, c, id);
  }
}

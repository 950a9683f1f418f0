/** Concrete runs: how little a forced resolution is worth, and how a delivery that goes well falls out of step. */
module SystemExamples {
  import opened Prelude
  import Token
  import Escrow
  import EscrowLife
  import EscrowSolvency
  import Sums
  import Delivery
  import Disputes
  import Fleet
  import opened System
  import opened SystemRuns
  import SystemSync

  const COIN: Address := Account(0)
  const ADMIN: Address := Account(1)
  const SENDER: Address := Account(2)
  const RECIPIENT: Address := Account(3)
  const DRIVER: Address := Account(4)
  const DAY: nat := 86_400
  const PARCEL: Delivery.Metadata := Delivery.Metadata(1, "here", "there", Delivery.Cargo(1000, "general", false), 0, 0)

  const ORDERED: Delivery.DeliveryRecord :=
    Delivery.DeliveryRecord(1, SENDER, RECIPIENT, None, Delivery.Pending, PARCEL, 0, None, None)
  const FUNDED: Escrow.EscrowRecord :=
    Escrow.EscrowRecord(SENDER, RECIPIENT, DRIVER, COIN, 100, Escrow.Locked, 0, Some(2_592_000), None, None, None)
  const COMPLAINT: Disputes.DisputeCase := Disputes.DisputeCase(1, Disputes.Open, 0, SENDER, [], None, None)

  function Start(): World {
    World(Disputes.DisputeState({ADMIN}, DAY, DAY, map[], {}),
          Delivery.DeliveryState(ADMIN, 0, map[], map[]),
          Escrow.Vault(Escrow.EscrowState(ADMIN, COIN, 0, false, false, Some(DisputeAddress), None, map[], map[], map[], map[]),
                       map[Token.Holding(COIN, SENDER) := 100], Escrow.Audit([], {}, map[])),
          Fleet.EmptyFleets(ADMIN), 0)
  }

  /** A delivery is created, funded and picked up; its sender opens a case and waits past the limit. */
  function Story(): seq<Call> {
    [OnDelivery(Delivery.CreateOne(SENDER, RECIPIENT, PARCEL)),
     OnEscrow(Escrow.CreateEscrow(SENDER, RECIPIENT, DRIVER, 1, COIN, 100, None)),
     OnDelivery(Delivery.Assign(DRIVER, 1, DRIVER)),
     OnDispute(Disputes.Raise(SENDER, 1)),
     Wait(DAY + 1)]
  }

  lemma StartIsInitial()
    ensures InitialWorld(Start())
  {
    var ledger, empty: Token.Ledger := Start().v.ledger, map[];
    forall t ensures Token.Supply(ledger, t) <= I128_MAX {
      Sums.TotalPut(empty, Token.SupplyWeight(t), Token.Holding(COIN, SENDER), 100);
      assert ledger == empty[Token.Holding(COIN, SENDER) := 100];
    }
  }

  lemma Created(w: World) returns (u: World)
    requires w == Start()
    ensures u == WorldStep(w, Story()[0]) && u == w.(d := u.d)
    ensures u.d.admin == ADMIN && u.d.records == map[1 := ORDERED]
  {
    u := WorldStep(w, Story()[0]);
  }

  lemma Funded(w: World) returns (u: World)
    requires w.v == Start().v && w.now == 0
    ensures u == WorldStep(w, Story()[1]) && u == w.(v := u.v)
    ensures u.v.e.records == map[1 := FUNDED]
    ensures u.v.e.admin == ADMIN && u.v.e.disputeContract == Some(DisputeAddress)
  {
    u := WorldStep(w, Story()[1]);
  }

  lemma PickedUp(w: World) returns (u: World)
    requires w.d.admin == ADMIN && w.d.records == map[1 := ORDERED]
    ensures u == WorldStep(w, Story()[2]) && u == w.(d := u.d)
    ensures u.d.records == map[1 := w.d.records[1].(driver := Some(DRIVER), status := Delivery.Active)]
  {
    u := WorldStep(w, Story()[2]);
  }

  /** The two calls a case makes before it is opened. */
  lemma Escalated(p: Delivery.Pair) returns (q: Delivery.Pair)
    requires p.d.records == map[1 := ORDERED.(driver := Some(DRIVER), status := Delivery.Active)]
    requires p.v.e.records == map[1 := FUNDED]
    requires p.v.e.disputeContract == Some(DisputeAddress)
    ensures Disputes.DisputeAndFreeze(p, 0, SENDER, 1) == Ok(q)
    ensures q.d.records == map[1 := p.d.records[1].(status := Delivery.Disputed)]
    ensures q.v.e == p.v.e.(records := q.v.e.records) && 1 in q.v.e.records && q.v.e.records[1].status == Escrow.Paused
  {
    var escrow := p.v.e.records[1].(status := Escrow.Paused, disputedBy := Some(SENDER), disputedAt := Some(0));
    var delivery := p.d.records[1].(status := Delivery.Disputed);
    q := Delivery.Pair(Delivery.Store(p.d, 1, delivery), Escrow.Store(p.v, 1, escrow));
    assert Escrow.DoRaiseDispute(p.v, 0, SENDER, 1) == Ok(q.v);
    assert Delivery.DoDispute(p, 0, SENDER, 1) == Ok(q);
    assert Escrow.DoFreezeFunds(q.v, 0, DisputeAddress, 1) == Ok(q.v);
  }

  lemma Raised(w: World) returns (u: World)
    requires w.d.records == map[1 := ORDERED.(driver := Some(DRIVER), status := Delivery.Active)]
    requires w.v.e.records == map[1 := FUNDED]
    requires w.v.e.disputeContract == Some(DisputeAddress) && w.q == Start().q && w.now == 0
    ensures u == WorldStep(w, Story()[3]) && u.now == 0 && u.v.e.admin == w.v.e.admin && u.v.e.paused == w.v.e.paused
    ensures u.d.records == map[1 := w.d.records[1].(status := Delivery.Disputed)]
    ensures 1 in u.v.e.records && u.v.e.records[1].status == Escrow.Paused
    ensures u.q == w.q.(cases := map[1 := COMPLAINT])
  {
    var p := Escalated(PairOf(w));
    Disputes.RaiseParts(TripleOf(w), 0, SENDER, 1);
    var q := w.q.(cases := w.q.cases[1 := COMPLAINT]);
    assert Disputes.DoRaise(TripleOf(w), 0, SENDER, 1) == Ok(Disputes.Triple(q, p.d, p.v));
    u := w.(q := q, d := p.d, v := p.v);
  }

  lemma Waited(w: World) returns (u: World)
    requires w.now == 0
    ensures u == WorldStep(w, Story()[4]) && u == w.(now := DAY + 1)
  {
    u := WorldStep(w, Story()[4]);
  }

  /** A run, given the world after each of its calls. */
  lemma {:induction false} RunThrough(worlds: seq<World>, calls: seq<Call>)
    requires |worlds| == |calls| + 1
    requires forall k :: 0 <= k < |calls| ==> worlds[k + 1] == WorldStep(worlds[k], calls[k])
    ensures WorldRun(worlds[0], calls) == worlds[|calls|]
    decreases |calls|
  {
    if calls != [] {
      RunThrough(worlds[..|calls|], calls[..|calls| - 1]);
    }
  }

  lemma EndOfStory() returns (u: World)
    ensures u == WorldRun(Start(), Story())
    ensures u.now == DAY + 1 && u.v.e.admin == ADMIN && !u.v.e.paused
    ensures 1 in u.d.records && u.d.records[1].sender == SENDER && u.d.records[1].recipient == RECIPIENT && u.d.records[1].driver == Some(DRIVER)
    ensures 1 in u.v.e.records && u.v.e.records[1].status == Escrow.Paused
    ensures 1 in u.q.cases && u.q.cases[1] == COMPLAINT && u.q.resolutionLimit == DAY
  {
    var created := Created(Start());
    var funded := Funded(created);
    var pickedUp := PickedUp(funded);
    var raised := Raised(pickedUp);
    u := Waited(raised);
    RunThrough([Start(), created, funded, pickedUp, raised, u], Story());
  }

  lemma StoryIsGenuine()
    ensures InitialWorld(Start()) && GenuineRun(Story()) && Joint(WorldRun(Start(), Story()))
    ensures EscrowSolvency.Solvent(WorldRun(Start(), Story()).v)
  {
    var w, story := Start(), Story();
    StartIsInitial();
    forall k | 0 <= k < |story| ensures PrudentCall(WorldRun(w, story[..k]), story[k]) {
      assert !(story[k].OnEscrow? && story[k].escrow.Sweep?);
    }
    WorldRunJoint(w, story);
    WorldRunSolvent(w, story);
  }

  /** The window to resolve the case has elapsed, and yet no party, nor anybody else, can force a
      resolution: the funds stay paused. */
  lemma NobodyCanForce(caller: Address)
    ensures var u := WorldRun(Start(), Story());
            && InitialWorld(Start()) && GenuineRun(Story())
            && 1 in u.q.cases && u.q.cases[1].status == Disputes.Open
            && u.q.cases[1].raisedAt + u.q.resolutionLimit < u.now
            && Disputes.DoForceResolve(TripleOf(u), u.now, caller, 1).Err?
  {
    StoryIsGenuine();
    var u := EndOfStory();
    ForceResolveSucceedsIff(u, caller, 1);
  }

  // ── A stranded case ─────────────────────────────────────────────────────────

  const DIRECT_REFUND: Call := OnEscrow(Escrow.Refund(ADMIN, 1))

  /** The escrow admin refunds the paused escrow without asking the dispute contract. */
  lemma Refunded(w: World) returns (u: World)
    requires Escrow.DoRefund(w.v, ADMIN, 1).Ok?
    ensures u == WorldStep(w, DIRECT_REFUND) && u == w.(v := u.v)
    ensures 1 in u.v.e.records && u.v.e.records[1].status == Escrow.Refunded
  {
    var tick := Escrow.EscrowTick(w.now, w.fleet, Escrow.Refund(ADMIN, 1));
    u := WorldStep(w, DIRECT_REFUND);
    var v, ps := Escrow.SettlingIsClose(w.v, tick);
    Escrow.CloseKeeps(v, 1, Escrow.Refunded, ps);
  }

  lemma RefundComesLast()
    ensures WorldRun(Start(), Story() + [DIRECT_REFUND]) == WorldStep(WorldRun(Start(), Story()), DIRECT_REFUND)
    ensures GenuineRun(Story() + [DIRECT_REFUND])
  {
    RunSnoc(Start(), Story(), [DIRECT_REFUND]);
    assert Story() + [DIRECT_REFUND][..0] == Story();
  }

  lemma EndOfStrandedStory() returns (u: World)
    ensures u == WorldRun(Start(), Story() + [DIRECT_REFUND]) && GenuineRun(Story() + [DIRECT_REFUND])
    ensures 1 in u.q.cases && u.q.cases[1].status == Disputes.Open
    ensures 1 in u.v.e.records && u.v.e.records[1].status == Escrow.Refunded
  {
    StoryIsGenuine();
    var w := EndOfStory();
    EscrowLife.RefundSucceedsIff(w.v, w.fleet, w.now, ADMIN, 1);
    u := Refunded(w);
    RefundComesLast();
  }

  /** The case is still open, its money is gone back to the sender, and no admin can close it. */
  lemma NoAdminCanClose(caller: Address, senderBps: nat)
    ensures var u := WorldRun(Start(), Story() + [DIRECT_REFUND]);
            && InitialWorld(Start()) && GenuineRun(Story() + [DIRECT_REFUND])
            && 1 in u.q.cases && u.q.cases[1].status == Disputes.Open
            && 1 in u.v.e.records && u.v.e.records[1].status == Escrow.Refunded
            && Disputes.DoRefundSender(TripleOf(u), u.fleet, u.now, caller, 1).Err?
            && Disputes.DoPayDriver(TripleOf(u), u.fleet, u.now, caller, 1).Err?
            && Disputes.DoSplitBetween(TripleOf(u), u.now, caller, 1, senderBps).Err?
  {
    StartIsInitial();
    var u := EndOfStrandedStory();
    Disputes.AdminsNeedPaused(TripleOf(u), u.fleet, u.now, caller, 1, senderBps);
  }

  // ── A confirmed delivery ────────────────────────────────────────────────────

  /** The same delivery goes well: it is picked up and driven to its recipient, who confirms it. */
  function Drive(): seq<Call> {
    [OnDelivery(Delivery.CreateOne(SENDER, RECIPIENT, PARCEL)),
     OnEscrow(Escrow.CreateEscrow(SENDER, RECIPIENT, DRIVER, 1, COIN, 100, None)),
     OnDelivery(Delivery.Assign(DRIVER, 1, DRIVER)),
     OnDelivery(Delivery.StartTransit(DRIVER, 1))]
  }

  const CONFIRM: Call := OnDelivery(Delivery.Confirm(RECIPIENT, 1))

  lemma Driven(w: World) returns (u: World)
    requires w.d.records == map[1 := ORDERED.(driver := Some(DRIVER), status := Delivery.Active)]
    requires w.now == 0
    ensures u == WorldStep(w, Drive()[3]) && u == w.(d := u.d)
    ensures u.d.records == map[1 := w.d.records[1].(status := Delivery.InTransit, transitStartedAt := Some(0))]
  {
    u := WorldStep(w, Drive()[3]);
  }

  lemma Confirmed(w: World) returns (u: World)
    requires 1 in w.d.records && 1 in w.v.e.records && w.now == 0
    requires w.d.records[1] == ORDERED.(driver := Some(DRIVER), status := Delivery.InTransit, transitStartedAt := Some(0))
    requires w.v.e.records[1] == FUNDED
    ensures u == WorldStep(w, CONFIRM) && WorldDo(w, CONFIRM).Ok?
    ensures 1 in u.d.records && u.d.records[1] == w.d.records[1].(status := Delivery.Delivered, deliveredAt := Some(0))
    ensures 1 in u.v.e.records && u.v.e.records[1] == w.v.e.records[1].(status := Escrow.Holdback)
    ensures u == w.(d := u.d, v := u.v)
  {
    u := WorldStep(w, CONFIRM);
  }

  lemma OnTheRoad(w: World) returns (picked: World, u: World)
    requires w.d.admin == ADMIN && w.d.records == map[1 := ORDERED] && w.now == 0
    ensures picked == WorldStep(w, Drive()[2]) && u == WorldStep(picked, Drive()[3]) && u == w.(d := u.d)
    ensures 1 in u.d.records
    ensures u.d.records[1] == ORDERED.(driver := Some(DRIVER), status := Delivery.InTransit, transitStartedAt := Some(0))
  {
    picked := PickedUp(w);
    u := Driven(picked);
  }

  lemma EndOfDrive() returns (u: World)
    ensures u == WorldRun(Start(), Drive()) && u.now == 0 && u.q == Start().q
    ensures 1 in u.d.records && 1 in u.v.e.records
    ensures u.d.records[1] == ORDERED.(driver := Some(DRIVER), status := Delivery.InTransit, transitStartedAt := Some(0))
    ensures u.v.e.records[1] == FUNDED
  {
    var created := Created(Start());
    var funded := Funded(created);
    var picked, end := OnTheRoad(funded);
    RunThrough([Start(), created, funded, picked, end], Drive());
    u := end;
  }

  lemma ConfirmComesLast()
    ensures WorldRun(Start(), Drive() + [CONFIRM]) == WorldStep(WorldRun(Start(), Drive()), CONFIRM)
  {
    RunSnoc(Start(), Drive(), [CONFIRM]);
    assert Drive() + [CONFIRM][..0] == Drive();
  }

  lemma DriveIsGenuine()
    ensures var calls := Drive() + [CONFIRM];
            && InitialWorld(Start()) && GenuineRun(calls) && Joint(WorldRun(Start(), calls))
            && EscrowSolvency.Solvent(WorldRun(Start(), calls).v)
  {
    var w, calls := Start(), Drive() + [CONFIRM];
    StartIsInitial();
    forall k | 0 <= k < |calls| ensures PrudentCall(WorldRun(w, calls[..k]), calls[k]) {
      assert !(calls[k].OnEscrow? && calls[k].escrow.Sweep?);
    }
    WorldRunJoint(w, calls);
    WorldRunSolvent(w, calls);
  }

  lemma Released(u: World)
    requires Escrow.DoReleaseHoldback(u.v, u.fleet, RECIPIENT, 1).Ok?
    requires 1 in u.d.records && u.d.records[1].status == Delivery.Delivered
    ensures var paid := WorldStep(u, OnEscrow(Escrow.ReleaseHoldback(RECIPIENT, 1)));
            1 in paid.d.records && 1 in paid.v.e.records && SystemSync.Synced(paid, 1)
  {
    var tick := Escrow.EscrowTick(u.now, u.fleet, Escrow.ReleaseHoldback(RECIPIENT, 1));
    var v, ps := Escrow.ReleaseIsClose(u.v, tick);
    Escrow.CloseKeeps(v, 1, Escrow.Released, ps);
  }

  /** A delivery that was synchronised is reported as out of step once its recipient has confirmed it,
      and as synchronised again once its escrow is released. */
  lemma ConfirmedOutOfStep()
    ensures var before, u := WorldRun(Start(), Drive()), WorldRun(Start(), Drive() + [CONFIRM]);
            && InitialWorld(Start()) && GenuineRun(Drive() + [CONFIRM])
            && 1 in before.d.records && 1 in before.v.e.records && SystemSync.Synced(before, 1)
            && WorldDo(before, CONFIRM) == Ok(u)
            && 1 in u.d.records && 1 in u.v.e.records && !SystemSync.Synced(u, 1)
            && var paid := WorldStep(u, OnEscrow(Escrow.ReleaseHoldback(RECIPIENT, 1)));
            && 1 in paid.d.records && 1 in paid.v.e.records && SystemSync.Synced(paid, 1)
  {
    var before := EndOfDrive();
    var u := Confirmed(before);
    ConfirmComesLast();
    DriveIsGenuine();
    EscrowLife.PayoutSucceedsIff(u.v, u.fleet, RECIPIENT, 1);
    Released(u);
  }

  /** On the road the driver is a party to the delivery, and is turned away; delivered a moment ago, the
      recipient is well within the time limit, and is turned away too. */
  lemma PromisesToDisputeAreEmpty()
    ensures var w, u := WorldRun(Start(), Drive()), WorldRun(Start(), Drive() + [CONFIRM]);
            && 1 in w.d.records && Disputes.IsParty(w.d.records[1], DRIVER)
            && Disputes.DisputeWindow(w.q, w.d.records[1], w.now).Ok?
            && Disputes.DoRaise(TripleOf(w), w.now, DRIVER, 1) == Err(Unauthorized)
            && 1 in u.d.records && Disputes.IsParty(u.d.records[1], RECIPIENT)
            && Disputes.DisputeWindow(u.q, u.d.records[1], u.now).Ok?
            && Disputes.DoRaise(TripleOf(u), u.now, RECIPIENT, 1) == Err(InvalidState)
  {
    var w := EndOfDrive();
    DriverTurnedAway(w);
    var u := Confirmed(w);
    ConfirmComesLast();
    RecipientTurnedAway(u);
  }

  lemma DriverTurnedAway(w: World)
    requires 1 in w.d.records && w.d.records[1].status == Delivery.InTransit
    requires w.d.records[1].sender == SENDER && w.d.records[1].recipient == RECIPIENT && w.d.records[1].driver == Some(DRIVER)
    ensures Disputes.DisputeWindow(w.q, w.d.records[1], w.now).Ok?
    ensures Disputes.DoRaise(TripleOf(w), w.now, DRIVER, 1) == Err(Unauthorized)
  {
    Disputes.RaiseParts(TripleOf(w), w.now, DRIVER, 1);
  }

  lemma RecipientTurnedAway(u: World)
    requires u.now == 0 && u.q.timeLimit == DAY
    requires 1 in u.d.records && u.d.records[1].status == Delivery.Delivered && u.d.records[1].deliveredAt == Some(0)
    requires u.d.records[1].recipient == RECIPIENT
    requires 1 in u.v.e.records && u.v.e.records[1].status == Escrow.Holdback && u.v.e.records[1].recipient == RECIPIENT
    ensures Disputes.DisputeWindow(u.q, u.d.records[1], u.now).Ok?
    ensures Disputes.DoRaise(TripleOf(u), u.now, RECIPIENT, 1) == Err(InvalidState)
  {
    Disputes.RaiseParts(TripleOf(u), u.now, RECIPIENT, 1);
  }
}

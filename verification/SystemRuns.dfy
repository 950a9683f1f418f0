/** What the joint invariant buys: which transitions can never happen, which calls succeed exactly
    when, and what stays fixed, over every run of the composed contracts. */
module SystemRuns {
  import opened Prelude
  import opened System
  import Escrow
  import EscrowSolvency
  import EscrowLife
  import Delivery
  import Disputes
  import Fleet

  // ── Deliveries ──────────────────────────────────────────────────────────────

  predicate IsAbsorbing(s: Delivery.DeliveryStatus) {
    s == Delivery.Delivered || s == Delivery.Disputed || s == Delivery.Cancelled
  }

  /** One delivery before and after: parties and creation time never change, metadata only while
      pending, the driver only on assignment, and a delivered, disputed or cancelled delivery never. */
  ghost predicate DeliveryMoves(d: Delivery.DeliveryState, e: Delivery.DeliveryState, id: nat)
    requires id in d.records
  {
    var r := d.records[id];
    id in e.records &&
    var s := e.records[id];
    && s.id == r.id && s.sender == r.sender && s.recipient == r.recipient && s.createdAt == r.createdAt
    && (r.status != Delivery.Pending ==> s.metadata == r.metadata && s.driver == r.driver && s.status != Delivery.Pending)
    && (IsAbsorbing(r.status) ==> s == r)
  }

  lemma LocalCallMoves(w: World, c: Delivery.DeliveryCall, id: nat)
    requires Joint(w) && WorldDo(w, OnDelivery(c)).Ok? && !c.CreateOne? && !c.CreateMany? && id in w.d.records
    ensures DeliveryMoves(w.d, WorldDo(w, OnDelivery(c)).value.d, id)
  {
    DeliveryCallShape(w, c);
    Delivery.StepFields(PairOf(w), w.now, c);
  }

  lemma RaiseMoves(w: World, caller: Address, about: nat, id: nat)
    requires Joint(w) && WorldDo(w, OnDispute(Disputes.Raise(caller, about))).Ok? && id in w.d.records
    ensures DeliveryMoves(w.d, WorldDo(w, OnDispute(Disputes.Raise(caller, about))).value.d, id)
  {
    var m := RaiseShape(w, caller, about);
    LocalCallMoves(w, Delivery.Dispute(caller, about), id);
  }

  lemma DisputeCallMoves(w: World, c: Disputes.DisputeCall, id: nat)
    requires Joint(w) && WorldDo(w, OnDispute(c)).Ok? && id in w.d.records
    ensures DeliveryMoves(w.d, WorldDo(w, OnDispute(c)).value.d, id)
  {
    if c.Raise? {
      RaiseMoves(w, c.caller, c.id, id);
    } else {
      OnlyRaisingTouchesDeliveries(w, c);
    }
  }

  lemma OnlyRaisingTouchesDeliveries(w: World, c: Disputes.DisputeCall)
    requires !c.Raise?
    ensures WorldStep(w, OnDispute(c)).d == w.d
  {
    if IsResolution(c) && WorldDo(w, OnDispute(c)).Ok? {
      var status, v := Disputes.ResolutionCloses(TripleOf(w), w.fleet, w.now, c);
    }
  }

  /** Delivered, Disputed and Cancelled are absorbing in the composition, although the transition
      table alone lets a delivered delivery be disputed and a disputed one be delivered. */
  lemma WorldStepMoves(w: World, call: Call, id: nat)
    requires Joint(w) && id in w.d.records
    ensures DeliveryMoves(w.d, WorldStep(w, call).d, id)
  {
    if WorldDo(w, call).Ok? {
      match call
      case OnDelivery(c) =>
        if c.CreateOne? || c.CreateMany? {
          CreationTies(w, c);
        } else {
          LocalCallMoves(w, c, id);
        }
      case OnDispute(c) => DisputeCallMoves(w, c, id);
      case _ =>
    }
  }

  /** One more call of a longer run. */
  lemma RunSnoc(w: World, calls: seq<Call>, more: seq<Call>)
    requires more != []
    ensures WorldRun(w, calls + more) == WorldStep(WorldRun(w, calls + more[..|more| - 1]), more[|more| - 1])
  {
    assert (calls + more)[..|calls + more| - 1] == calls + more[..|more| - 1];
  }

  lemma GenuineInit(calls: seq<Call>, more: seq<Call>)
    requires GenuineRun(calls + more) && more != []
    ensures GenuineRun(calls + more[..|more| - 1])
  {
    var init := calls + more[..|more| - 1];
    assert forall k :: 0 <= k < |init| ==> init[k] == (calls + more)[k];
  }

  lemma DeliveryMovesOn(d: Delivery.DeliveryState, e: Delivery.DeliveryState, f: Delivery.DeliveryState, id: nat)
    requires id in d.records && DeliveryMoves(d, e, id) && DeliveryMoves(e, f, id)
    ensures DeliveryMoves(d, f, id)
  {
  }

  /** The same over any stretch of a run. */
  lemma {:induction false} WorldRunMoves(w: World, calls: seq<Call>, more: seq<Call>, id: nat)
    requires InitialWorld(w) && GenuineRun(calls + more) && id in WorldRun(w, calls).d.records
    ensures DeliveryMoves(WorldRun(w, calls).d, WorldRun(w, calls + more).d, id)
    decreases |more|
  {
    if more == [] {
      assert calls + more == calls;
    } else {
      var m := WorldRun(w, calls + more[..|more| - 1]);
      RunSnoc(w, calls, more);
      GenuineInit(calls, more);
      WorldRunMoves(w, calls, more[..|more| - 1], id);
      WorldRunJoint(w, calls + more[..|more| - 1]);
      WorldStepMoves(m, more[|more| - 1], id);
      DeliveryMovesOn(WorldRun(w, calls).d, m.d, WorldStep(m, more[|more| - 1]).d, id);
    }
  }

  // ── Cases ───────────────────────────────────────────────────────────────────

  lemma WorldStepCase(w: World, call: Call, id: nat)
    requires id in w.q.cases
    ensures Disputes.CaseMoves(w.q, WorldStep(w, call).q, id)
  {
    if call.OnDispute? {
      Disputes.CaseStep(TripleOf(w), w.fleet, w.now, call.dispute, id);
    }
  }

  lemma CaseMovesOn(q: Disputes.DisputeState, r: Disputes.DisputeState, s: Disputes.DisputeState, id: nat)
    requires id in q.cases && Disputes.CaseMoves(q, r, id) && Disputes.CaseMoves(r, s, id)
    ensures Disputes.CaseMoves(q, s, id)
  {
  }

  /** Over any stretch of a run a case keeps its origin, its evidence only grows, and once closed it
      is frozen. */
  lemma {:induction false} CasesOverRuns(w: World, calls: seq<Call>, more: seq<Call>, id: nat)
    requires id in WorldRun(w, calls).q.cases
    ensures Disputes.CaseMoves(WorldRun(w, calls).q, WorldRun(w, calls + more).q, id)
    decreases |more|
  {
    if more == [] {
      assert calls + more == calls;
    } else {
      var m := WorldRun(w, calls + more[..|more| - 1]);
      RunSnoc(w, calls, more);
      CasesOverRuns(w, calls, more[..|more| - 1], id);
      WorldStepCase(m, more[|more| - 1], id);
      CaseMovesOn(WorldRun(w, calls).q, m.q, WorldStep(m, more[|more| - 1]).q, id);
    }
  }

  /** A case closes at most once: from then on nothing about it changes, its evidence included, and
      the escrow it is about is settled the way the outcome says and stays so. */
  lemma ClosedCaseIsFinal(w: World, calls: seq<Call>, more: seq<Call>, id: nat)
    requires InitialWorld(w) && GenuineRun(calls + more)
    requires id in WorldRun(w, calls).q.cases && WorldRun(w, calls).q.cases[id].status != Disputes.Open
    ensures var m, n := WorldRun(w, calls), WorldRun(w, calls + more);
            && id in n.q.cases && n.q.cases[id] == m.q.cases[id]
            && id in n.v.e.records && IsTerminal(n.v.e.records[id].status)
            && (n.q.cases[id].status == Disputes.ResolvedRefund ==> n.v.e.records[id].status == Escrow.Refunded)
            && (n.q.cases[id].status == Disputes.ResolvedPayout ==> n.v.e.records[id].status == Escrow.Released)
            && (n.q.cases[id].status == Disputes.SplitFunds && id !in m.q.forced ==> n.v.e.records[id].status == Escrow.Split)
  {
    CasesOverRuns(w, calls, more, id);
    WorldRunJoint(w, calls + more);
  }

  /** The delivery contract lets its sender or recipient dispute a delivery that is under way, as
      long as the escrow can still be paused, and never one that was delivered. */
  lemma DisputeSucceedsIff(w: World, caller: Address, id: nat)
    requires Joint(w)
    ensures Delivery.DoDispute(PairOf(w), w.now, caller, id).Ok? <==>
            && id in w.d.records
            && w.d.records[id].status in {Delivery.Active, Delivery.InTransit}
            && caller in {w.d.records[id].sender, w.d.records[id].recipient}
            && id in w.v.e.records
            && w.v.e.records[id].status == Escrow.Locked
            && caller in {w.v.e.records[id].sender, w.v.e.records[id].recipient, w.v.e.records[id].driver}
  {
    if id in w.d.records {
      assert Delivery.Tied(w.d.records[id], w.v, id);
    }
  }

  /** A case is raised exactly when the delivery can be disputed and the escrow contract knows the
      dispute contract: the window always allows it, and no earlier case is in the way. */
  lemma RaiseIffDispute(w: World, caller: Address, id: nat)
    requires Joint(w)
    ensures Disputes.DoRaise(TripleOf(w), w.now, caller, id).Ok? <==>
            Delivery.DoDispute(PairOf(w), w.now, caller, id).Ok? && w.v.e.disputeContract.Some?
  {
    DisputeSucceedsIff(w, caller, id);
    if Delivery.DoDispute(PairOf(w), w.now, caller, id).Ok? {
      FreezeChangesNothing(w, caller, id);
      assert id !in w.q.cases;
    }
  }

  /** Raising a case succeeds exactly for a delivery under way, raised by its sender or recipient,
      who must also be a party to a locked escrow of the same id: the driver's right to complain
      and the time limit after delivery, which the contract checks, never lead anywhere. */
  lemma RaiseSucceedsIff(w: World, caller: Address, id: nat)
    requires Joint(w)
    ensures Disputes.DoRaise(TripleOf(w), w.now, caller, id).Ok? <==>
            && id in w.d.records
            && w.d.records[id].status in {Delivery.Active, Delivery.InTransit}
            && caller in {w.d.records[id].sender, w.d.records[id].recipient}
            && id in w.v.e.records
            && w.v.e.records[id].status == Escrow.Locked
            && caller in {w.v.e.records[id].sender, w.v.e.records[id].recipient, w.v.e.records[id].driver}
            && w.v.e.disputeContract.Some?
  {
    RaiseIffDispute(w, caller, id);
    DisputeSucceedsIff(w, caller, id);
  }

  /** Forcing a resolution succeeds exactly for a party to an open case whose window has elapsed,
      and, while the escrow is still paused, only if that party is the escrow admin and the escrow
      contract is not switched off: others get nothing out of waiting. */
  lemma ForceResolveSucceedsIff(w: World, caller: Address, id: nat)
    requires Joint(w) && EscrowSolvency.Solvent(w.v)
    ensures Disputes.DoForceResolve(TripleOf(w), w.now, caller, id).Ok? <==>
            && id in w.q.cases && w.q.cases[id].status == Disputes.Open
            && (caller in {w.d.records[id].sender, w.d.records[id].recipient} || w.d.records[id].driver == Some(caller))
            && w.q.cases[id].raisedAt + w.q.resolutionLimit < w.now
            && (w.v.e.records[id].status == Escrow.Paused ==> caller == w.v.e.admin && !w.v.e.paused)
  {
    if id in w.q.cases && w.q.cases[id].status == Disputes.Open {
      Disputes.ForceNeeds(TripleOf(w), w.now, caller, id);
      EscrowLife.SplitSucceedsIff(w.v, caller, id, 5_000);
    }
  }

  /** Cancelling succeeds exactly for the sender of a pending or active delivery who may also have
      the live escrow refunded. */
  lemma CancelSucceedsIff(w: World, sender: Address, id: nat)
    requires Joint(w) && EscrowSolvency.Solvent(w.v)
    ensures Delivery.DoCancel(PairOf(w), sender, id).Ok? <==>
            && id in w.d.records && sender == w.d.records[id].sender
            && w.d.records[id].status in {Delivery.Pending, Delivery.Active}
            && id in w.v.e.records && Escrow.IsLive(w.v.e.records[id].status)
            && sender in {w.v.e.records[id].sender, w.v.e.admin} && !w.v.e.paused
  {
    if id in w.v.e.records {
      EscrowLife.RefundSucceedsIff(w.v, w.fleet, w.now, sender, id);
    }
  }

  /** Confirming succeeds exactly for the recipient of a delivery in transit who is also the
      recipient of a locked escrow. */
  lemma ConfirmSucceedsIff(w: World, recipient: Address, id: nat)
    requires Joint(w)
    ensures Delivery.DoConfirm(PairOf(w), w.now, recipient, id).Ok? <==>
            && id in w.d.records && recipient == w.d.records[id].recipient
            && w.d.records[id].status == Delivery.InTransit
            && id in w.v.e.records && recipient == w.v.e.records[id].recipient
            && w.v.e.records[id].status == Escrow.Locked
  {
    if id in w.d.records {
      assert Delivery.Tied(w.d.records[id], w.v, id);
      assert Delivery.RecordSound(w.d.records[id], w.now);
    }
  }

  /** Each of the three admin resolutions succeeds exactly for a dispute admin who is also the escrow
      admin, on an open case whose escrow is still paused, while the escrow contract is running. */
  lemma AdminResolutionSucceedsIff(w: World, caller: Address, id: nat, senderBps: nat)
    requires Joint(w) && EscrowSolvency.Solvent(w.v)
    ensures var ready := && id in w.q.cases && w.q.cases[id].status == Disputes.Open
                         && caller in w.q.admins && caller == w.v.e.admin && !w.v.e.paused
                         && w.v.e.records[id].status == Escrow.Paused;
            && (Disputes.DoRefundSender(TripleOf(w), w.fleet, w.now, caller, id).Ok? <==> ready)
            && (Disputes.DoPayDriver(TripleOf(w), w.fleet, w.now, caller, id).Ok? <==> ready)
            && (Disputes.DoSplitBetween(TripleOf(w), w.now, caller, id, senderBps).Ok? <==> ready && senderBps <= BPS)
  {
    if id in w.q.cases {
      assert Delivery.RecordSound(w.d.records[id], w.now);
      EscrowLife.PayoutSucceedsIff(w.v, w.fleet, caller, id);
      EscrowLife.RefundSucceedsIff(w.v, w.fleet, w.now, caller, id);
      EscrowLife.SplitSucceedsIff(w.v, caller, id, senderBps);
    }
  }

  /** An open case whose escrow was settled directly is out of every admin's reach: only a party can
      close it, by force, once the window has elapsed. */
  lemma SettledBehindTheCase(w: World, fleet: Fleet.FleetState, caller: Address, id: nat, senderBps: nat)
    requires Joint(w)
    requires id in w.q.cases && w.q.cases[id].status == Disputes.Open && IsTerminal(w.v.e.records[id].status)
    ensures Disputes.DoRefundSender(TripleOf(w), fleet, w.now, caller, id).Err?
    ensures Disputes.DoPayDriver(TripleOf(w), fleet, w.now, caller, id).Err?
    ensures Disputes.DoSplitBetween(TripleOf(w), w.now, caller, id, senderBps).Err?
    ensures Disputes.DoForceResolve(TripleOf(w), w.now, caller, id).Ok? <==>
            && (caller in {w.d.records[id].sender, w.d.records[id].recipient} || w.d.records[id].driver == Some(caller))
            && w.q.cases[id].raisedAt + w.q.resolutionLimit < w.now
  {
    Disputes.AdminsNeedPaused(TripleOf(w), fleet, w.now, caller, id, senderBps);
    Disputes.ForceNeeds(TripleOf(w), w.now, caller, id);
  }

  lemma DirectFreezeIsInert(w: World, caller: Address, id: nat)
    requires GenuineAddress(w.v.e.disputeContract)
    ensures WorldStep(w, OnEscrow(Escrow.FreezeFunds(caller, id))) == w
  {
  }

  lemma RaiseLeavesVault(w: World, caller: Address, id: nat)
    requires Joint(w) && WorldDo(w, OnDispute(Disputes.Raise(caller, id))).Ok?
    ensures WorldDo(w, OnDelivery(Delivery.Dispute(caller, id))).Ok?
    ensures WorldDo(w, OnDispute(Disputes.Raise(caller, id))).value.v == WorldDo(w, OnDelivery(Delivery.Dispute(caller, id))).value.v
  {
    var m := RaiseShape(w, caller, id);
  }

  /** A freeze never does anything: over every run, asking for one directly leaves the world as it
      was, and the one that is part of raising a case leaves the vault as the dispute left it. */
  lemma FreezesNeverMatter(w: World, calls: seq<Call>, caller: Address, id: nat)
    requires InitialWorld(w) && GenuineRun(calls)
    ensures var u := WorldRun(w, calls);
            && WorldStep(u, OnEscrow(Escrow.FreezeFunds(caller, id))) == u
            && (WorldDo(u, OnDispute(Disputes.Raise(caller, id))).Ok? ==>
                  && WorldDo(u, OnDelivery(Delivery.Dispute(caller, id))).Ok?
                  && WorldDo(u, OnDispute(Disputes.Raise(caller, id))).value.v == WorldDo(u, OnDelivery(Delivery.Dispute(caller, id))).value.v)
  {
    var u := WorldRun(w, calls);
    WorldRunJoint(w, calls);
    DirectFreezeIsInert(u, caller, id);
    if WorldDo(u, OnDispute(Disputes.Raise(caller, id))).Ok? {
      RaiseLeavesVault(u, caller, id);
    }
  }

  // ── Solvency of the composition ─────────────────────────────────────────────

  ghost predicate PrudentCall(w: World, call: Call) {
    call.OnEscrow? ==> EscrowSolvency.Prudent(w.v, call.escrow)
  }

  lemma InnerSolvent(w: World, inner: Option<Escrow.EscrowCall>)
    requires Joint(w) && EscrowSolvency.Solvent(w.v)
    requires inner.Some? ==> !inner.value.Sweep?
    ensures EscrowSolvency.Solvent(AfterInner(w, inner).v)
  {
    if inner.Some? {
      EscrowSolvency.EscrowStepSolvent(w.v, Escrow.EscrowTick(w.now, w.fleet, inner.value));
    }
  }

  lemma RaiseSolvent(w: World, caller: Address, id: nat)
    requires Joint(w) && EscrowSolvency.Solvent(w.v) && WorldDo(w, OnDispute(Disputes.Raise(caller, id))).Ok?
    ensures EscrowSolvency.Solvent(WorldDo(w, OnDispute(Disputes.Raise(caller, id))).value.v)
  {
    var m := RaiseShape(w, caller, id);
    DeliveryCallSolvent(w, Delivery.Dispute(caller, id));
  }

  lemma ResolutionSolvent(w: World, c: Disputes.DisputeCall)
    requires Joint(w) && EscrowSolvency.Solvent(w.v) && IsResolution(c) && WorldDo(w, OnDispute(c)).Ok?
    ensures EscrowSolvency.Solvent(WorldStep(w, OnDispute(c)).v)
  {
    ResolutionShape(w, c);
    InnerSolvent(w, ResolvingCall(w, c));
  }

  lemma DisputeCallSolvent(w: World, c: Disputes.DisputeCall)
    requires Joint(w) && EscrowSolvency.Solvent(w.v)
    ensures EscrowSolvency.Solvent(WorldStep(w, OnDispute(c)).v)
  {
    if WorldDo(w, OnDispute(c)).Ok? {
      if c.Raise? {
        RaiseSolvent(w, c.caller, c.id);
      } else if IsResolution(c) {
        ResolutionSolvent(w, c);
      } else {
        OnlyCasesMove(w, c);
      }
    }
  }

  lemma DeliveryCallSolvent(w: World, c: Delivery.DeliveryCall)
    requires Joint(w) && EscrowSolvency.Solvent(w.v)
    ensures EscrowSolvency.Solvent(WorldStep(w, OnDelivery(c)).v)
  {
    if WorldDo(w, OnDelivery(c)).Ok? {
      if c.CreateOne? || c.CreateMany? {
        CreationTies(w, c);
      } else {
        DeliveryCallShape(w, c);
        InnerSolvent(w, InnerCall(c));
      }
    }
  }

  /** A call of the composition keeps a solvent escrow contract solvent exactly if it is not an unsafe
      sweep. */
  lemma WorldStepSolvent(w: World, call: Call)
    requires Joint(w) && EscrowSolvency.Solvent(w.v)
    ensures EscrowSolvency.Solvent(WorldStep(w, call).v) <==> PrudentCall(w, call)
  {
    match call
    case OnEscrow(c) => EscrowSolvency.EscrowStepSolvent(w.v, Escrow.EscrowTick(w.now, w.fleet, c));
    case OnDelivery(c) => DeliveryCallSolvent(w, c);
    case OnDispute(c) => DisputeCallSolvent(w, c);
    case _ =>
  }

  ghost predicate PrudentWorldRun(w: World, calls: seq<Call>) {
    forall k :: 0 <= k < |calls| ==> PrudentCall(WorldRun(w, calls[..k]), calls[k])
  }

  lemma PrudentWorldPrefix(w: World, calls: seq<Call>, n: nat)
    requires PrudentWorldRun(w, calls) && n <= |calls|
    ensures PrudentWorldRun(w, calls[..n])
  {
    var init := calls[..n];
    forall k | 0 <= k < n ensures PrudentCall(WorldRun(w, init[..k]), init[k]) {
      assert init[..k] == calls[..k];
      assert PrudentCall(WorldRun(w, calls[..k]), calls[k]);
    }
  }

  /** Over every prudent run of the composition the contract can pay all it owes. */
  lemma {:induction false} WorldRunSolvent(w: World, calls: seq<Call>)
    requires InitialWorld(w) && GenuineRun(calls) && PrudentWorldRun(w, calls)
    ensures EscrowSolvency.Solvent(WorldRun(w, calls).v)
    decreases |calls|
  {
    if calls == [] {
      EscrowSolvency.InitiallySolvent(w.v);
    } else {
      var init := calls[..|calls| - 1];
      PrudentWorldPrefix(w, calls, |calls| - 1);
      WorldRunSolvent(w, init);
      WorldRunJoint(w, init);
      WorldStepSolvent(WorldRun(w, init), calls[|calls| - 1]);
    }
  }

  ghost predicate AlwaysSolvent(w: World, calls: seq<Call>) {
    forall k :: 0 <= k <= |calls| ==> EscrowSolvency.Solvent(WorldRun(w, calls[..k]).v)
  }

  lemma SolventMomentIsPrudent(w: World, calls: seq<Call>, k: nat)
    requires InitialWorld(w) && GenuineRun(calls) && AlwaysSolvent(w, calls) && k < |calls|
    ensures PrudentCall(WorldRun(w, calls[..k]), calls[k])
  {
    WorldRunJoint(w, calls[..k]);
    PrefixStep(w, calls, k);
    assert EscrowSolvency.Solvent(WorldRun(w, calls[..k]).v) && EscrowSolvency.Solvent(WorldRun(w, calls[..k + 1]).v);
    WorldStepSolvent(WorldRun(w, calls[..k]), calls[k]);
  }

  /** A run of the composition keeps the escrow contract solvent at every moment if and only if each sweep
      it commits is safe when it is made. */
  lemma AlwaysSolventIff(w: World, calls: seq<Call>)
    requires InitialWorld(w) && GenuineRun(calls)
    ensures AlwaysSolvent(w, calls) <==> PrudentWorldRun(w, calls)
  {
    if AlwaysSolvent(w, calls) {
      forall k | 0 <= k < |calls| ensures PrudentCall(WorldRun(w, calls[..k]), calls[k]) {
        SolventMomentIsPrudent(w, calls, k);
      }
    } else if PrudentWorldRun(w, calls) {
      forall k | 0 <= k <= |calls| ensures EscrowSolvency.Solvent(WorldRun(w, calls[..k]).v) {
        PrudentWorldPrefix(w, calls, k);
        WorldRunSolvent(w, calls[..k]);
      }
    }
  }
}

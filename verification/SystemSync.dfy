/** When the delivery contract and the escrow contract agree, in the sense of the delivery contract's
    own report, and which calls of the composition make or break it. */
module SystemSync {
  import opened Prelude
  import opened System
  import opened SystemRuns
  import opened SystemProjections
  import Escrow
  import EscrowLife
  import Delivery
  import Disputes

  /** What the delivery contract reports as synchronised. */
  predicate InSync(d: Delivery.DeliveryStatus, e: Escrow.EscrowStatus) {
    match (d, e)
    case (Pending, Locked) => true
    case (Active, Locked) => true
    case (InTransit, Locked) => true
    case (Delivered, Released) => true
    case (Disputed, Paused) => true
    case (Cancelled, Refunded) => true
    case _ => false
  }

  lemma DisputeSyncs(w: World, caller: Address, id: nat)
    requires Joint(w) && Delivery.DoDispute(PairOf(w), w.now, caller, id).Ok?
    ensures var p := Delivery.DoDispute(PairOf(w), w.now, caller, id).value;
            id in p.d.records && id in p.v.e.records && InSync(p.d.records[id].status, p.v.e.records[id].status)
  {
  }

  lemma ConfirmDesyncs(w: World, recipient: Address, id: nat)
    requires Joint(w) && Delivery.DoConfirm(PairOf(w), w.now, recipient, id).Ok?
    ensures var p := Delivery.DoConfirm(PairOf(w), w.now, recipient, id).value;
            id in p.d.records && id in p.v.e.records && !InSync(p.d.records[id].status, p.v.e.records[id].status)
  {
  }

  lemma CancelSyncs(w: World, sender: Address, id: nat)
    requires Joint(w) && Delivery.DoCancel(PairOf(w), sender, id).Ok?
    ensures var p := Delivery.DoCancel(PairOf(w), sender, id).value;
            id in p.d.records && id in p.v.e.records && InSync(p.d.records[id].status, p.v.e.records[id].status)
  {
  }

  /** Being synchronised is no invariant: cancelling and disputing establish it, but every
      confirmation breaks it. */
  lemma ConfirmationBreaksSync(w: World, c: Delivery.DeliveryCall)
    requires Joint(w) && WorldDo(w, OnDelivery(c)).Ok? && (c.Cancel? || c.Confirm? || c.Dispute?)
    ensures var u := WorldDo(w, OnDelivery(c)).value;
            && c.id in u.d.records && c.id in u.v.e.records
            && (InSync(u.d.records[c.id].status, u.v.e.records[c.id].status) <==> !c.Confirm?)
  {
    match c
    case Cancel(sender, id) => CancelSyncs(w, sender, id);
    case Confirm(recipient, id) => ConfirmDesyncs(w, recipient, id);
    case Dispute(caller, id) => DisputeSyncs(w, caller, id);
    case _ =>
  }

  /** In every state reached, what being synchronised comes to, given how far the delivery got: under
      way, that the escrow is still locked; delivered, that the money neither waits nor went back;
      disputed, that it has not moved yet; cancelled, nothing. */
  lemma SyncByStatus(w: World, id: nat)
    requires Joint(w) && id in w.d.records && id in w.v.e.records
    ensures InSync(w.d.records[id].status, w.v.e.records[id].status) <==>
            match w.d.records[id].status
            case Delivered => w.v.e.records[id].status !in {Escrow.Holdback, Escrow.Refunded}
            case Disputed => !IsTerminal(w.v.e.records[id].status)
            case Cancelled => true
            case _ => w.v.e.records[id].status == Escrow.Locked
  {
    assert Delivery.Tied(w.d.records[id], w.v, id);
  }

  // ── Every call ──────────────────────────────────────────────────────────────

  ghost predicate Synced(w: World, id: nat)
    requires id in w.d.records && id in w.v.e.records
  {
    InSync(w.d.records[id].status, w.v.e.records[id].status)
  }

  /** A committed cancellation or dispute of this delivery. */
  predicate SyncingCall(w: World, call: Call, id: nat) {
    && WorldDo(w, call).Ok?
    && match call
       case OnDelivery(c) => (c.Cancel? || c.Dispute?) && c.id == id
       case OnDispute(c) => c.Raise? && c.id == id
       case _ => false
  }

  /** The committed calls that change the status of an escrow, told from the state before. */
  predicate MovesEscrow(w: World, call: Call, id: nat) {
    && WorldDo(w, call).Ok?
    && match call
       case OnEscrow(c) => EscrowLife.MovesStatus(c, id)
       case OnDelivery(c) => (c.Cancel? || c.Confirm? || c.Dispute?) && c.id == id
       case OnDispute(c) =>
         && (c.Raise? || IsResolution(c)) && c.id == id
         && (c.ForceResolve? ==> id in w.v.e.records && w.v.e.records[id].status == Escrow.Paused)
       case _ => false
  }

  /** The held-back escrow of a delivered delivery is released at last. */
  predicate PaysAtLast(w: World, call: Call, id: nat)
    requires id in w.d.records
  {
    && WorldDo(w, call).Ok? && w.d.records[id].status == Delivery.Delivered
    && call.OnEscrow? && call.escrow.ReleaseHoldback? && call.escrow.id == id
  }

  /** The whole truth about one call and one delivery, told from the state before. */
  ghost predicate SyncRule(w: World, call: Call, u: World, id: nat)
    requires id in w.d.records && id in w.v.e.records
  {
    && id in u.d.records && id in u.v.e.records
    && (Synced(u, id) <==>
        || (Synced(w, id) && !MovesEscrow(w, call, id))
        || SyncingCall(w, call, id)
        || PaysAtLast(w, call, id))
  }

  // ── Which calls move an escrow ──────────────────────────────────────────────

  /** A committed transaction commits the escrow call it contains. */
  lemma DeliveryCommitsInner(w: World, c: Delivery.DeliveryCall)
    requires WorldDo(w, OnDelivery(c)).Ok? && InnerCall(c).Some?
    ensures Escrow.EscrowDo(w.v, w.fleet, w.now, InnerCall(c).value).Ok?
  {
  }

  lemma RaiseCommitsInner(w: World, caller: Address, id: nat)
    requires WorldDo(w, OnDispute(Disputes.Raise(caller, id))).Ok?
    ensures Escrow.EscrowDo(w.v, w.fleet, w.now, Escrow.RaiseDispute(caller, id)).Ok?
  {
    var p, v := Disputes.RaiseOk(TripleOf(w), w.now, caller, id);
  }

  lemma ForceCommitsInner(w: World, c: Disputes.DisputeCall)
    requires c.ForceResolve? && WorldDo(w, OnDispute(c)).Ok? && ResolvingCall(w, c).Some?
    ensures Escrow.EscrowDo(w.v, w.fleet, w.now, ResolvingCall(w, c).value).Ok?
  {
    var v := Disputes.ForceOk(TripleOf(w), w.now, c.caller, c.id);
  }

  lemma RefundCommitsInner(w: World, caller: Address, id: nat)
    requires WorldDo(w, OnDispute(Disputes.RefundSender(caller, id))).Ok?
    ensures Escrow.EscrowDo(w.v, w.fleet, w.now, Escrow.ResolveDispute(caller, id, false)).Ok?
  {
    Disputes.AdminOk(TripleOf(w), w.fleet, w.now, Disputes.RefundSender(caller, id));
  }

  lemma PayoutCommitsInner(w: World, caller: Address, id: nat)
    requires WorldDo(w, OnDispute(Disputes.PayDriver(caller, id))).Ok?
    ensures Escrow.EscrowDo(w.v, w.fleet, w.now, Escrow.ResolveDispute(caller, id, true)).Ok?
  {
    Disputes.AdminOk(TripleOf(w), w.fleet, w.now, Disputes.PayDriver(caller, id));
  }

  lemma SplitCommitsInner(w: World, caller: Address, id: nat, bps: nat)
    requires WorldDo(w, OnDispute(Disputes.SplitBetween(caller, id, bps))).Ok?
    ensures Escrow.EscrowDo(w.v, w.fleet, w.now, Escrow.ResolveSplit(caller, id, bps)).Ok?
  {
    Disputes.AdminOk(TripleOf(w), w.fleet, w.now, Disputes.SplitBetween(caller, id, bps));
  }

  lemma DisputeCommitsInner(w: World, c: Disputes.DisputeCall)
    requires WorldDo(w, OnDispute(c)).Ok? && EscrowPart(w, OnDispute(c)) != []
    ensures Escrow.EscrowDo(w.v, w.fleet, w.now, EscrowPart(w, OnDispute(c))[0].call).Ok?
  {
    match c
    case Raise(caller, id) => RaiseCommitsInner(w, caller, id);
    case RefundSender(caller, id) => RefundCommitsInner(w, caller, id);
    case PayDriver(caller, id) => PayoutCommitsInner(w, caller, id);
    case SplitBetween(caller, id, bps) => SplitCommitsInner(w, caller, id, bps);
    case ForceResolve(_, _) => ForceCommitsInner(w, c);
    case _ =>
  }

  /** A transaction moves an escrow exactly if the escrow call in it does. */
  lemma MovesByPart(w: World, call: Call, id: nat)
    requires id in w.v.e.records
    ensures MovesEscrow(w, call, id) <==>
            var part := EscrowPart(w, call);
            part != [] && EscrowLife.MovesStatus(part[0].call, id) && Escrow.EscrowDo(w.v, w.fleet, w.now, part[0].call).Ok?
  {
    if WorldDo(w, call).Ok? && EscrowPart(w, call) != [] {
      match call
      case OnDelivery(c) => DeliveryCommitsInner(w, c);
      case OnDispute(c) => DisputeCommitsInner(w, c);
      case _ =>
    }
  }

  lemma PartIsNoFreeze(w: World, call: Call)
    requires GenuineAddress(w.v.e.disputeContract) && EscrowPart(w, call) != []
    ensures var t := EscrowPart(w, call)[0];
            && t.now == w.now && t.fleet == w.fleet && EscrowPart(w, call) == [t]
            && (t.call.FreezeFunds? ==> w.v.e.disputeContract != Some(t.call.caller))
  {
  }

  /** The status of an escrow changes exactly by the calls listed. */
  lemma StatusChangesIff(w: World, call: Call, id: nat)
    requires Joint(w) && id in w.v.e.records
    ensures var u := WorldStep(w, call);
            id in u.v.e.records && (u.v.e.records[id].status != w.v.e.records[id].status <==> MovesEscrow(w, call, id))
  {
    StepPart(w, call);
    MovesByPart(w, call, id);
    var part := EscrowPart(w, call);
    if part != [] {
      PartIsNoFreeze(w, call);
      OneTick(w.v, part[0]);
      EscrowLife.StatusMovesIff(w.v, part[0], id);
    }
  }

  lemma HoldbackReleasedBy(v: Escrow.Vault, tick: Escrow.EscrowTick, id: nat)
    requires id in v.e.records && Escrow.IsRelease(tick.call) && tick.call.id == id
    requires Escrow.EscrowDo(v, tick.fleet, tick.now, tick.call).Ok?
    ensures v.e.records[id].status == Escrow.Holdback <==> tick.call.ReleaseHoldback?
  {
  }

  /** A held-back escrow ends up released exactly by a direct release of held-back funds. */
  lemma PaidAtLastIff(w: World, call: Call, id: nat)
    requires Joint(w) && id in w.d.records && id in w.v.e.records && w.d.records[id].status == Delivery.Delivered
    ensures var u := WorldStep(w, call);
            id in u.v.e.records &&
            (w.v.e.records[id].status == Escrow.Holdback && u.v.e.records[id].status == Escrow.Released <==> PaysAtLast(w, call, id))
  {
    var u := WorldStep(w, call);
    StatusChangesIff(w, call, id);
    if w.v.e.records[id].status == Escrow.Holdback && u.v.e.records[id].status == Escrow.Released {
      PaidBy(w, call, id);
    } else if PaysAtLast(w, call, id) {
      Pays(w, call.escrow);
    }
  }

  lemma Pays(w: World, c: Escrow.EscrowCall)
    requires c.ReleaseHoldback? && WorldDo(w, OnEscrow(c)).Ok?
    ensures var u := WorldStep(w, OnEscrow(c)).v;
            && c.id in w.v.e.records && w.v.e.records[c.id].status == Escrow.Holdback
            && c.id in u.e.records && u.e.records[c.id].status == Escrow.Released
  {
    var tick := Escrow.EscrowTick(w.now, w.fleet, c);
    var v, ps := Escrow.ReleaseIsClose(w.v, tick);
    Escrow.CloseKeeps(v, c.id, Escrow.Released, ps);
    HoldbackReleasedBy(w.v, tick, c.id);
  }

  lemma PaidBy(w: World, call: Call, id: nat)
    requires Joint(w) && id in w.d.records && id in w.v.e.records && w.d.records[id].status == Delivery.Delivered
    requires w.v.e.records[id].status == Escrow.Holdback
    requires var u := WorldStep(w, call); id in u.v.e.records && u.v.e.records[id].status == Escrow.Released
    ensures PaysAtLast(w, call, id)
  {
    var part := EscrowPart(w, call);
    StepPart(w, call);
    if part != [] {
      PartIsNoFreeze(w, call);
      OneTick(w.v, part[0]);
      EscrowLife.OnlyReleasesRelease(w.v, part[0], id);
      HoldbackReleasedBy(w.v, part[0], id);
      PartCommits(w, call, part[0]);
      PartReleases(w, call, part[0]);
    }
  }

  // ── What the statuses say ───────────────────────────────────────────────────

  /** The same truth, told from both statuses. */
  ghost predicate SyncByStatuses(w: World, call: Call, u: World, id: nat)
    requires id in w.d.records && id in w.v.e.records
  {
    && id in u.d.records && id in u.v.e.records
    && (Synced(u, id) <==>
        || (Synced(w, id) && u.v.e.records[id].status == w.v.e.records[id].status)
        || SyncingCall(w, call, id)
        || (&& w.d.records[id].status == Delivery.Delivered
            && w.v.e.records[id].status == Escrow.Holdback && u.v.e.records[id].status == Escrow.Released))
  }

  /** Moving the vault alone never brings an escrow back to Locked, so it can only break the agreement,
      or complete a payment. */
  lemma VaultMoves(w: World, call: Call, u: World, id: nat)
    requires Delivery.AllTied(PairOf(w)) && id in w.d.records && id in w.v.e.records
    requires u.d == w.d && AllFollow(w.v, u.v) && !SyncingCall(w, call, id)
    ensures SyncByStatuses(w, call, u, id)
  {
    assert Delivery.Tied(w.d.records[id], w.v, id);
    assert RecordFollows(w.v.e.records[id], u.v.e.records[id]);
  }

  lemma EscrowCallSync(w: World, c: Escrow.EscrowCall, id: nat)
    requires Delivery.AllTied(PairOf(w)) && GenuineAddress(w.v.e.disputeContract)
    requires id in w.d.records && id in w.v.e.records
    ensures SyncByStatuses(w, OnEscrow(c), WorldStep(w, OnEscrow(c)), id)
  {
    var tick := Escrow.EscrowTick(w.now, w.fleet, c);
    if !(c.FreezeFunds? && c.caller == DisputeAddress) {
      EscrowStepFollows(w.v, tick);
      VaultMoves(w, OnEscrow(c), w.(v := Escrow.EscrowStep(w.v, tick)), id);
    }
  }

  /** The escrow call inside a delivery call touches the escrow of that delivery alone. */
  lemma InnerTouchesOne(w: World, c: Delivery.DeliveryCall, id: nat)
    requires InnerCall(c).Some? && id in w.v.e.records && id != c.id
    ensures var u := AfterInner(w, InnerCall(c)); id in u.v.e.records && u.v.e.records[id] == w.v.e.records[id]
  {
    var tick := Escrow.EscrowTick(w.now, w.fleet, InnerCall(c).value);
    if Escrow.EscrowDo(w.v, w.fleet, w.now, tick.call).Ok? {
      if c.Cancel? {
        var u, ps := Escrow.SettlingIsClose(w.v, tick);
        Escrow.CloseKeeps(u, c.id, Escrow.Refunded, ps);
      } else {
        var r := Escrow.StampingIsStore(w.v, tick);
      }
    }
  }

  lemma ElsewhereSync(w: World, call: Call, c: Delivery.DeliveryCall, u: World, id: nat)
    requires !c.CreateOne? && !c.CreateMany? && Shaped(w, c, u) && id != c.id
    requires id in w.d.records && id in w.v.e.records && !SyncingCall(w, call, id)
    ensures SyncByStatuses(w, call, u, id)
  {
    if InnerCall(c).Some? {
      InnerTouchesOne(w, c, id);
    }
  }

  /** Steps of the delivery itself leave a locked escrow locked. */
  lemma LocalSync(w: World, c: Delivery.DeliveryCall)
    requires (c.EditMetadata? || c.Assign? || c.StartTransit?) && WorldDo(w, OnDelivery(c)).Ok?
    requires c.id in w.v.e.records
    ensures c.id in w.d.records && SyncByStatuses(w, OnDelivery(c), WorldStep(w, OnDelivery(c)), c.id)
  {
    Delivery.LocalStepsUnderWay(PairOf(w), w.now, c);
  }

  lemma ConfirmSync(w: World, c: Delivery.DeliveryCall)
    requires Joint(w) && c.Confirm? && WorldDo(w, OnDelivery(c)).Ok? && c.id in w.v.e.records
    ensures c.id in w.d.records && SyncByStatuses(w, OnDelivery(c), WorldStep(w, OnDelivery(c)), c.id)
  {
    ConfirmDesyncs(w, c.recipient, c.id);
    ConfirmSucceedsIff(w, c.recipient, c.id);
  }

  lemma DeliveryCallSync(w: World, c: Delivery.DeliveryCall, id: nat)
    requires Joint(w) && id in w.d.records && id in w.v.e.records
    ensures SyncByStatuses(w, OnDelivery(c), WorldStep(w, OnDelivery(c)), id)
  {
    if WorldDo(w, OnDelivery(c)).Ok? {
      if c.CreateOne? || c.CreateMany? {
        CreationTies(w, c);
      } else {
        DeliveryCallShape(w, c);
        if id != c.id {
          ElsewhereSync(w, OnDelivery(c), c, WorldDo(w, OnDelivery(c)).value, id);
        } else if c.Cancel? || c.Dispute? {
          ConfirmationBreaksSync(w, c);
        } else if c.Confirm? {
          ConfirmSync(w, c);
        } else {
          LocalSync(w, c);
        }
      }
    }
  }

  lemma RaiseSync(w: World, caller: Address, about: nat, id: nat)
    requires Joint(w) && WorldDo(w, OnDispute(Disputes.Raise(caller, about))).Ok?
    requires id in w.d.records && id in w.v.e.records
    ensures SyncByStatuses(w, OnDispute(Disputes.Raise(caller, about)), WorldStep(w, OnDispute(Disputes.Raise(caller, about))), id)
  {
    var m := RaiseShape(w, caller, about);
    var c := Delivery.Dispute(caller, about);
    DeliveryCallShape(w, c);
    if id != about {
      ElsewhereSync(w, OnDispute(Disputes.Raise(caller, about)), c, m, id);
    } else {
      ConfirmationBreaksSync(w, c);
    }
  }

  /** A resolution leaves deliveries alone and moves the vault as an escrow call does. */
  lemma ResolutionMoves(w: World, c: Disputes.DisputeCall)
    requires CasesSound(w) && Delivery.AllTied(PairOf(w)) && IsResolution(c) && WorldDo(w, OnDispute(c)).Ok?
    ensures var u := WorldDo(w, OnDispute(c)).value; u.d == w.d && AllFollow(w.v, u.v)
  {
    ResolutionShape(w, c);
    var inner := ResolvingCall(w, c);
    if inner.Some? {
      EscrowStepFollows(w.v, Escrow.EscrowTick(w.now, w.fleet, inner.value));
    }
  }

  lemma ResolutionSync(w: World, c: Disputes.DisputeCall, id: nat)
    requires CasesSound(w) && Delivery.AllTied(PairOf(w)) && IsResolution(c) && WorldDo(w, OnDispute(c)).Ok?
    requires id in w.d.records && id in w.v.e.records
    ensures SyncByStatuses(w, OnDispute(c), WorldStep(w, OnDispute(c)), id)
  {
    ResolutionMoves(w, c);
    VaultMoves(w, OnDispute(c), WorldDo(w, OnDispute(c)).value, id);
  }

  lemma StatusesDecide(w: World, call: Call, id: nat)
    requires Joint(w) && id in w.d.records && id in w.v.e.records
    ensures SyncByStatuses(w, call, WorldStep(w, call), id)
  {
    match call
    case OnEscrow(c) => EscrowCallSync(w, c, id);
    case OnDelivery(c) => DeliveryCallSync(w, c, id);
    case OnDispute(c) =>
      if WorldDo(w, call).Ok? {
        if c.Raise? {
          RaiseSync(w, c.caller, c.id, id);
        } else if IsResolution(c) {
          ResolutionSync(w, c, id);
        } else {
          OnlyCasesMove(w, c);
        }
      }
    case _ =>
  }

  /** After any call of the composition a delivery is synchronised exactly if it was and the call was none
      of those that move its escrow, if the call cancelled or disputed it, or if the call released its
      held-back escrow after delivery. Every other call that moves the escrow breaks the agreement, and
      nothing else restores it. */
  lemma SyncAfterIff(w: World, call: Call, id: nat)
    requires Joint(w) && id in w.d.records && id in w.v.e.records
    ensures SyncRule(w, call, WorldStep(w, call), id)
  {
    StatusesDecide(w, call, id);
    StatusChangesIff(w, call, id);
    if w.d.records[id].status == Delivery.Delivered {
      PaidAtLastIff(w, call, id);
    }
  }
}

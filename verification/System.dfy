/** The contracts composed: every run mixes delivery, dispute, fleet and direct escrow calls. */
module System {
  import opened Prelude
  import Token
  import Escrow
  import EscrowBooks
  import EscrowLife
  import Delivery
  import Disputes
  import Fleet

  datatype World = World(q: Disputes.DisputeState, d: Delivery.DeliveryState, v: Escrow.Vault, fleet: Fleet.FleetState, now: nat)

  datatype Call =
    | OnEscrow(escrow: Escrow.EscrowCall)
    | OnDelivery(delivery: Delivery.DeliveryCall)
    | OnDispute(dispute: Disputes.DisputeCall)
    | OnFleet(fleet: Fleet.FleetCall)
    | Wait(seconds: nat)

  /** One transaction. The dispute contract signs only inside its own calls, so nobody can freeze
      funds in its name directly. */
  function WorldDo(w: World, call: Call): Result<World> {
    match call
    case OnEscrow(c) =>
      if c.FreezeFunds? && c.caller == DisputeAddress then Err(Unauthorized)
      else
        var v :- Escrow.EscrowDo(w.v, w.fleet, w.now, c);
        Ok(w.(v := v))
    case OnDelivery(c) =>
      var p :- Delivery.DeliveryDo(Delivery.Pair(w.d, w.v), w.now, c);
      Ok(w.(d := p.d, v := p.v))
    case OnDispute(c) =>
      var t :- Disputes.DisputeDo(Disputes.Triple(w.q, w.d, w.v), w.fleet, w.now, c);
      Ok(w.(q := t.q, d := t.d, v := t.v))
    case OnFleet(c) =>
      var f :- Fleet.FleetDo(w.fleet, w.now, c);
      Ok(w.(fleet := f))
    case Wait(seconds) =>
      var now :- AddU64(w.now, seconds);
      Ok(w.(now := now))
  }

  function WorldStep(w: World, call: Call): World {
    WorldDo(w, call).OrElse(w)
  }

  function WorldRun(w: World, calls: seq<Call>): World
    decreases |calls|
  {
    if calls == [] then w else WorldStep(WorldRun(w, calls[..|calls| - 1]), calls[|calls| - 1])
  }

  lemma PrefixStep(w: World, calls: seq<Call>, i: nat)
    requires i < |calls|
    ensures WorldRun(w, calls[..i + 1]) == WorldStep(WorldRun(w, calls[..i]), calls[i])
  {
    assert calls[..i + 1][..i] == calls[..i];
  }

  /** The escrow contract is only ever told the address of the real dispute contract. */
  predicate GenuineAddress(a: Option<Address>) {
    a == None || a == Some(DisputeAddress)
  }

  predicate Genuine(call: Call) {
    call.OnEscrow? && call.escrow.Reconfigure? ==> GenuineAddress(call.escrow.disputeContract)
  }

  ghost predicate GenuineRun(calls: seq<Call>) {
    forall k :: 0 <= k < |calls| ==> Genuine(calls[k])
  }

  ghost predicate InitialWorld(w: World) {
    && Escrow.Initial(w.v) && GenuineAddress(w.v.e.disputeContract)
    && w.d.counter == 0 && w.d.records == map[] && w.d.index == map[]
    && w.q.cases == map[] && w.q.forced == {}
    && w.fleet == Fleet.EmptyFleets(w.fleet.admin)
    && w.now <= U64_MAX
  }

  // ── The joint invariant ─────────────────────────────────────────────────────

  function PairOf(w: World): Delivery.Pair { Delivery.Pair(w.d, w.v) }

  function TripleOf(w: World): Disputes.Triple { Disputes.Triple(w.q, w.d, w.v) }

  predicate IsTerminal(s: Escrow.EscrowStatus) {
    s == Escrow.Released || s == Escrow.Refunded || s == Escrow.Split
  }

  /** What a case's outcome says about the escrow of the same id. */
  ghost predicate CaseTied(c: Disputes.DisputeCase, forced: bool, v: Escrow.Vault, id: nat) {
    && id in v.e.records && c.id == id
    && (c.status == Disputes.Open <==> c.resolvedAt == None)
    && (c.status == Disputes.ResolvedRefund ==> v.e.records[id].status == Escrow.Refunded)
    && (c.status == Disputes.ResolvedPayout ==> v.e.records[id].status == Escrow.Released)
    && (c.status == Disputes.SplitFunds ==> IsTerminal(v.e.records[id].status))
    && (c.status == Disputes.SplitFunds && !forced ==> v.e.records[id].status == Escrow.Split)
    && (forced ==> c.status == Disputes.SplitFunds)
  }

  /** Every case is about a disputed delivery, and agrees with its escrow. */
  ghost predicate CasesSound(w: World) {
    && (forall id :: id in w.q.forced ==> id in w.q.cases)
    && (forall id :: id in w.q.cases ==>
                       && id in w.d.records && w.d.records[id].status == Delivery.Disputed
                       && CaseTied(w.q.cases[id], id in w.q.forced, w.v, id))
  }

  ghost predicate Joint(w: World) {
    && EscrowBooks.Books(w.v)
    && GenuineAddress(w.v.e.disputeContract)
    && Fleet.FleetInv(w.fleet)
    && Delivery.DeliveryInv(w.d, w.now)
    && Delivery.AllTied(PairOf(w))
    && CasesSound(w)
    && w.now <= U64_MAX
  }

  // ── How an escrow's status can move when nobody freezes it ──────────────────

  predicate Follows(s: Escrow.EscrowStatus, t: Escrow.EscrowStatus) {
    || t == s
    || s == Escrow.Locked
    || (s == Escrow.Holdback && t in {Escrow.Released, Escrow.Refunded})
    || (s == Escrow.Paused && t in {Escrow.Released, Escrow.Refunded, Escrow.Split})
  }

  /** One escrow before and after: its recipient is fixed, and so is who disputed it once it left Locked. */
  predicate RecordFollows(r: Escrow.EscrowRecord, s: Escrow.EscrowRecord) {
    && Follows(r.status, s.status) && s.recipient == r.recipient
    && (r.status != Escrow.Locked ==> s.disputedBy == r.disputedBy)
  }

  ghost predicate AllFollow(v: Escrow.Vault, u: Escrow.Vault) {
    forall id :: id in v.e.records ==> id in u.e.records && RecordFollows(v.e.records[id], u.e.records[id])
  }

  lemma CloseFollows(v: Escrow.Vault, id: nat, status: Escrow.EscrowStatus, ps: seq<Token.Payment>)
    requires id in v.e.records && Follows(v.e.records[id].status, status)
    ensures AllFollow(v, Escrow.Close(v, id, status, ps).OrElse(v))
    ensures Escrow.Close(v, id, status, ps).OrElse(v).e.disputeContract == v.e.disputeContract
  {
    if Escrow.Close(v, id, status, ps).Ok? {
      Escrow.CloseKeeps(v, id, status, ps);
    }
  }

  lemma SettlingFollows(v: Escrow.Vault, tick: Escrow.EscrowTick)
    requires Escrow.IsSettling(tick.call) && Escrow.EscrowDo(v, tick.fleet, tick.now, tick.call).Ok?
    ensures AllFollow(v, Escrow.EscrowStep(v, tick))
    ensures Escrow.EscrowStep(v, tick).e.disputeContract == v.e.disputeContract
  {
    SettlingFrom(v, tick);
    var u, ps := Escrow.SettlingIsClose(v, tick);
    CloseFollows(u, tick.call.id, Escrow.FinalStatus(tick.call), ps);
  }

  /** Only a paused escrow is ever split. */
  lemma SettlingFrom(v: Escrow.Vault, tick: Escrow.EscrowTick)
    requires Escrow.IsSettling(tick.call) && Escrow.EscrowDo(v, tick.fleet, tick.now, tick.call).Ok?
    ensures tick.call.id in v.e.records && Follows(v.e.records[tick.call.id].status, Escrow.FinalStatus(tick.call))
  {
  }

  lemma StampingFollows(v: Escrow.Vault, tick: Escrow.EscrowTick)
    requires Escrow.IsStamping(tick.call)
    requires tick.call.FreezeFunds? ==> v.e.disputeContract != Some(tick.call.caller)
    ensures AllFollow(v, Escrow.EscrowStep(v, tick))
    ensures Escrow.EscrowStep(v, tick).e.disputeContract == v.e.disputeContract
  {
  }

  /** Every escrow call but a freeze by the dispute contract moves statuses along this relation. */
  lemma EscrowStepFollows(v: Escrow.Vault, tick: Escrow.EscrowTick)
    requires tick.call.FreezeFunds? ==> v.e.disputeContract != Some(tick.call.caller)
    ensures AllFollow(v, Escrow.EscrowStep(v, tick))
    ensures Escrow.EscrowStep(v, tick).e.disputeContract ==
            if tick.call.Reconfigure? then tick.call.disputeContract else v.e.disputeContract
  {
    if Escrow.IsStamping(tick.call) {
      StampingFollows(v, tick);
    } else if !Escrow.IsSettling(tick.call) && !Escrow.IsFunding(tick.call) {
      Escrow.OthersKeepRecords(v, tick);
    } else if Escrow.EscrowDo(v, tick.fleet, tick.now, tick.call).Ok? {
      if Escrow.IsFunding(tick.call) {
        EscrowLife.FundingExtends(v, tick);
      } else {
        SettlingFollows(v, tick);
      }
    }
  }

  /** The ties of deliveries and cases survive any movement along the relation. */
  lemma TiesFollow(w: World, u: Escrow.Vault)
    requires Delivery.AllTied(PairOf(w)) && CasesSound(w) && AllFollow(w.v, u)
    ensures Delivery.AllTied(PairOf(w.(v := u))) && CasesSound(w.(v := u))
  {
    forall id | id in w.d.records ensures Delivery.Tied(w.d.records[id], u, id) {
      assert Delivery.Tied(w.d.records[id], w.v, id);
    }
  }

  /** What every escrow step keeps of the world around it. */
  lemma VaultStepJoint(w: World, tick: Escrow.EscrowTick)
    requires Joint(w)
    requires tick.call.FreezeFunds? ==> tick.call.caller != DisputeAddress
    requires tick.call.Reconfigure? ==> GenuineAddress(tick.call.disputeContract)
    ensures Joint(w.(v := Escrow.EscrowStep(w.v, tick)))
  {
    EscrowBooks.EscrowStepBooks(w.v, tick);
    EscrowStepFollows(w.v, tick);
    TiesFollow(w, Escrow.EscrowStep(w.v, tick));
  }

  // ── Delivery calls ──────────────────────────────────────────────────────────

  /** The escrow call a delivery call makes, if any. */
  function InnerCall(c: Delivery.DeliveryCall): Option<Escrow.EscrowCall> {
    match c
    case Cancel(sender, id) => Some(Escrow.Refund(sender, id))
    case Confirm(recipient, id) => Some(Escrow.MarkHoldback(recipient, id))
    case Dispute(caller, id) => Some(Escrow.RaiseDispute(caller, id))
    case _ => None
  }

  function AfterInner(w: World, inner: Option<Escrow.EscrowCall>): World {
    match inner
    case None => w
    case Some(c) => w.(v := Escrow.EscrowStep(w.v, Escrow.EscrowTick(w.now, w.fleet, c)))
  }

  lemma InnerJoint(w: World, c: Delivery.DeliveryCall)
    requires Joint(w)
    ensures Joint(AfterInner(w, InnerCall(c)))
  {
    if InnerCall(c).Some? {
      VaultStepJoint(w, Escrow.EscrowTick(w.now, w.fleet, InnerCall(c).value));
    }
  }

  /** One delivery record changed, after the call's escrow call: its new status is tied to the
      escrow, and its old one was not settled one way or another. */
  ghost predicate Shaped(w: World, c: Delivery.DeliveryCall, u: World)
    requires !c.CreateOne? && !c.CreateMany?
  {
    && u == AfterInner(w, InnerCall(c)).(d := u.d)
    && c.id in w.d.records && c.id in u.d.records && u.d == Delivery.Store(w.d, c.id, u.d.records[c.id])
    && w.d.records[c.id].status !in {Delivery.Delivered, Delivery.Disputed, Delivery.Cancelled}
    && Delivery.Tied(u.d.records[c.id], u.v, c.id)
  }

  lemma CancelShape(w: World, c: Delivery.DeliveryCall)
    requires c.Cancel? && WorldDo(w, OnDelivery(c)).Ok?
    ensures Shaped(w, c, WorldDo(w, OnDelivery(c)).value)
  {
  }

  lemma ConfirmShape(w: World, c: Delivery.DeliveryCall)
    requires Delivery.AllTied(PairOf(w)) && c.Confirm? && WorldDo(w, OnDelivery(c)).Ok?
    ensures Shaped(w, c, WorldDo(w, OnDelivery(c)).value)
  {
    assert Delivery.Tied(w.d.records[c.id], w.v, c.id);
  }

  lemma DisputeShape(w: World, c: Delivery.DeliveryCall)
    requires Delivery.AllTied(PairOf(w)) && c.Dispute? && WorldDo(w, OnDelivery(c)).Ok?
    ensures Shaped(w, c, WorldDo(w, OnDelivery(c)).value)
  {
    assert Delivery.Tied(w.d.records[c.id], w.v, c.id);
  }

  lemma LocalShape(w: World, c: Delivery.DeliveryCall)
    requires (c.EditMetadata? || c.Assign? || c.StartTransit?) && WorldDo(w, OnDelivery(c)).Ok?
    ensures Shaped(w, c, WorldDo(w, OnDelivery(c)).value)
  {
  }

  lemma DeliveryCallShape(w: World, c: Delivery.DeliveryCall)
    requires Delivery.AllTied(PairOf(w)) && WorldDo(w, OnDelivery(c)).Ok?
    requires !c.CreateOne? && !c.CreateMany?
    ensures Shaped(w, c, WorldDo(w, OnDelivery(c)).value)
  {
    match c
    case Cancel(_, _) => CancelShape(w, c);
    case Confirm(_, _) => ConfirmShape(w, c);
    case Dispute(_, _) => DisputeShape(w, c);
    case _ => LocalShape(w, c);
  }

  /** A call on one delivery ties the new status to the escrow and leaves the others' ties alone. */
  lemma ShapedTies(w: World, c: Delivery.DeliveryCall, u: World)
    requires !c.CreateOne? && !c.CreateMany? && Shaped(w, c, u) && Joint(AfterInner(w, InnerCall(c)))
    ensures Delivery.AllTied(PairOf(u)) && CasesSound(u) && EscrowBooks.Books(u.v)
  {
    var m := AfterInner(w, InnerCall(c));
    forall id | id in u.d.records ensures Delivery.Tied(u.d.records[id], u.v, id) {
      if id != c.id {
        assert Delivery.Tied(m.d.records[id], m.v, id);
      }
    }
  }

  lemma DeliveryCallJoint(w: World, c: Delivery.DeliveryCall)
    requires Joint(w)
    ensures Joint(WorldStep(w, OnDelivery(c)))
  {
    if WorldDo(w, OnDelivery(c)).Ok? {
      Delivery.DeliveryStepInv(PairOf(w), w.now, c);
      if c.CreateOne? || c.CreateMany? {
        CreationTies(w, c);
      } else {
        InnerJoint(w, c);
        DeliveryCallShape(w, c);
        ShapedTies(w, c, WorldDo(w, OnDelivery(c)).value);
      }
    }
  }

  lemma {:induction false} AddAllKeepsOld(d: Delivery.DeliveryState, now: nat, sender: Address, recipient: Address, list: seq<Delivery.Metadata>)
    requires Delivery.Dense(d) && Delivery.AddAll(d, now, sender, recipient, list).Ok?
    ensures var e := Delivery.AddAll(d, now, sender, recipient, list).value;
            && Delivery.Dense(e) && d.counter <= e.counter
            && (forall id :: id in d.records ==> id in e.records && e.records[id] == d.records[id])
            && (forall id :: id in e.records && id !in d.records ==> e.records[id].status == Delivery.Pending)
    decreases |list|
  {
    if list != [] {
      AddAllKeepsOld(d, now, sender, recipient, list[..|list| - 1]);
    }
  }

  /** Creating deliveries touches no existing one, and new ones are tied to nothing yet. */
  lemma CreationTies(w: World, c: Delivery.DeliveryCall)
    requires Joint(w) && (c.CreateOne? || c.CreateMany?) && WorldDo(w, OnDelivery(c)).Ok?
    ensures var u := WorldDo(w, OnDelivery(c)).value;
            && u == w.(d := u.d)
            && (forall id :: id in w.d.records ==> id in u.d.records && u.d.records[id] == w.d.records[id])
            && Delivery.AllTied(PairOf(u)) && CasesSound(u)
  {
    var u := WorldDo(w, OnDelivery(c)).value;
    if c.CreateMany? {
      AddAllKeepsOld(w.d, w.now, c.sender, c.recipient, c.list);
    }
    forall id | id in u.d.records ensures Delivery.Tied(u.d.records[id], u.v, id) {
      if id in w.d.records {
        assert Delivery.Tied(w.d.records[id], w.v, id);
      }
    }
  }

  // ── Dispute calls ───────────────────────────────────────────────────────────

  /** When a case is raised the escrow is already paused: freezing it changes nothing. */
  lemma FreezeChangesNothing(w: World, caller: Address, id: nat)
    requires Joint(w) && Delivery.DoDispute(PairOf(w), w.now, caller, id).Ok?
    ensures var v := Delivery.DoDispute(PairOf(w), w.now, caller, id).value.v;
            && id in v.e.records && v.e.records[id].status == Escrow.Paused
            && Escrow.DoFreezeFunds(v, w.now, DisputeAddress, id).OrElse(v) == v
            && (Escrow.DoFreezeFunds(v, w.now, DisputeAddress, id).Ok? <==> w.v.e.disputeContract.Some?)
  {
  }

  /** Raising a case is disputing the delivery and opening a fresh case, nothing else. */
  lemma RaiseShape(w: World, caller: Address, id: nat) returns (m: World)
    requires Joint(w) && WorldDo(w, OnDispute(Disputes.Raise(caller, id))).Ok?
    ensures WorldDo(w, OnDelivery(Delivery.Dispute(caller, id))) == Ok(m)
    ensures m.q == w.q && m.now == w.now && id !in m.q.cases
    ensures id in m.d.records && m.d.records[id].status == Delivery.Disputed && id in m.v.e.records
    ensures WorldDo(w, OnDispute(Disputes.Raise(caller, id))).value
         == m.(q := m.q.(cases := m.q.cases[id := Disputes.NewCase(id, m.now, caller)]))
  {
    var p, v := Disputes.RaiseOk(TripleOf(w), w.now, caller, id);
    FreezeChangesNothing(w, caller, id);
    m := w.(d := p.d, v := p.v);
  }

  lemma OpenedJoint(m: World, id: nat, caller: Address)
    requires Joint(m) && id !in m.q.cases
    requires id in m.d.records && m.d.records[id].status == Delivery.Disputed && id in m.v.e.records
    ensures Joint(m.(q := m.q.(cases := m.q.cases[id := Disputes.NewCase(id, m.now, caller)])))
  {
  }

  lemma RaiseJoint(w: World, caller: Address, id: nat)
    requires Joint(w) && WorldDo(w, OnDispute(Disputes.Raise(caller, id))).Ok?
    ensures Joint(WorldDo(w, OnDispute(Disputes.Raise(caller, id))).value)
  {
    var m := RaiseShape(w, caller, id);
    DeliveryCallJoint(w, Delivery.Dispute(caller, id));
    OpenedJoint(m, id, caller);
  }

  /** The escrow call a resolution makes, if any. */
  function ResolvingCall(w: World, c: Disputes.DisputeCall): Option<Escrow.EscrowCall> {
    match c
    case RefundSender(caller, id) => Some(Escrow.ResolveDispute(caller, id, false))
    case PayDriver(caller, id) => Some(Escrow.ResolveDispute(caller, id, true))
    case SplitBetween(caller, id, bps) => Some(Escrow.ResolveSplit(caller, id, bps))
    case ForceResolve(caller, id) =>
      if id in w.v.e.records && w.v.e.records[id].status == Escrow.Paused
      then Some(Escrow.ResolveSplit(caller, id, Disputes.DEFAULT_SENDER_SHARE_BPS)) else None
    case _ => None
  }

  predicate IsResolution(c: Disputes.DisputeCall) {
    c.RefundSender? || c.PayDriver? || c.SplitBetween? || c.ForceResolve?
  }

  /** A resolution is its escrow call followed by closing an open case, with the outcome's tie. */
  ghost predicate Resolved(w: World, c: Disputes.DisputeCall, u: World)
    requires IsResolution(c)
  {
    && u == AfterInner(w, ResolvingCall(w, c)).(q := u.q)
    && c.id in w.q.cases && w.q.cases[c.id].status == Disputes.Open
    && c.id in u.q.cases
    && u.q == w.q.(cases := w.q.cases[c.id := u.q.cases[c.id]], forced := if c.ForceResolve? then w.q.forced + {c.id} else w.q.forced)
    && u.q.cases[c.id].id == c.id && u.q.cases[c.id].resolvedAt == Some(w.now) && u.q.cases[c.id].status != Disputes.Open
    && c.id in u.v.e.records
    && match u.q.cases[c.id].status
       case ResolvedRefund => !c.ForceResolve? && u.v.e.records[c.id].status == Escrow.Refunded
       case ResolvedPayout => !c.ForceResolve? && u.v.e.records[c.id].status == Escrow.Released
       case SplitFunds => if c.ForceResolve? then IsTerminal(u.v.e.records[c.id].status) else u.v.e.records[c.id].status == Escrow.Split
       case Open => false
  }

  lemma RefundResolved(w: World, c: Disputes.DisputeCall)
    requires CasesSound(w) && c.RefundSender? && WorldDo(w, OnDispute(c)).Ok?
    ensures Resolved(w, c, WorldDo(w, OnDispute(c)).value)
  {
  }

  lemma PayoutResolved(w: World, c: Disputes.DisputeCall)
    requires CasesSound(w) && c.PayDriver? && WorldDo(w, OnDispute(c)).Ok?
    ensures Resolved(w, c, WorldDo(w, OnDispute(c)).value)
  {
  }

  lemma SplitResolved(w: World, c: Disputes.DisputeCall)
    requires CasesSound(w) && c.SplitBetween? && WorldDo(w, OnDispute(c)).Ok?
    ensures Resolved(w, c, WorldDo(w, OnDispute(c)).value)
  {
  }

  /** A forced resolution finds the escrow paused, and splits it, or settled already. */
  lemma ForceResolved(w: World, c: Disputes.DisputeCall)
    requires CasesSound(w) && Delivery.AllTied(PairOf(w)) && c.ForceResolve? && WorldDo(w, OnDispute(c)).Ok?
    ensures Resolved(w, c, WorldDo(w, OnDispute(c)).value)
  {
    var v := Disputes.ForceOk(TripleOf(w), w.now, c.caller, c.id);
    assert Delivery.Tied(w.d.records[c.id], w.v, c.id);
  }

  lemma ResolutionShape(w: World, c: Disputes.DisputeCall)
    requires CasesSound(w) && Delivery.AllTied(PairOf(w)) && IsResolution(c) && WorldDo(w, OnDispute(c)).Ok?
    ensures Resolved(w, c, WorldDo(w, OnDispute(c)).value)
  {
    match c
    case RefundSender(_, _) => RefundResolved(w, c);
    case PayDriver(_, _) => PayoutResolved(w, c);
    case SplitBetween(_, _, _) => SplitResolved(w, c);
    case ForceResolve(_, _) => ForceResolved(w, c);
  }

  lemma ResolutionJoint(w: World, c: Disputes.DisputeCall)
    requires Joint(w) && IsResolution(c) && WorldDo(w, OnDispute(c)).Ok?
    ensures Joint(WorldDo(w, OnDispute(c)).value)
  {
    ResolutionShape(w, c);
    var inner := ResolvingCall(w, c);
    if inner.Some? {
      VaultStepJoint(w, Escrow.EscrowTick(w.now, w.fleet, inner.value));
    }
    CaseClosed(w, c, WorldDo(w, OnDispute(c)).value);
  }

  lemma CaseClosed(w: World, c: Disputes.DisputeCall, u: World)
    requires IsResolution(c) && Resolved(w, c, u) && CasesSound(AfterInner(w, ResolvingCall(w, c)))
    ensures CasesSound(u)
  {
    var m := AfterInner(w, ResolvingCall(w, c));
    assert m.q == w.q && m.d == w.d && u.v == m.v && u.d == m.d;
    forall id | id in u.q.cases ensures id in u.d.records && u.d.records[id].status == Delivery.Disputed
                                        && CaseTied(u.q.cases[id], id in u.q.forced, u.v, id) {
      assert id in m.q.cases;
    }
  }

  lemma OnlyCasesMove(w: World, c: Disputes.DisputeCall)
    requires !c.Raise? && !IsResolution(c)
    ensures WorldStep(w, OnDispute(c)).d == w.d && WorldStep(w, OnDispute(c)).v == w.v
  {
  }

  lemma EvidenceJoint(w: World, c: Disputes.DisputeCall)
    requires CasesSound(w) && c.AddEvidence?
    ensures var u := WorldStep(w, OnDispute(c)); u == w.(q := u.q) && CasesSound(u)
  {
  }

  lemma DisputeCallJoint(w: World, c: Disputes.DisputeCall)
    requires Joint(w)
    ensures Joint(WorldStep(w, OnDispute(c)))
  {
    if WorldDo(w, OnDispute(c)).Ok? {
      if c.Raise? {
        RaiseJoint(w, c.caller, c.id);
      } else if IsResolution(c) {
        ResolutionJoint(w, c);
      } else if c.AddEvidence? {
        EvidenceJoint(w, c);
      }
    }
  }

  // ── Every call, every run ───────────────────────────────────────────────────

  /** Every transaction keeps the joint invariant. */
  lemma WorldStepJoint(w: World, call: Call)
    requires Joint(w) && Genuine(call)
    ensures Joint(WorldStep(w, call))
  {
    match call
    case OnEscrow(c) =>
      if !(c.FreezeFunds? && c.caller == DisputeAddress) {
        VaultStepJoint(w, Escrow.EscrowTick(w.now, w.fleet, c));
      }
    case OnDelivery(c) => DeliveryCallJoint(w, c);
    case OnDispute(c) => DisputeCallJoint(w, c);
    case OnFleet(c) => Fleet.FleetStepInv(w.fleet, w.now, c);
    case Wait(seconds) =>
      if AddU64(w.now, seconds).Ok? {
        Delivery.LaterStillInv(w.d, w.now, w.now + seconds);
      }
  }

  lemma InitiallyJoint(w: World)
    requires InitialWorld(w)
    ensures Joint(w)
  {
    EscrowBooks.EscrowRunBooks(w.v, []);
  }

  /** The joint invariant holds in every reachable world: cancelled deliveries are refunded,
      delivered ones held back or settled for good, disputed ones paused or settled, and every case
      agrees with its escrow. */
  lemma {:induction false} WorldRunJoint(w: World, calls: seq<Call>)
    requires InitialWorld(w) && GenuineRun(calls)
    ensures Joint(WorldRun(w, calls))
    decreases |calls|
  {
    if calls == [] {
      InitiallyJoint(w);
    } else {
      WorldRunJoint(w, calls[..|calls| - 1]);
      WorldStepJoint(WorldRun(w, calls[..|calls| - 1]), calls[|calls| - 1]);
    }
  }
}

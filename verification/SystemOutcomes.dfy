/** What the composition makes of the money of every escrow: which transaction decides, who receives what,
    and where the share of a driver goes. */
module SystemOutcomes {
  import opened Prelude
  import opened System
  import opened SystemRuns
  import opened SystemProjections
  import Token
  import Escrow
  import EscrowBooks
  import EscrowLife
  import EscrowOutcomes
  import Delivery
  import Disputes
  import Fees
  import SystemSync

  // ── Who decides ─────────────────────────────────────────────────────────────

  /** The transactions that decide the outcome of escrow id: direct calls, a cancellation, and the four
      resolutions of a case, a forced one dividing the money in half. */
  predicate Decides(call: Call, id: nat, o: EscrowOutcomes.Outcome) {
    match call
    case OnEscrow(c) => EscrowOutcomes.Decides(c, id, o)
    case OnDelivery(c) => c.Cancel? && c.id == id && o == EscrowOutcomes.Returned
    case OnDispute(c) =>
      (match c
       case RefundSender(_, i) => i == id && o == EscrowOutcomes.Returned
       case PayDriver(_, i) => i == id && o == EscrowOutcomes.PaidOut
       case SplitBetween(_, i, bps) => i == id && o == EscrowOutcomes.Divided(bps)
       case ForceResolve(_, i) => i == id && o == EscrowOutcomes.Divided(5_000)
       case _ => false)
    case _ => false
  }

  /** The transaction goes through, and decides; a forced resolution only while the escrow is paused. */
  predicate Decisive(w: World, call: Call, id: nat, o: EscrowOutcomes.Outcome) {
    && WorldDo(w, call).Ok? && Decides(call, id, o)
    && (call.OnDispute? && call.dispute.ForceResolve? ==>
          id in w.v.e.records && w.v.e.records[id].status == Escrow.Paused)
  }

  /** The escrow call in a decisive transaction, and nothing but that, decides. */
  lemma PartDecides(w: World, call: Call, id: nat, o: EscrowOutcomes.Outcome)
    requires Decisive(w, call, id, o)
    ensures var part := EscrowPart(w, call);
            && |part| == 1 && part[0].now == w.now && part[0].fleet == w.fleet
            && EscrowOutcomes.Decides(part[0].call, id, o)
            && Escrow.EscrowDo(w.v, w.fleet, w.now, part[0].call).Ok?
  {
    match call
    case OnDelivery(c) => SystemSync.DeliveryCommitsInner(w, c);
    case OnDispute(c) => SystemSync.DisputeCommitsInner(w, c);
    case _ =>
  }

  lemma PartIsDecisive(w: World, call: Call, tick: Escrow.EscrowTick, id: nat, o: EscrowOutcomes.Outcome)
    requires EscrowPart(w, call) == [tick] && EscrowOutcomes.Decides(tick.call, id, o)
    requires Escrow.EscrowDo(w.v, tick.fleet, tick.now, tick.call).Ok?
    ensures Decisive(w, call, id, o)
  {
    PartCommits(w, call, tick);
  }

  /** A decisive transaction gives everybody exactly what is due to them. */
  lemma DecisionSettles(w: World, call: Call, id: nat, o: EscrowOutcomes.Outcome)
    requires Joint(w) && Decisive(w, call, id, o)
    ensures EscrowOutcomes.Settles(w.v, w.fleet, id, o, WorldStep(w, call).v)
  {
    PartDecides(w, call, id, o);
    var tick := EscrowPart(w, call)[0];
    StepPart(w, call);
    assert EscrowPart(w, call) == [tick];
    OneTick(w.v, tick);
    EscrowOutcomes.DecisionSettles(w.v, tick, id, o);
  }

  /** Nothing else closes an escrow. */
  lemma ClosingDecides(w: World, call: Call, id: nat) returns (o: EscrowOutcomes.Outcome)
    requires Joint(w)
    requires EscrowOutcomes.IsClosed(WorldStep(w, call).v, id) && !EscrowOutcomes.IsClosed(w.v, id)
    ensures Decisive(w, call, id, o)
  {
    StepPart(w, call);
    OneTick(w.v, Escrow.EscrowTick(w.now, w.fleet, Escrow.ReclaimExpired(id)));
    var tick := EscrowPart(w, call)[0];
    assert EscrowPart(w, call) == [tick];
    OneTick(w.v, tick);
    o := EscrowOutcomes.ClosingDecides(w.v, tick, id);
    PartIsDecisive(w, call, tick, id, o);
  }

  // ── Over whole runs ─────────────────────────────────────────────────────────

  lemma {:induction false} ClosedStays(w: World, calls: seq<Call>, k: nat, id: nat)
    requires InitialWorld(w) && GenuineRun(calls) && k <= |calls|
    requires EscrowOutcomes.IsClosed(WorldRun(w, calls[..k]).v, id) && id in WorldRun(w, calls[..k]).v.audit.paid
    ensures EscrowOutcomes.SameEscrow(WorldRun(w, calls[..k]).v, WorldRun(w, calls).v, id)
    decreases |calls|
  {
    if k == |calls| {
      assert calls[..k] == calls;
    } else {
      var init := calls[..|calls| - 1];
      assert init[..k] == calls[..k];
      ClosedStays(w, init, k, id);
      WorldRunJoint(w, init);
      StepEvolves(WorldRun(w, init), calls[|calls| - 1]);
      assert EscrowLife.Moves(WorldRun(w, init).v, WorldRun(w, calls).v, id);
    }
  }

  ghost predicate DecidedBy(w: World, calls: seq<Call>, k: nat, id: nat, o: EscrowOutcomes.Outcome) {
    k < |calls| && Decisive(WorldRun(w, calls[..k]), calls[k], id, o)
  }

  /** Transaction k settled the escrow in this way, and since then nothing about it has changed. */
  ghost predicate SettledBy(w: World, calls: seq<Call>, k: nat, id: nat, o: EscrowOutcomes.Outcome) {
    && DecidedBy(w, calls, k, id, o)
    && EscrowOutcomes.Settles(WorldRun(w, calls[..k]).v, WorldRun(w, calls[..k]).fleet, id, o, WorldRun(w, calls[..k + 1]).v)
    && EscrowOutcomes.SameEscrow(WorldRun(w, calls[..k + 1]).v, WorldRun(w, calls).v, id)
  }

  lemma SettledThen(w: World, calls: seq<Call>, k: nat, id: nat, o: EscrowOutcomes.Outcome)
    requires InitialWorld(w) && GenuineRun(calls) && DecidedBy(w, calls, k, id, o)
    ensures EscrowOutcomes.Settles(WorldRun(w, calls[..k]).v, WorldRun(w, calls[..k]).fleet, id, o, WorldRun(w, calls[..k + 1]).v)
  {
    WorldRunJoint(w, calls[..k]);
    DecisionSettles(WorldRun(w, calls[..k]), calls[k], id, o);
    PrefixStep(w, calls, k);
  }

  /** A committed decision is final. */
  lemma DecidedIsSettled(w: World, calls: seq<Call>, k: nat, id: nat, o: EscrowOutcomes.Outcome)
    requires InitialWorld(w) && GenuineRun(calls) && DecidedBy(w, calls, k, id, o)
    ensures SettledBy(w, calls, k, id, o)
    ensures var v := WorldRun(w, calls).v; id in v.e.records && v.e.records[id].status == EscrowOutcomes.StatusOf(o)
  {
    SettledThen(w, calls, k, id, o);
    EscrowOutcomes.SettledIsClosed(WorldRun(w, calls[..k]).v, WorldRun(w, calls[..k]).fleet, id, o, WorldRun(w, calls[..k + 1]).v);
    ClosedStays(w, calls, k + 1, id);
  }

  /** What has been decided cannot be decided again, by whatever contract. */
  lemma NoSecondDecision(w: World, calls: seq<Call>, i: nat, k: nat, id: nat, o: EscrowOutcomes.Outcome, p: EscrowOutcomes.Outcome)
    requires InitialWorld(w) && GenuineRun(calls) && i < k && DecidedBy(w, calls, i, id, o)
    ensures !DecidedBy(w, calls, k, id, p)
  {
    if DecidedBy(w, calls, k, id, p) {
      var before := calls[..k];
      assert before[..i] == calls[..i] && before[i] == calls[i];
      DecidedIsSettled(w, before, i, id, o);
      SettledThen(w, calls, k, id, p);
    }
  }

  /** A closed escrow was closed by one of the transactions of the run. */
  lemma {:induction false} SettlementOrigin(w: World, calls: seq<Call>, id: nat) returns (k: nat, o: EscrowOutcomes.Outcome)
    requires InitialWorld(w) && GenuineRun(calls) && EscrowOutcomes.IsClosed(WorldRun(w, calls).v, id)
    ensures SettledBy(w, calls, k, id, o)
    decreases |calls|
  {
    assert calls != [];
    var init := calls[..|calls| - 1];
    if EscrowOutcomes.IsClosed(WorldRun(w, init).v, id) {
      k, o := SettlementOrigin(w, init, id);
      assert init[..k] == calls[..k] && init[k] == calls[k];
    } else {
      WorldRunJoint(w, init);
      k := |calls| - 1;
      o := ClosingDecides(WorldRun(w, init), calls[k], id);
    }
    DecidedIsSettled(w, calls, k, id, o);
  }

  /** Over every composed run, each escrow has paid nothing while live and exactly its amount once closed:
      by a committed transaction that decided its outcome, and to exactly those it was due to at the
      moment of that transaction. Every index list is exact. */
  lemma CompositionSettlesOnce(w: World, calls: seq<Call>, id: nat, key: Escrow.IndexKey)
    requires InitialWorld(w) && GenuineRun(calls)
    ensures var v := WorldRun(w, calls).v;
            && (id in v.e.records ==>
                  var r := v.e.records[id];
                  && id in v.audit.paid
                  && Token.PaymentSum(v.audit.paid[id]) == (if Escrow.IsLive(r.status) then 0 else r.amount)
                  && (Escrow.IsLive(r.status) ==> v.audit.paid[id] == [])
                  && (!Escrow.IsLive(r.status) ==>
                        exists k, o :: SettledBy(w, calls, k, id, o) && r.status == EscrowOutcomes.StatusOf(o)))
            && Distinct(Escrow.Ids(v.e.index, key))
            && (forall i :: i in Escrow.Ids(v.e.index, key) <==> i in v.e.records && EscrowBooks.Matches(v.e.records[i], key))
  {
    VaultRun(w, calls);
    EscrowOutcomes.SettleExactlyOnce(w.v, EscrowTicks(w, calls), id);
    EscrowLife.IndexesExact(w.v, EscrowTicks(w, calls), key);
    if EscrowOutcomes.IsClosed(WorldRun(w, calls).v, id) {
      var k, o := SettlementOrigin(w, calls, id);
      DecidedIsSettled(w, calls, k, id, o);
    }
  }

  // ── Where released money goes ───────────────────────────────────────────────

  /** The driver, or a treasury whose history in the run is in order. */
  ghost predicate RightfulPayee(w: World, calls: seq<Call>, driver: Address, fleetId: Option<nat>, payee: Address) {
    || payee == driver
    || (fleetId.Some? && exists c :: RegisteredWith(w, calls, c, fleetId.value, payee))
    || (fleetId.Some? && exists j, c :: RedirectedBy(w, calls, j, c, fleetId.value, payee))
  }

  /** Whoever earns for the driver is rightful at that moment. */
  lemma EarnerIsRightful(w: World, calls: seq<Call>, r: Escrow.EscrowRecord)
    requires InitialWorld(w)
    ensures var u := WorldRun(w, calls);
            RightfulPayee(w, calls, r.driver, r.fleetId, EscrowOutcomes.Earner(u.v, u.fleet, r))
  {
    var u := WorldRun(w, calls);
    var earner := EscrowOutcomes.Earner(u.v, u.fleet, r);
    if earner != r.driver {
      var c, j := RedirectedPayouts(w, calls, r.driver, r.fleetId.value);
      assert RegisteredWith(w, calls, c, r.fleetId.value, earner) || RedirectedBy(w, calls, j, c, r.fleetId.value, earner);
    }
  }

  /** Over every composed run, the amount of every released escrow, less the platform's share at the rate of
      that moment, went to its driver or to a treasury of its fleet that was registered, or proposed by a
      signer and confirmed after the timelock, before the release; and that share, a tenth at most, to the
      admin of that moment. */
  lemma ReleasedMoneyGoesHome(w: World, calls: seq<Call>, id: nat) returns (k: nat, payee: Address)
    requires InitialWorld(w) && GenuineRun(calls) && EscrowLife.IsReleased(WorldRun(w, calls).v, id)
    ensures SettledBy(w, calls, k, id, EscrowOutcomes.PaidOut)
    ensures var v, u := WorldRun(w, calls).v, WorldRun(w, calls[..k]).v;
            var r := v.e.records[id];
            var fee := EscrowOutcomes.Part(r.amount, u.e.feeBps);
            && 0 <= 10 * fee <= r.amount
            && (forall a :: Token.Received(v.audit.paid[id], a)
                         == (if a == payee then r.amount - fee else 0) + (if a == u.e.admin then fee else 0))
            && RightfulPayee(w, calls[..k], r.driver, r.fleetId, payee)
  {
    var o: EscrowOutcomes.Outcome;
    k, o := SettlementOrigin(w, calls, id);
    DecidedIsSettled(w, calls, k, id, o);
    payee := PaidAtRelease(w, calls, k, id);
    FeeAtRelease(w, calls, k, id);
  }

  lemma PaidAtRelease(w: World, calls: seq<Call>, k: nat, id: nat) returns (payee: Address)
    requires InitialWorld(w) && SettledBy(w, calls, k, id, EscrowOutcomes.PaidOut)
    ensures var v, u := WorldRun(w, calls).v, WorldRun(w, calls[..k]).v;
            var r := v.e.records[id];
            var fee := EscrowOutcomes.Part(r.amount, u.e.feeBps);
            && (forall a :: Token.Received(v.audit.paid[id], a)
                         == (if a == payee then r.amount - fee else 0) + (if a == u.e.admin then fee else 0))
            && RightfulPayee(w, calls[..k], r.driver, r.fleetId, payee)
  {
    var u := WorldRun(w, calls[..k]);
    payee := EscrowOutcomes.Earner(u.v, u.fleet, u.v.e.records[id]);
    EarnerIsRightful(w, calls[..k], u.v.e.records[id]);
  }

  lemma FeeAtRelease(w: World, calls: seq<Call>, k: nat, id: nat)
    requires InitialWorld(w) && GenuineRun(calls) && SettledBy(w, calls, k, id, EscrowOutcomes.PaidOut)
    ensures var v, u := WorldRun(w, calls).v, WorldRun(w, calls[..k]).v;
            0 <= 10 * EscrowOutcomes.Part(v.e.records[id].amount, u.e.feeBps) <= v.e.records[id].amount
  {
    WorldRunJoint(w, calls[..k]);
    FeeIsTenth(WorldRun(w, calls[..k]).v, id);
  }

  lemma FeeIsTenth(v: Escrow.Vault, id: nat)
    requires EscrowBooks.RecordsSound(v) && id in v.e.records
    ensures 0 <= 10 * EscrowOutcomes.Part(v.e.records[id].amount, v.e.feeBps) <= v.e.records[id].amount
  {
    EscrowOutcomes.PartIsFee(v.e.records[id].amount, v.e.feeBps);
    Fees.FeeAtMostTenth(v.e.records[id].amount, v.e.feeBps);
  }
}

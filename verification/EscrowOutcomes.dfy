/** What a settled escrow has paid, address by address, over every run: the amounts, shares and payees
    are stated here from the contract's promises, apart from the functions that compute them. */
module EscrowOutcomes {
  import opened Prelude
  import opened Token
  import opened Fees
  import opened Escrow
  import opened EscrowBooks
  import opened EscrowLife
  import Fleet

  // ── What is due ─────────────────────────────────────────────────────────────

  /** What becomes of the money of an escrow: back to its sender, divided, or paid out. */
  datatype Outcome = Returned | Divided(senderBps: nat) | PaidOut

  /** The calls that decide the outcome of escrow id when they commit. */
  predicate Decides(call: EscrowCall, id: nat, o: Outcome) {
    match call
    case Refund(_, i) => i == id && o == Returned
    case ReclaimExpired(i) => i == id && o == Returned
    case ResolveDispute(_, i, toDriver) => i == id && o == if toDriver then PaidOut else Returned
    case ResolveSplit(_, i, bps) => i == id && o == Divided(bps)
    case Release(_, i) => i == id && o == PaidOut
    case ReleaseHoldback(_, i) => i == id && o == PaidOut
    case _ => false
  }

  function StatusOf(o: Outcome): EscrowStatus {
    match o
    case Returned => Refunded
    case Divided(_) => Split
    case PaidOut => Released
  }

  /** So many ten-thousandths of an amount, rounded down, and capped where a product of i128 saturates. */
  function Part(amount: int, bps: nat): int {
    Min(amount * bps / 10_000, I128_MAX / 10_000)
  }

  /** Who is paid for the driver's work: the treasury of an operating fleet the driver is active in, if
      the escrow names it and the contract knows the registry, and otherwise the driver. */
  function Earner(v: Vault, fleet: Fleet.FleetState, r: EscrowRecord): Address {
    if r.fleetId.Some? && v.e.fleetConfigured
       && Fleet.Membership(r.fleetId.value, r.driver) in fleet.members
       && fleet.members[Fleet.Membership(r.fleetId.value, r.driver)] == Fleet.Active
       && r.fleetId.value in fleet.fleets && fleet.fleets[r.fleetId.value].active
    then fleet.fleets[r.fleetId.value].treasury
    else r.driver
  }

  function If(b: bool, x: int): int { if b then x else 0 }

  /** What an address has to receive, be it one of the parties, several of them, or none. */
  function Due(v: Vault, fleet: Fleet.FleetState, r: EscrowRecord, o: Outcome, a: Address): int {
    match o
    case Returned => If(a == r.sender, r.amount)
    case Divided(bps) => If(a == r.sender, Part(r.amount, bps)) + If(a == r.driver, r.amount - Part(r.amount, bps))
    case PaidOut => If(a == Earner(v, fleet, r), r.amount - Part(r.amount, v.e.feeBps)) + If(a == v.e.admin, Part(r.amount, v.e.feeBps))
  }

  /** The escrow is live before and closed after, nothing else about any record changes, every address
      has received what it is due, and the balances say the same. */
  ghost predicate Settles(v: Vault, fleet: Fleet.FleetState, id: nat, o: Outcome, w: Vault) {
    id in v.e.records && IsLive(v.e.records[id].status) &&
    var r := v.e.records[id];
    && w.e.records == v.e.records[id := r.(status := StatusOf(o))]
    && id in w.audit.paid
    && (forall a :: Received(w.audit.paid[id], a) == Due(v, fleet, r, o, a))
    && (forall t, a :: Balance(w.ledger, t, a) == Balance(v.ledger, t, a)
                       + If(t == r.token, Due(v, fleet, r, o, a) - If(a == EscrowAddress, r.amount)))
  }

  lemma PartIsFee(amount: int, bps: nat)
    requires 0 <= amount <= I128_MAX && bps <= BPS
    ensures CalculateFee(amount, bps) == SenderShare(amount, bps) == Part(amount, bps)
    ensures SatSub(amount, CalculateFee(amount, bps)) == DriverShare(amount, bps) == amount - Part(amount, bps)
    ensures 0 <= Part(amount, bps) <= amount
  {
    FeeIsCappedFloor(amount, bps);
    FeeWithinAmount(amount, bps);
  }

  /** The payee of a release of something is the earner. */
  lemma PayeeIsEarner(v: Vault, fleet: Fleet.FleetState, r: EscrowRecord)
    requires 0 < r.amount <= I128_MAX && v.e.feeBps <= MAX_PLATFORM_FEE_BPS
    requires Payee(v.e, fleet, r).Ok?
    ensures Payee(v.e, fleet, r).value == Earner(v, fleet, r)
  {
    FeeAtMostTenth(r.amount, v.e.feeBps);
    PartIsFee(r.amount, v.e.feeBps);
  }

  lemma ReleaseIsDue(v: Vault, fleet: Fleet.FleetState, id: nat)
    requires RecordsSound(v) && id in v.e.records && Payee(v.e, fleet, v.e.records[id]).Ok?
    ensures var r := v.e.records[id];
            var ps := ReleasePayments(v, id, Payee(v.e, fleet, r).value);
            PaymentSum(ps) == r.amount && forall a :: Received(ps, a) == Due(v, fleet, r, PaidOut, a)
  {
    var r := v.e.records[id];
    var payee := Payee(v.e, fleet, r).value;
    PartIsFee(r.amount, v.e.feeBps);
    SharesEffect(payee, r.amount - Part(r.amount, v.e.feeBps), v.e.admin, Part(r.amount, v.e.feeBps));
    if r.amount > 0 {
      PayeeIsEarner(v, fleet, r);
    }
  }

  lemma SplitIsDue(v: Vault, fleet: Fleet.FleetState, id: nat, bps: nat)
    requires RecordsSound(v) && id in v.e.records && bps <= BPS
    ensures var r := v.e.records[id];
            var ps := SplitPayments(r, bps);
            PaymentSum(ps) == r.amount && forall a :: Received(ps, a) == Due(v, fleet, r, Divided(bps), a)
  {
    var r := v.e.records[id];
    PartIsFee(r.amount, bps);
    SharesEffect(r.sender, Part(r.amount, bps), r.driver, r.amount - Part(r.amount, bps));
  }

  lemma RefundIsDue(v: Vault, fleet: Fleet.FleetState, r: EscrowRecord)
    ensures var ps := [Payment(r.sender, r.amount)];
            PaymentSum(ps) == r.amount && forall a :: Received(ps, a) == Due(v, fleet, r, Returned, a)
  {
    var refund := [Payment(r.sender, r.amount)];
    assert refund[1..] == [];
  }

  /** Deciding calls are the settling ones, each with the status of its outcome. */
  lemma DecidingIsSettling(call: EscrowCall, id: nat, o: Outcome)
    ensures Decides(call, id, o) <==>
            && IsSettling(call) && call.id == id
            && FinalStatus(call) == StatusOf(o)
            && (o.Divided? ==> call.ResolveSplit? && o.senderBps == call.senderBps)
  {
  }

  function OutcomeOf(call: EscrowCall): (o: Outcome)
    requires IsSettling(call)
    ensures Decides(call, call.id, o)
  {
    if IsRelease(call) then PaidOut else if call.ResolveSplit? then Divided(call.senderBps) else Returned
  }

  lemma DecisionPays(v: Vault, tick: EscrowTick, id: nat, o: Outcome) returns (u: Vault, ps: seq<Payment>)
    requires RecordsSound(v) && Decides(tick.call, id, o) && EscrowDo(v, tick.fleet, tick.now, tick.call).Ok?
    ensures id in v.e.records && IsLive(v.e.records[id].status)
    ensures u == v.(e := v.e.(senderVolume := u.e.senderVolume))
    ensures EscrowDo(v, tick.fleet, tick.now, tick.call) == Close(u, id, StatusOf(o), ps)
    ensures PaymentSum(ps) == v.e.records[id].amount
    ensures forall a :: Received(ps, a) == Due(v, tick.fleet, v.e.records[id], o, a)
  {
    DecidingIsSettling(tick.call, id, o);
    u, ps := SettlingIsClose(v, tick);
    match o
    case Returned => RefundIsDue(v, tick.fleet, v.e.records[id]);
    case Divided(bps) => SplitIsDue(v, tick.fleet, id, bps);
    case PaidOut => ReleaseIsDue(v, tick.fleet, id);
  }

  lemma CloseSettles(v: Vault, u: Vault, fleet: Fleet.FleetState, id: nat, o: Outcome, ps: seq<Payment>)
    requires PaidSound(v) && id in v.e.records && IsLive(v.e.records[id].status)
    requires u == v.(e := v.e.(senderVolume := u.e.senderVolume)) && Close(u, id, StatusOf(o), ps).Ok?
    requires PaymentSum(ps) == v.e.records[id].amount
    requires forall a :: Received(ps, a) == Due(v, fleet, v.e.records[id], o, a)
    ensures Settles(v, fleet, id, o, Close(u, id, StatusOf(o), ps).value)
  {
    CloseKeeps(u, id, StatusOf(o), ps);
    assert Settled(v.e.records[id], v.audit.paid[id]) && [] + ps == ps;
    PayAllEffect(v.ledger, v.e.records[id].token, ps);
  }

  /** Whatever call decides, and whoever the parties are, everybody receives exactly what is due, and the
      ledger moves by exactly that: a refund to the sender; of a split, the sender's ten-thousandths to
      the sender and the rest to the driver; of a release, the platform's to the admin of the moment and
      the rest to whoever earns for the driver at that moment. */
  lemma DecisionSettles(v: Vault, tick: EscrowTick, id: nat, o: Outcome)
    requires Books(v) && Decides(tick.call, id, o) && EscrowDo(v, tick.fleet, tick.now, tick.call).Ok?
    ensures Settles(v, tick.fleet, id, o, EscrowStep(v, tick))
  {
    var u, ps := DecisionPays(v, tick, id, o);
    CloseSettles(v, u, tick.fleet, id, o, ps);
  }

  // ── Over whole runs ─────────────────────────────────────────────────────────

  lemma PrefixStep(v: Vault, ticks: seq<EscrowTick>, k: nat)
    requires k < |ticks|
    ensures EscrowRun(v, ticks[..k + 1]) == EscrowStep(EscrowRun(v, ticks[..k]), ticks[k])
  {
    assert ticks[..k + 1][..k] == ticks[..k];
  }

  predicate IsClosed(v: Vault, id: nat) {
    id in v.e.records && !IsLive(v.e.records[id].status)
  }

  lemma SettledIsClosed(v: Vault, fleet: Fleet.FleetState, id: nat, o: Outcome, w: Vault)
    requires Settles(v, fleet, id, o, w)
    ensures !IsClosed(v, id) && IsClosed(w, id) && w.e.records[id].status == StatusOf(o) && id in w.audit.paid
  {
  }

  /** Nothing about the escrow, and nothing it has paid, differs. */
  ghost predicate SameEscrow(v: Vault, w: Vault, id: nat) {
    && id in v.e.records && id in w.e.records && w.e.records[id] == v.e.records[id]
    && id in v.audit.paid && id in w.audit.paid && w.audit.paid[id] == v.audit.paid[id]
  }

  lemma {:induction false} ClosedStays(v: Vault, ticks: seq<EscrowTick>, k: nat, id: nat)
    requires k <= |ticks| && IsClosed(EscrowRun(v, ticks[..k]), id) && id in EscrowRun(v, ticks[..k]).audit.paid
    ensures SameEscrow(EscrowRun(v, ticks[..k]), EscrowRun(v, ticks), id)
    decreases |ticks|
  {
    if k == |ticks| {
      assert ticks[..k] == ticks;
    } else {
      var init := ticks[..|ticks| - 1];
      assert init[..k] == ticks[..k];
      ClosedStays(v, init, k, id);
      EscrowStepEvolves(EscrowRun(v, init), ticks[|ticks| - 1]);
      assert Moves(EscrowRun(v, init), EscrowRun(v, ticks), id);
    }
  }

  /** Call k committed, and decides the outcome of escrow id. */
  ghost predicate DecidedAt(v: Vault, ticks: seq<EscrowTick>, k: nat, id: nat, o: Outcome) {
    && k < |ticks| && Decides(ticks[k].call, id, o)
    && EscrowDo(EscrowRun(v, ticks[..k]), ticks[k].fleet, ticks[k].now, ticks[k].call).Ok?
  }

  /** Call k settled the escrow in this way, and since then nothing about it has changed. */
  ghost predicate SettledAt(v: Vault, ticks: seq<EscrowTick>, k: nat, id: nat, o: Outcome) {
    && DecidedAt(v, ticks, k, id, o)
    && Settles(EscrowRun(v, ticks[..k]), ticks[k].fleet, id, o, EscrowRun(v, ticks[..k + 1]))
    && SameEscrow(EscrowRun(v, ticks[..k + 1]), EscrowRun(v, ticks), id)
  }

  /** A committed decision is final. */
  lemma DecidedIsSettled(v: Vault, ticks: seq<EscrowTick>, k: nat, id: nat, o: Outcome)
    requires Initial(v) && DecidedAt(v, ticks, k, id, o)
    ensures SettledAt(v, ticks, k, id, o)
    ensures id in EscrowRun(v, ticks).e.records && EscrowRun(v, ticks).e.records[id].status == StatusOf(o)
  {
    EscrowRunBooks(v, ticks[..k]);
    DecisionSettles(EscrowRun(v, ticks[..k]), ticks[k], id, o);
    PrefixStep(v, ticks, k);
    ClosedStays(v, ticks, k + 1, id);
  }

  /** What has been decided cannot be decided again. */
  lemma NoSecondDecision(v: Vault, ticks: seq<EscrowTick>, i: nat, k: nat, id: nat, o: Outcome, p: Outcome)
    requires Initial(v) && i < k && DecidedAt(v, ticks, i, id, o)
    ensures !DecidedAt(v, ticks, k, id, p)
  {
    if DecidedAt(v, ticks, k, id, p) {
      var before := ticks[..k];
      assert before[..i] == ticks[..i] && before[i] == ticks[i];
      DecidedIsSettled(v, before, i, id, o);
      DecidingIsSettling(ticks[k].call, id, p);
      var u, ps := SettlingIsClose(EscrowRun(v, before), ticks[k]);
    }
  }

  /** No escrow is decided twice, and no call decides in two ways. */
  lemma DecidedOnce(v: Vault, ticks: seq<EscrowTick>, i: nat, k: nat, id: nat, o: Outcome, p: Outcome)
    requires Initial(v) && DecidedAt(v, ticks, i, id, o) && DecidedAt(v, ticks, k, id, p)
    ensures i == k && o == p
  {
    if i < k {
      NoSecondDecision(v, ticks, i, k, id, o, p);
    } else if k < i {
      NoSecondDecision(v, ticks, k, i, id, p, o);
    }
  }

  lemma ClosingDecides(v: Vault, tick: EscrowTick, id: nat) returns (o: Outcome)
    requires IsClosed(EscrowStep(v, tick), id) && !IsClosed(v, id)
    ensures Decides(tick.call, id, o) && EscrowDo(v, tick.fleet, tick.now, tick.call).Ok?
  {
    if IsFunding(tick.call) {
      FundingExtends(v, tick);
    } else if IsSettling(tick.call) {
      var u, ps := SettlingIsClose(v, tick);
      CloseKeeps(u, tick.call.id, FinalStatus(tick.call), ps);
      o := OutcomeOf(tick.call);
    } else if IsStamping(tick.call) {
      var r := StampingIsStore(v, tick);
    } else {
      OthersKeepRecords(v, tick);
    }
  }

  /** A closed escrow was closed by one of the calls of the run. */
  lemma {:induction false} SettlementOrigin(v: Vault, ticks: seq<EscrowTick>, id: nat) returns (k: nat, o: Outcome)
    requires Initial(v) && IsClosed(EscrowRun(v, ticks), id)
    ensures SettledAt(v, ticks, k, id, o)
    decreases |ticks|
  {
    assert ticks != [];
    var init := ticks[..|ticks| - 1];
    if IsClosed(EscrowRun(v, init), id) {
      k, o := SettlementOrigin(v, init, id);
      assert init[..k] == ticks[..k] && init[k] == ticks[k];
    } else {
      k := |ticks| - 1;
      o := ClosingDecides(EscrowRun(v, init), ticks[k], id);
    }
    DecidedIsSettled(v, ticks, k, id, o);
  }

  /** An escrow is live exactly as long as no committed call has decided it. */
  lemma LiveUntilDecided(v: Vault, ticks: seq<EscrowTick>, id: nat)
    requires Initial(v) && id in EscrowRun(v, ticks).e.records
    ensures IsLive(EscrowRun(v, ticks).e.records[id].status) <==> forall k, o :: !DecidedAt(v, ticks, k, id, o)
  {
    if IsClosed(EscrowRun(v, ticks), id) {
      var k, o := SettlementOrigin(v, ticks, id);
    } else {
      forall k, o ensures !DecidedAt(v, ticks, k, id, o) {
        if DecidedAt(v, ticks, k, id, o) {
          DecidedIsSettled(v, ticks, k, id, o);
        }
      }
    }
  }

  /** Over any run each escrow has paid out nothing while live, and exactly its amount, once, when
      closed: by a committed call that decided its outcome, and to exactly those it was due to at the
      moment of that call. */
  lemma SettleExactlyOnce(v: Vault, ticks: seq<EscrowTick>, id: nat)
    requires Initial(v)
    ensures var w := EscrowRun(v, ticks);
            id in w.e.records ==>
              var r := w.e.records[id];
              && id in w.audit.paid
              && PaymentSum(w.audit.paid[id]) == (if IsLive(r.status) then 0 else r.amount)
              && (IsLive(r.status) ==> w.audit.paid[id] == [])
              && (!IsLive(r.status) ==> exists k, o :: SettledAt(v, ticks, k, id, o) && r.status == StatusOf(o))
  {
    EscrowRunBooks(v, ticks);
    var w := EscrowRun(v, ticks);
    if id in w.e.records {
      assert Settled(w.e.records[id], w.audit.paid[id]);
      SettledExactly(w.e.records[id], w.audit.paid[id]);
      if IsClosed(w, id) {
        var k, o := SettlementOrigin(v, ticks, id);
        DecidedIsSettled(v, ticks, k, id, o);
      }
    }
  }
}

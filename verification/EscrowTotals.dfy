/** How far the running total of locked funds can be trusted once batches have bypassed it. */
module EscrowTotals {
  import opened Prelude
  import opened Sums
  import opened Token
  import opened Escrow
  import opened EscrowBooks
  import opened EscrowSolvency
  import Fleet

  // ── What a call does to the running total ───────────────────────────────────

  /** What the running total would be had it never saturated. */
  ghost function Unsaturated(v: Vault, token: Address): int {
    Live(v, token) - BatchTotal(v, token)
  }

  /** The total moves as its unsaturated value does, but stops at the smallest i128. */
  ghost predicate Tracks(v: Vault, w: Vault, token: Address) {
    TotalLocked(w.e, token) == Max(I128_MIN, TotalLocked(v.e, token) + Unsaturated(w, token) - Unsaturated(v, token))
  }

  lemma StoreTracks(v: Vault, id: nat, r: EscrowRecord, token: Address)
    requires Covered(v, token) && id in v.e.records && SameTerms(v.e.records[id], r)
    ensures IsLive(v.e.records[id].status) && IsLive(r.status) ==> Tracks(v, Store(v, id, r), token)
  {
    TotalPut(v.e.records, LiveWeight(token), id, r);
    TotalPut(v.e.records, BatchWeight(v.audit.batched, token), id, r);
  }

  lemma CountedTracks(v: Vault, u: Vault, t: Address, amount: int, token: Address)
    requires Covered(v, token) && 0 <= BatchTotal(v, token) && 0 <= Live(u, token) <= I128_MAX
    requires var d := if token == t then amount else 0;
             && Live(u, token) == Live(v, token) + d
             && BatchTotal(u, token) == BatchTotal(v, token) && TotalLocked(u.e, token) == TotalLocked(v.e, token)
    ensures amount >= 0 ==> Tracks(v, u.(e := AddLocked(u.e, t, amount)), token)
  {
  }

  lemma CreateTracks(v: Vault, now: nat, sender: Address, recipient: Address, driver: Address, id: nat,
                     t: Address, amount: int, fleetId: Option<nat>, token: Address)
    requires Books(v) && Solvent(v) && Create(v, now, sender, recipient, driver, id, t, amount, fleetId).Ok?
    ensures Tracks(v, Create(v, now, sender, recipient, driver, id, t, amount, fleetId).value, token)
  {
    var r := NewRecord(now, sender, recipient, driver, t, amount, fleetId);
    var u := Lock(v, id, r).value;
    LockBooks(v, id, r);
    LockCover(v, id, r, false, token);
    assert Covered(v, token);
    TotalsNonNegative(v, token);
    TotalsNonNegative(u, token);
    BalanceWithinSupply(u.ledger, token, EscrowAddress);
    CountedTracks(v, u, t, amount, token);
  }

  lemma {:induction false} LockAllTracks(v: Vault, now: nat, sender: Address, recipient: Address, t: Address, items: seq<BatchItem>, token: Address)
    requires Books(v) && sender != EscrowAddress && LockAll(v, now, sender, recipient, t, items).Ok?
    ensures var w := LockAll(v, now, sender, recipient, t, items).value;
            TotalLocked(w.e, token) == TotalLocked(v.e, token) && Unsaturated(w, token) == Unsaturated(v, token)
    decreases |items|
  {
    if items != [] {
      var init, last := items[..|items| - 1], items[|items| - 1];
      LockAllTracks(v, now, sender, recipient, t, init, token);
      LockAllBooks(v, now, sender, recipient, t, init);
      var u := LockAll(v, now, sender, recipient, t, init).value;
      LockCover(u, last.id, NewRecord(now, sender, recipient, last.driver, t, last.amount, None), true, token);
    }
  }

  lemma CloseTracks(v: Vault, id: nat, status: EscrowStatus, ps: seq<Payment>, token: Address)
    requires SoundLedger(v.ledger) && RecordsSound(v) && Covered(v, token)
    requires id in v.e.records && IsLive(v.e.records[id].status) && !IsLive(status)
    requires Close(v, id, status, ps).Ok?
    requires PaymentSum(ps) == v.e.records[id].amount && forall p :: p in ps ==> p.amount >= 0
    ensures Tracks(v, Close(v, id, status, ps).value, token)
  {
    CloseCover(v, id, status, ps, token);
    BalanceWithinSupply(v.ledger, token, EscrowAddress);
  }

  lemma SettlingTracks(v: Vault, tick: EscrowTick, token: Address)
    requires SoundLedger(v.ledger) && RecordsSound(v) && Covered(v, token)
    requires IsSettling(tick.call) && EscrowDo(v, tick.fleet, tick.now, tick.call).Ok?
    ensures Tracks(v, EscrowStep(v, tick), token)
  {
    var u, ps := SettlingIsSettled(v, tick);
    CloseTracks(u, tick.call.id, FinalStatus(tick.call), ps, token);
  }

  lemma FundingTracks(v: Vault, tick: EscrowTick, token: Address)
    requires Books(v) && Solvent(v) && IsFunding(tick.call) && EscrowDo(v, tick.fleet, tick.now, tick.call).Ok?
    ensures Tracks(v, EscrowStep(v, tick), token)
  {
    assert Covered(v, token);
    match tick.call
    case CreateEscrow(sender, recipient, driver, id, t, amount, fleetId) =>
      CreateTracks(v, tick.now, sender, recipient, driver, id, t, amount, fleetId, token);
    case CreateBatch(sender, recipient, t, items) => LockAllTracks(v, tick.now, sender, recipient, t, items, token);
  }

  /** Every call moves the running total as far as the unsaturated one, down to the smallest i128. */
  lemma StepTracks(v: Vault, tick: EscrowTick, token: Address)
    requires Books(v) && Solvent(v)
    ensures Tracks(v, EscrowStep(v, tick), token)
  {
    assert Covered(v, token);
    if EscrowDo(v, tick.fleet, tick.now, tick.call).Ok? {
      if IsFunding(tick.call) {
        FundingTracks(v, tick, token);
      } else if IsSettling(tick.call) {
        SettlingTracks(v, tick, token);
      } else if IsStamping(tick.call) {
        var r := StampingIsStore(v, tick);
        StoreTracks(v, tick.call.id, r, token);
      } else {
        OthersKeepRecords(v, tick);
      }
    }
  }

  // ── Over runs ───────────────────────────────────────────────────────────────

  ghost predicate WithinI128(v: Vault, token: Address) {
    BatchTotal(v, token) - Live(v, token) <= -I128_MIN
  }

  ghost predicate Exact(v: Vault, token: Address) {
    TotalLocked(v.e, token) + BatchTotal(v, token) == Live(v, token)
  }

  /** A total that is exact stays so just while it stays in range, and an inexact one stays inexact. */
  lemma StepExactIff(v: Vault, tick: EscrowTick, token: Address)
    requires Books(v) && Solvent(v) && Covered(EscrowStep(v, tick), token)
    ensures Exact(EscrowStep(v, tick), token) <==> Exact(v, token) && WithinI128(EscrowStep(v, tick), token)
  {
    StepTracks(v, tick, token);
    assert Covered(v, token);
  }

  /** Over every prudent run, the running total is what is owed less what batches locked if and only
      if at no moment batches had locked more than 2^127 beyond what was owed then. */
  lemma {:induction false} TotalExactIff(v: Vault, ticks: seq<EscrowTick>, token: Address)
    requires Initial(v) && PrudentRun(v, ticks)
    ensures Exact(EscrowRun(v, ticks), token) <==> AlwaysWithin(v, ticks, token)
    decreases |ticks|
  {
    if ticks == [] {
      EmptyTotals(v, token);
    } else {
      var init := ticks[..|ticks| - 1];
      PrudentPrefix(v, ticks, |ticks| - 1);
      TotalExactIff(v, init, token);
      EscrowRunSolvent(v, init);
      EscrowRunSolvent(v, ticks);
      EscrowRunBooks(v, init);
      assert Covered(EscrowRun(v, ticks), token);
      StepExactIff(EscrowRun(v, init), ticks[|ticks| - 1], token);
      if AlwaysWithin(v, ticks, token) {
        WithinSoFar(v, ticks, token);
      } else if AlwaysWithin(v, init, token) && WithinI128(EscrowRun(v, ticks), token) {
        WithinOnceMore(v, ticks, token);
      }
    }
  }

  lemma EmptyTotals(v: Vault, token: Address)
    requires Initial(v)
    ensures Exact(EscrowRun(v, []), token) && AlwaysWithin(v, [], token)
  {
    var none: seq<EscrowTick> := [];
    assert none[..0] == none;
  }

  /** No moment of the run, its ends included, is outside the range. */
  ghost predicate AlwaysWithin(v: Vault, ticks: seq<EscrowTick>, token: Address) {
    forall k :: 0 <= k <= |ticks| ==> WithinI128(EscrowRun(v, ticks[..k]), token)
  }

  lemma WithinSoFar(v: Vault, ticks: seq<EscrowTick>, token: Address)
    requires ticks != [] && AlwaysWithin(v, ticks, token)
    ensures AlwaysWithin(v, ticks[..|ticks| - 1], token) && WithinI128(EscrowRun(v, ticks), token)
  {
    var init := ticks[..|ticks| - 1];
    assert ticks[..|ticks|] == ticks;
    forall k | 0 <= k <= |init| ensures WithinI128(EscrowRun(v, init[..k]), token) {
      assert init[..k] == ticks[..k];
    }
  }

  lemma WithinOnceMore(v: Vault, ticks: seq<EscrowTick>, token: Address)
    requires ticks != [] && AlwaysWithin(v, ticks[..|ticks| - 1], token) && WithinI128(EscrowRun(v, ticks), token)
    ensures AlwaysWithin(v, ticks, token)
  {
    var init := ticks[..|ticks| - 1];
    forall k | 0 <= k <= |ticks| ensures WithinI128(EscrowRun(v, ticks[..k]), token) {
      if k == |ticks| {
        assert ticks[..k] == ticks;
      } else {
        assert init[..k] == ticks[..k];
      }
    }
  }

  // ── The smallest run that saturates ─────────────────────────────────────────

  const COIN: Address := Account(0)
  const SENDER: Address := Account(2)

  function Loaded(): Vault {
    Vault(EscrowState(Account(1), COIN, 0, false, false, None, None, map[], map[], map[], map[]),
          map[Holding(COIN, SENDER) := I128_MAX], Audit([], {}, map[]))
  }

  lemma LoadedIsInitial()
    ensures Initial(Loaded())
  {
    var ledger, empty: Ledger := Loaded().ledger, map[];
    forall t ensures Supply(ledger, t) <= I128_MAX {
      TotalPut(empty, SupplyWeight(t), Holding(COIN, SENDER), I128_MAX);
      assert ledger == empty[Holding(COIN, SENDER) := I128_MAX];
    }
  }

  function LockAllOf(fleet: Fleet.FleetState, id: nat): EscrowTick {
    EscrowTick(0, fleet, CreateBatch(SENDER, Account(3), COIN, [BatchItem(id, Account(4), I128_MAX)]))
  }

  function TakeBack(fleet: Fleet.FleetState, id: nat): EscrowTick {
    EscrowTick(0, fleet, Refund(SENDER, id))
  }

  function Record(id: nat): EscrowRecord {
    EscrowRecord(SENDER, Account(3), Account(4), COIN, I128_MAX, Locked, 0, Some(2_592_000), None, None, None)
  }

  /** Everything the sender has is locked by a batch and taken back. */
  lemma LockAndTakeBack(v: Vault, fleet: Fleet.FleetState, id: nat) returns (w: Vault)
    requires id !in v.e.records && !v.e.paused
    requires Balance(v.ledger, COIN, SENDER) == I128_MAX && Held(v, COIN) == 0
    ensures w == EscrowStep(EscrowStep(v, LockAllOf(fleet, id)), TakeBack(fleet, id))
    ensures w.e.records == v.e.records[id := Record(id).(status := Refunded)] && !w.e.paused
    ensures Balance(w.ledger, COIN, SENDER) == I128_MAX && Held(w, COIN) == 0
    ensures w.audit.batched == v.audit.batched + {id}
    ensures TotalLocked(w.e, COIN) == Saturate(TotalLocked(v.e, COIN) - I128_MAX)
  {
    var u := LockedWhole(v, fleet, id);
    w := TakenBack(u, fleet, id);
  }

  lemma TakenBack(u: Vault, fleet: Fleet.FleetState, id: nat) returns (w: Vault)
    requires id in u.e.records && u.e.records[id] == Record(id) && !u.e.paused
    requires Balance(u.ledger, COIN, SENDER) == 0 && Held(u, COIN) == I128_MAX
    ensures w == EscrowStep(u, TakeBack(fleet, id))
    ensures w.e.records == u.e.records[id := Record(id).(status := Refunded)] && !w.e.paused
    ensures Balance(w.ledger, COIN, SENDER) == I128_MAX && Held(w, COIN) == 0 && w.audit.batched == u.audit.batched
    ensures TotalLocked(w.e, COIN) == Saturate(TotalLocked(u.e, COIN) - I128_MAX)
  {
    w := EscrowStep(u, TakeBack(fleet, id));
    PayOne(u.ledger, COIN, Payment(SENDER, I128_MAX));
    TransferEffect(u.ledger, COIN, EscrowAddress, SENDER, I128_MAX);
  }

  lemma LockedWhole(v: Vault, fleet: Fleet.FleetState, id: nat) returns (u: Vault)
    requires id !in v.e.records && !v.e.paused
    requires Balance(v.ledger, COIN, SENDER) == I128_MAX && Held(v, COIN) == 0
    ensures u == EscrowStep(v, LockAllOf(fleet, id))
    ensures u.e.records == v.e.records[id := Record(id)] && !u.e.paused && u.e.totalLocked == v.e.totalLocked
    ensures Balance(u.ledger, COIN, SENDER) == 0 && Held(u, COIN) == I128_MAX
    ensures u.audit.batched == v.audit.batched + {id}
  {
    var item := BatchItem(id, Account(4), I128_MAX);
    assert [item][..0] == [];
    assert LockAll(v, 0, SENDER, Account(3), COIN, [item]) == LockItem(v, 0, SENDER, Account(3), COIN, item);
    LockParts(v, id, Record(id));
    TransferEffect(v.ledger, COIN, SENDER, EscrowAddress, I128_MAX);
    u := EscrowStep(v, LockAllOf(fleet, id));
  }

  lemma TwoCalls(v: Vault, a: EscrowTick, b: EscrowTick)
    ensures EscrowRun(v, [a, b]) == EscrowStep(EscrowStep(v, a), b)
  {
    assert [a, b][..1] == [a] && [a][..0] == [];
    assert EscrowRun(v, [a]) == EscrowStep(v, a);
  }

  lemma FourCalls(v: Vault, a: EscrowTick, b: EscrowTick, c: EscrowTick, d: EscrowTick)
    ensures EscrowRun(v, [a, b, c, d]) == EscrowRun(EscrowRun(v, [a, b]), [c, d])
  {
    TwoCalls(EscrowRun(v, [a, b]), c, d);
    assert [a, b, c, d][..3] == [a, b, c] && [a, b, c][..2] == [a, b];
  }

  /** Twice the whole supply through a batch and back: nothing is owed, batches have locked twice the
      largest i128, and the running total is stuck at the smallest. */
  lemma TotalSaturates(fleet: Fleet.FleetState)
    ensures var ticks := [LockAllOf(fleet, 1), TakeBack(fleet, 1), LockAllOf(fleet, 2), TakeBack(fleet, 2)];
            var w := EscrowRun(Loaded(), ticks);
            && Initial(Loaded())
            && Live(w, COIN) == 0 && BatchTotal(w, COIN) == 2 * I128_MAX && TotalLocked(w.e, COIN) == I128_MIN
            && TotalLocked(w.e, COIN) + BatchTotal(w, COIN) != Live(w, COIN)
  {
    var v := Loaded();
    var a, b, c, d := LockAllOf(fleet, 1), TakeBack(fleet, 1), LockAllOf(fleet, 2), TakeBack(fleet, 2);
    LoadedIsInitial();
    var u := LockAndTakeBack(v, fleet, 1);
    var w := LockAndTakeBack(u, fleet, 2);
    TwoCalls(v, a, b);
    TwoCalls(u, c, d);
    FourCalls(v, a, b, c, d);
    TotalsOfTwo(w);
  }

  /** Somebody sends the contract a little money. */
  function Gift(fleet: Fleet.FleetState): EscrowTick {
    EscrowTick(0, fleet, TokenTransfer(COIN, SENDER, EscrowAddress, 50))
  }

  lemma Given(v: Vault, fleet: Fleet.FleetState) returns (w: Vault)
    requires Balance(v.ledger, COIN, SENDER) == I128_MAX && Held(v, COIN) == 0
    ensures w == EscrowStep(v, Gift(fleet)) && w.e == v.e && w.audit == v.audit && Held(w, COIN) == 50
  {
    w := EscrowStep(v, Gift(fleet));
    TransferEffect(v.ledger, COIN, SENDER, EscrowAddress, 50);
  }

  /** One batch settled is enough for an excess to be out of reach: nothing is owed, the contract holds
      50 too many, and its admin's sweep asks for more than there is. */
  lemma ExcessOutOfReach(fleet: Fleet.FleetState)
    ensures var ticks := [LockAllOf(fleet, 1), TakeBack(fleet, 1), Gift(fleet)];
            var w := EscrowRun(Loaded(), ticks);
            && Initial(Loaded()) && Live(w, COIN) == 0 && Held(w, COIN) == 50
            && DoSweep(w, w.e.admin, COIN, w.e.admin) == Err(Overdraft)
  {
    var v, a, b, c := Loaded(), LockAllOf(fleet, 1), TakeBack(fleet, 1), Gift(fleet);
    LoadedIsInitial();
    var u := LockAndTakeBack(v, fleet, 1);
    var w := Given(u, fleet);
    TwoCalls(v, a, b);
    assert [a, b, c][..2] == [a, b];
    var none: map<nat, EscrowRecord> := map[];
    TotalPut(none, LiveWeight(COIN), 1, Record(1).(status := Refunded));
  }

  lemma TotalsOfTwo(w: Vault)
    requires w.e.records == map[1 := Record(1).(status := Refunded), 2 := Record(2).(status := Refunded)]
    requires w.audit.batched == {1, 2}
    ensures Live(w, COIN) == 0 && BatchTotal(w, COIN) == 2 * I128_MAX
  {
    var none: map<nat, EscrowRecord> := map[];
    var one := none[1 := Record(1).(status := Refunded)];
    assert w.e.records == one[2 := Record(2).(status := Refunded)];
    TotalPut(none, LiveWeight(COIN), 1, one[1]);
    TotalPut(one, LiveWeight(COIN), 2, w.e.records[2]);
    TotalPut(none, BatchWeight({1, 2}, COIN), 1, one[1]);
    TotalPut(one, BatchWeight({1, 2}, COIN), 2, w.e.records[2]);
  }
}

/** The escrow contract's bookkeeping: payments, indexes and volume counters agree with the
    records in every reachable state, whatever mixture of calls led there. */
module EscrowBooks {
  import opened Prelude
  import opened Sums
  import opened Token
  import opened Fees
  import opened Escrow
  import Fleet

  // ── What agreement means ────────────────────────────────────────────────────

  function Matches(r: EscrowRecord, key: IndexKey): bool {
    match key
    case BySender(a) => r.sender == a
    case ByRecipient(a) => r.recipient == a
    case ByDriver(a) => r.driver == a
  }

  /** The created ids whose record names the key's address, in creation order. */
  function Naming(created: seq<nat>, records: map<nat, EscrowRecord>, key: IndexKey): seq<nat> {
    if created == [] then []
    else
      var last := created[|created| - 1];
      Naming(created[..|created| - 1], records, key)
      + (if last in records && Matches(records[last], key) then [last] else [])
  }

  /** The payments an escrow must have made, given its status. */
  ghost predicate Settled(r: EscrowRecord, ps: seq<Payment>) {
    match r.status
    case Refunded => ps == [Payment(r.sender, r.amount)]
    case Split => exists bps: nat :: bps <= BPS && ps == SplitPayments(r, bps)
    case Released => exists bps: nat, payee, admin ::
                       bps <= MAX_PLATFORM_FEE_BPS && ps == ReleaseShares(r.amount, bps, payee, admin)
    case _ => ps == []
  }

  function ReleasedWeight(sender: Address): (nat, EscrowRecord) -> int {
    (id: nat, r: EscrowRecord) => if r.sender == sender && r.status == Released then 1 else 0
  }

  /** The number of a sender's escrows that were paid out. */
  ghost function ReleasedCount(records: map<nat, EscrowRecord>, sender: Address): int {
    Total(records, ReleasedWeight(sender))
  }

  /** Thirty days after its creation, or never if that is past the end of time. */
  predicate Expires(r: EscrowRecord) {
    r.expiresAt == Some(Min(U64_MAX, r.createdAt + 2_592_000))
  }

  ghost predicate RecordsSound(v: Vault) {
    && v.e.feeBps <= MAX_PLATFORM_FEE_BPS
    && (forall id :: id in v.e.records ==> 0 <= v.e.records[id].amount <= I128_MAX && v.e.records[id].sender != EscrowAddress)
    && (forall id :: id in v.e.records ==> Expires(v.e.records[id]))
    && (forall id :: id in v.audit.batched ==> id in v.e.records)
  }

  ghost predicate PaidSound(v: Vault) {
    forall id :: id in v.e.records ==> id in v.audit.paid && Settled(v.e.records[id], v.audit.paid[id])
  }

  ghost predicate CreatedSound(v: Vault) {
    && Distinct(v.audit.created)
    && (forall id :: id in v.audit.created <==> id in v.e.records)
  }

  ghost predicate IndexSound(v: Vault) {
    forall key :: Ids(v.e.index, key) == Naming(v.audit.created, v.e.records, key)
  }

  ghost predicate VolumeSound(v: Vault) {
    forall s :: Volume(v.e, s) == Min(U32_MAX, ReleasedCount(v.e.records, s))
  }

  /** All the books of a reachable vault. */
  ghost predicate Books(v: Vault) {
    && SoundLedger(v.ledger)
    && RecordsSound(v) && PaidSound(v) && CreatedSound(v) && IndexSound(v) && VolumeSound(v)
  }

  /** Two records agree on everything fixed at creation. */
  predicate SameTerms(r: EscrowRecord, s: EscrowRecord) {
    && r.sender == s.sender && r.recipient == s.recipient && r.driver == s.driver
    && r.token == s.token && r.amount == s.amount
    && r.createdAt == s.createdAt && r.expiresAt == s.expiresAt && r.fleetId == s.fleetId
  }

  // ── Settling arithmetic ─────────────────────────────────────────────────────

  lemma SharesEffect(first: Address, a: int, second: Address, b: int)
    requires a >= 0 && b >= 0
    ensures PaymentSum(Shares(first, a, second, b)) == a + b
    ensures forall i :: 0 <= i < |Shares(first, a, second, b)| ==>
                          Shares(first, a, second, b)[i].amount > 0
                          && Shares(first, a, second, b)[i].to in {first, second}
    ensures forall who :: Received(Shares(first, a, second, b), who)
                          == (if who == first then a else 0) + (if who == second then b else 0)
  {
    var ps := Shares(first, a, second, b);
    var head := if a > 0 then [Payment(first, a)] else [];
    var tail := if b > 0 then [Payment(second, b)] else [];
    if a > 0 {
      assert ps[0] == Payment(first, a) && ps[1..] == tail;
    } else {
      assert ps == tail;
    }
    if b > 0 {
      assert tail[1..] == [];
    }
    assert PaymentSum(tail) == b;
    assert forall who :: Received(tail, who) == if who == second then b else 0;
  }

  lemma SplitSettled(r: EscrowRecord, bps: nat)
    requires 0 <= r.amount <= I128_MAX && bps <= BPS
    ensures var ps := SplitPayments(r, bps);
            && PaymentSum(ps) == r.amount && |ps| <= 2
            && forall p :: p in ps ==> p.amount >= 0 && p.to in {r.sender, r.driver}
  {
    SplitConserves(r.amount, bps);
    SharesEffect(r.sender, SenderShare(r.amount, bps), r.driver, DriverShare(r.amount, bps));
  }

  lemma ReleaseSettled(amount: int, bps: nat, payee: Address, admin: Address)
    requires 0 <= amount <= I128_MAX && bps <= MAX_PLATFORM_FEE_BPS
    ensures var ps := ReleaseShares(amount, bps, payee, admin);
            && PaymentSum(ps) == amount && |ps| <= 2
            && (forall p :: p in ps ==> p.amount >= 0 && p.to in {payee, admin})
            && (amount > 0 ==> |ps| > 0 && ps[0].to == payee && 10 * ps[0].amount >= 9 * amount)
  {
    FeeWithinAmount(amount, bps);
    FeeAtMostTenth(amount, bps);
    SharesEffect(payee, SatSub(amount, CalculateFee(amount, bps)), admin, CalculateFee(amount, bps));
  }

  lemma SplitCase(r: EscrowRecord, ps: seq<Payment>)
    requires 0 <= r.amount <= I128_MAX && r.status == Split && Settled(r, ps)
    ensures PaymentSum(ps) == r.amount && |ps| <= 2
    ensures forall p :: p in ps ==> p.amount >= 0 && p.to in {r.sender, r.driver}
  {
    var bps: nat :| bps <= BPS && ps == SplitPayments(r, bps);
    SplitSettled(r, bps);
  }

  lemma ReleasedCase(r: EscrowRecord, ps: seq<Payment>)
    requires 0 <= r.amount <= I128_MAX && r.status == Released && Settled(r, ps)
    ensures PaymentSum(ps) == r.amount && |ps| <= 2
    ensures forall p :: p in ps ==> p.amount >= 0
    ensures r.amount > 0 ==> |ps| > 0 && 10 * ps[0].amount >= 9 * r.amount
  {
    var bps: nat, payee, admin :| bps <= MAX_PLATFORM_FEE_BPS && ps == ReleaseShares(r.amount, bps, payee, admin);
    ReleaseSettled(r.amount, bps, payee, admin);
  }

  /** A closed escrow has paid out exactly its amount, in at most two payments, to its sender and
      driver if split, and to its sender alone if refunded; a released one keeps at least nine
      tenths for the payee. A live escrow has paid nothing. */
  lemma SettledExactly(r: EscrowRecord, ps: seq<Payment>)
    requires 0 <= r.amount <= I128_MAX && Settled(r, ps)
    ensures PaymentSum(ps) == if IsLive(r.status) then 0 else r.amount
    ensures |ps| <= 2 && forall p :: p in ps ==> p.amount >= 0
    ensures r.status == Refunded ==> ps == [Payment(r.sender, r.amount)]
    ensures r.status == Split ==> forall p :: p in ps ==> p.to in {r.sender, r.driver}
    ensures r.status == Released && r.amount > 0 ==> |ps| > 0 && 10 * ps[0].amount >= 9 * r.amount
  {
    match r.status
    case Refunded => assert ps[1..] == [];
    case Split => SplitCase(r, ps);
    case Released => ReleasedCase(r, ps);
    case _ =>
  }

  // ── Indexes ─────────────────────────────────────────────────────────────────

  lemma {:induction false} NamingFrame(created: seq<nat>, before: map<nat, EscrowRecord>, after: map<nat, EscrowRecord>, key: IndexKey)
    requires forall id :: id in created ==>
                            (id in before <==> id in after) && (id in before ==> SameTerms(before[id], after[id]))
    ensures Naming(created, after, key) == Naming(created, before, key)
    decreases |created|
  {
    if created != [] {
      assert created[|created| - 1] in created;
      NamingFrame(created[..|created| - 1], before, after, key);
    }
  }

  /** Membership and order of an index list. */
  lemma {:induction false} NamingExact(created: seq<nat>, records: map<nat, EscrowRecord>, key: IndexKey)
    requires Distinct(created)
    ensures Distinct(Naming(created, records, key))
    ensures forall id :: id in Naming(created, records, key) <==> id in created && id in records && Matches(records[id], key)
    decreases |created|
  {
    if created != [] {
      var rest := created[..|created| - 1];
      assert created == rest + [created[|created| - 1]];
      assert created[|created| - 1] !in rest;
      NamingExact(rest, records, key);
    }
  }

  // ── The three ways records change ───────────────────────────────────────────

  lemma CountAfter(records: map<nat, EscrowRecord>, id: nat, r: EscrowRecord, s: Address)
    ensures ReleasedCount(records[id := r], s) ==
            ReleasedCount(records, s)
            - (if id in records && records[id].sender == s && records[id].status == Released then 1 else 0)
            + (if r.sender == s && r.status == Released then 1 else 0)
  {
    TotalPut(records, ReleasedWeight(s), id, r);
  }

  lemma CountNonNegative(records: map<nat, EscrowRecord>, s: Address)
    ensures ReleasedCount(records, s) >= 0
  {
    TotalNonNegative(records, ReleasedWeight(s));
  }

  /** Indexes and creation order survive any update of records that keeps their terms. */
  lemma IndexKept(v: Vault, w: Vault)
    requires CreatedSound(v) && IndexSound(v)
    requires w.audit.created == v.audit.created && w.e.index == v.e.index && w.e.records.Keys == v.e.records.Keys
    requires forall id :: id in v.e.records ==> SameTerms(v.e.records[id], w.e.records[id])
    ensures CreatedSound(w) && IndexSound(w)
  {
    forall key ensures Ids(w.e.index, key) == Naming(w.audit.created, w.e.records, key) {
      NamingFrame(v.audit.created, v.e.records, w.e.records, key);
    }
  }

  /** Indexing a record appends its id to exactly the lists of the addresses it names. */
  lemma IndexedAt(index: Index, id: nat, r: EscrowRecord, key: IndexKey)
    ensures Ids(Indexed(index, id, r), key) == Ids(index, key) + if Matches(r, key) then [id] else []
  {
  }

  lemma NamingAppend(created: seq<nat>, records: map<nat, EscrowRecord>, id: nat, r: EscrowRecord, key: IndexKey)
    requires id !in created
    ensures Naming(created + [id], records[id := r], key) == Naming(created, records, key) + if Matches(r, key) then [id] else []
  {
    assert (created + [id])[..|created|] == created;
    NamingFrame(created, records, records[id := r], key);
  }

  lemma LockIndexes(v: Vault, id: nat, r: EscrowRecord)
    requires CreatedSound(v) && IndexSound(v) && Lock(v, id, r).Ok?
    ensures CreatedSound(Lock(v, id, r).value) && IndexSound(Lock(v, id, r).value)
  {
    var w := Lock(v, id, r).value;
    assert id !in v.audit.created;
    assert w.audit.created == v.audit.created + [id];
    forall key ensures Ids(w.e.index, key) == Naming(w.audit.created, w.e.records, key) {
      IndexedAt(v.e.index, id, r, key);
      NamingAppend(v.audit.created, v.e.records, id, r, key);
    }
  }

  lemma LockVolume(v: Vault, id: nat, r: EscrowRecord)
    requires VolumeSound(v) && Lock(v, id, r).Ok? && r.status == Locked
    ensures VolumeSound(Lock(v, id, r).value)
  {
    var w := Lock(v, id, r).value;
    assert w.e.records == v.e.records[id := r] && w.e.senderVolume == v.e.senderVolume;
    forall s ensures Volume(w.e, s) == Min(U32_MAX, ReleasedCount(w.e.records, s)) {
      CountAfter(v.e.records, id, r, s);
      assert Volume(w.e, s) == Volume(v.e, s);
    }
  }

  /** Locking a fresh escrow. */
  lemma LockBooks(v: Vault, id: nat, r: EscrowRecord)
    requires Books(v) && Lock(v, id, r).Ok?
    requires r.status == Locked && r.sender != EscrowAddress && Expires(r)
    ensures Books(Lock(v, id, r).value)
  {
    TransferEffect(v.ledger, r.token, r.sender, EscrowAddress, r.amount);
    BalanceWithinSupply(v.ledger, r.token, r.sender);
    LockIndexes(v, id, r);
    LockVolume(v, id, r);
  }

  lemma StoreVolume(v: Vault, id: nat, r: EscrowRecord)
    requires VolumeSound(v) && id in v.e.records && IsLive(v.e.records[id].status) && IsLive(r.status)
    ensures VolumeSound(Store(v, id, r))
  {
    var w := Store(v, id, r);
    assert w.e.records == v.e.records[id := r] && w.e.senderVolume == v.e.senderVolume;
    forall s ensures Volume(w.e, s) == Min(U32_MAX, ReleasedCount(w.e.records, s)) {
      CountAfter(v.e.records, id, r, s);
      assert Volume(w.e, s) == Volume(v.e, s);
    }
  }

  /** Overwriting a live record with a live record of the same terms. */
  lemma StoreBooks(v: Vault, id: nat, r: EscrowRecord)
    requires Books(v) && id in v.e.records
    requires SameTerms(v.e.records[id], r) && IsLive(v.e.records[id].status) && IsLive(r.status)
    ensures Books(Store(v, id, r))
  {
    IndexKept(v, Store(v, id, r));
    StoreVolume(v, id, r);
  }

  lemma ClosePaid(v: Vault, id: nat, status: EscrowStatus, ps: seq<Payment>)
    requires PaidSound(v)
    requires id in v.e.records && IsLive(v.e.records[id].status) && Close(v, id, status, ps).Ok?
    requires Settled(v.e.records[id].(status := status), ps)
    ensures PaidSound(Close(v, id, status, ps).value)
  {
    var w := Close(v, id, status, ps).value;
    assert v.audit.paid[id] == [] && [] + ps == ps;
    forall j | j in w.e.records ensures j in w.audit.paid && Settled(w.e.records[j], w.audit.paid[j]) {
      if j != id {
        assert w.e.records[j] == v.e.records[j] && w.audit.paid[j] == v.audit.paid[j];
      }
    }
  }

  lemma CloseRecords(v: Vault, id: nat, status: EscrowStatus, ps: seq<Payment>)
    requires RecordsSound(v) && id in v.e.records && Close(v, id, status, ps).Ok?
    ensures RecordsSound(Close(v, id, status, ps).value)
  {
    CloseKeeps(v, id, status, ps);
  }

  lemma CloseIndexes(v: Vault, id: nat, status: EscrowStatus, ps: seq<Payment>)
    requires CreatedSound(v) && IndexSound(v) && id in v.e.records && Close(v, id, status, ps).Ok?
    ensures CreatedSound(Close(v, id, status, ps).value) && IndexSound(Close(v, id, status, ps).value)
  {
    CloseKeeps(v, id, status, ps);
    IndexKept(v, Close(v, id, status, ps).value);
  }

  /** Closing a live escrow with the payments its new status demands keeps all books but the
      volume counters. */
  lemma CloseBooks(v: Vault, id: nat, status: EscrowStatus, ps: seq<Payment>)
    requires SoundLedger(v.ledger) && RecordsSound(v) && PaidSound(v) && CreatedSound(v) && IndexSound(v)
    requires id in v.e.records && IsLive(v.e.records[id].status) && Close(v, id, status, ps).Ok?
    requires Settled(v.e.records[id].(status := status), ps)
    ensures var w := Close(v, id, status, ps).value;
            && SoundLedger(w.ledger) && RecordsSound(w) && PaidSound(w) && CreatedSound(w) && IndexSound(w)
  {
    PayAllEffect(v.ledger, v.e.records[id].token, ps);
    CloseRecords(v, id, status, ps);
    ClosePaid(v, id, status, ps);
    CloseIndexes(v, id, status, ps);
  }

  lemma CloseVolume(v: Vault, id: nat, status: EscrowStatus, ps: seq<Payment>)
    requires VolumeSound(v) && id in v.e.records && IsLive(v.e.records[id].status)
    requires status != Released && Close(v, id, status, ps).Ok?
    ensures VolumeSound(Close(v, id, status, ps).value)
  {
    var w := Close(v, id, status, ps).value;
    var r := v.e.records[id].(status := status);
    assert w.e.records == v.e.records[id := r] && w.e.senderVolume == v.e.senderVolume;
    forall s ensures Volume(w.e, s) == Min(U32_MAX, ReleasedCount(w.e.records, s)) {
      CountAfter(v.e.records, id, r, s);
      assert Volume(w.e, s) == Volume(v.e, s);
    }
  }

  /** The counter of the sender, and nobody else's, goes up with a release. */
  lemma PayDriverVolume(v: Vault, fleet: Fleet.FleetState, id: nat)
    requires VolumeSound(v) && id in v.e.records && IsLive(v.e.records[id].status)
    requires PayDriver(v, fleet, id).Ok?
    ensures VolumeSound(PayDriver(v, fleet, id).value)
  {
    var r := v.e.records[id];
    var w := PayDriver(v, fleet, id).value;
    assert w.e.records == v.e.records[id := r.(status := Released)];
    forall s ensures Volume(w.e, s) == Min(U32_MAX, ReleasedCount(w.e.records, s)) {
      CountAfter(v.e.records, id, r.(status := Released), s);
      CountNonNegative(v.e.records, s);
      assert Volume(w.e, s) == if s == r.sender then Min(U32_MAX, Volume(v.e, s) + 1) else Volume(v.e, s);
    }
  }

  /** Whoever is paid, a release makes the payments its status demands. */
  lemma ReleaseIsSettled(v: Vault, id: nat, payee: Address)
    requires id in v.e.records && v.e.feeBps <= MAX_PLATFORM_FEE_BPS
    ensures Settled(v.e.records[id].(status := Released), ReleasePayments(v, id, payee))
  {
  }

  /** A settling call makes the payments its final status demands. */
  lemma SettlingIsSettled(v: Vault, tick: EscrowTick) returns (u: Vault, ps: seq<Payment>)
    requires RecordsSound(v)
    requires IsSettling(tick.call) && EscrowDo(v, tick.fleet, tick.now, tick.call).Ok?
    ensures var id := tick.call.id;
            && id in v.e.records && IsLive(v.e.records[id].status)
            && u == v.(e := v.e.(senderVolume := u.e.senderVolume))
            && EscrowDo(v, tick.fleet, tick.now, tick.call) == Close(u, id, FinalStatus(tick.call), ps)
            && Settled(v.e.records[id].(status := FinalStatus(tick.call)), ps)
            && PaymentSum(ps) == v.e.records[id].amount && forall p :: p in ps ==> p.amount >= 0
  {
    u, ps := SettlingIsClose(v, tick);
    var r := v.e.records[tick.call.id];
    if IsRelease(tick.call) {
      ReleaseIsSettled(v, tick.call.id, Payee(v.e, tick.fleet, r).value);
    } else if tick.call.ResolveSplit? {
      assert ps == SplitPayments(r.(status := Split), tick.call.senderBps);
    }
    SettledExactly(r.(status := FinalStatus(tick.call)), ps);
  }

  lemma SettlingVolume(v: Vault, tick: EscrowTick)
    requires Books(v) && IsSettling(tick.call) && EscrowDo(v, tick.fleet, tick.now, tick.call).Ok?
    ensures VolumeSound(EscrowStep(v, tick))
  {
    var u, ps := SettlingIsClose(v, tick);
    if IsRelease(tick.call) {
      assert EscrowDo(v, tick.fleet, tick.now, tick.call) == PayDriver(v, tick.fleet, tick.call.id);
      PayDriverVolume(v, tick.fleet, tick.call.id);
    } else {
      CloseVolume(v, tick.call.id, FinalStatus(tick.call), ps);
    }
  }

  lemma SettlingBooks(v: Vault, tick: EscrowTick)
    requires Books(v) && IsSettling(tick.call) && EscrowDo(v, tick.fleet, tick.now, tick.call).Ok?
    ensures Books(EscrowStep(v, tick))
  {
    var u, ps := SettlingIsSettled(v, tick);
    CloseBooks(u, tick.call.id, FinalStatus(tick.call), ps);
    SettlingVolume(v, tick);
  }

  /** Changes outside the records that the books do not depend on. */
  lemma OutsideBooks(v: Vault, w: Vault)
    requires Books(v) && SoundLedger(w.ledger)
    requires w.e.records == v.e.records && w.e.senderVolume == v.e.senderVolume && w.audit.created == v.audit.created
    requires w.audit.paid == v.audit.paid && w.e.feeBps <= MAX_PLATFORM_FEE_BPS
    requires forall id :: id in w.audit.batched ==> id in w.e.records
    requires forall key :: Ids(w.e.index, key) == Ids(v.e.index, key)
    ensures Books(w)
  {
    forall key ensures Ids(w.e.index, key) == Naming(w.audit.created, w.e.records, key) {
      assert Ids(v.e.index, key) == Naming(v.audit.created, v.e.records, key);
    }
    forall s ensures Volume(w.e, s) == Min(U32_MAX, ReleasedCount(w.e.records, s)) {
      assert Volume(v.e, s) == Volume(w.e, s);
    }
  }

  // ── Every call, every run ───────────────────────────────────────────────────

  lemma CreateBooks(v: Vault, now: nat, sender: Address, recipient: Address, driver: Address, id: nat,
                    token: Address, amount: int, fleetId: Option<nat>)
    requires Books(v) && Create(v, now, sender, recipient, driver, id, token, amount, fleetId).Ok?
    ensures Books(Create(v, now, sender, recipient, driver, id, token, amount, fleetId).value)
  {
    var r := NewRecord(now, sender, recipient, driver, token, amount, fleetId);
    LockBooks(v, id, r);
    OutsideBooks(Lock(v, id, r).value, Create(v, now, sender, recipient, driver, id, token, amount, fleetId).value);
  }

  lemma {:induction false} LockAllBooks(v: Vault, now: nat, sender: Address, recipient: Address, token: Address, items: seq<BatchItem>)
    requires Books(v) && sender != EscrowAddress
    requires LockAll(v, now, sender, recipient, token, items).Ok?
    ensures Books(LockAll(v, now, sender, recipient, token, items).value)
    decreases |items|
  {
    if items != [] {
      var last := items[|items| - 1];
      LockAllBooks(v, now, sender, recipient, token, items[..|items| - 1]);
      var w := LockAll(v, now, sender, recipient, token, items[..|items| - 1]).value;
      var r := NewRecord(now, sender, recipient, last.driver, token, last.amount, None);
      LockBooks(w, last.id, r);
      OutsideBooks(Lock(w, last.id, r).value, LockItem(w, now, sender, recipient, token, last).value);
    }
  }

  lemma CreateAllBooks(v: Vault, now: nat, sender: Address, recipient: Address, token: Address, items: seq<BatchItem>)
    requires Books(v) && CreateAll(v, now, sender, recipient, token, items).Ok?
    ensures Books(CreateAll(v, now, sender, recipient, token, items).value)
  {
    LockAllBooks(v, now, sender, recipient, token, items);
    OutsideBooks(LockAll(v, now, sender, recipient, token, items).value, CreateAll(v, now, sender, recipient, token, items).value);
  }

  lemma SweepBooks(v: Vault, caller: Address, token: Address, recipient: Address)
    requires Books(v) && DoSweep(v, caller, token, recipient).Ok?
    ensures Books(DoSweep(v, caller, token, recipient).value)
  {
    var w := DoSweep(v, caller, token, recipient).value;
    if w != v {
      TransferEffect(v.ledger, token, EscrowAddress, recipient, SatSub(Held(v, token), TotalLocked(v.e, token)));
      OutsideBooks(v, w);
    }
  }

  lemma TokenTransferBooks(v: Vault, token: Address, from: Address, to: Address, amount: int)
    requires Books(v) && DoTokenTransfer(v, token, from, to, amount).Ok?
    ensures Books(DoTokenTransfer(v, token, from, to, amount).value)
  {
    TransferEffect(v.ledger, token, from, to, amount);
    OutsideBooks(v, DoTokenTransfer(v, token, from, to, amount).value);
  }

  lemma FundingBooks(v: Vault, tick: EscrowTick)
    requires Books(v) && IsFunding(tick.call) && EscrowDo(v, tick.fleet, tick.now, tick.call).Ok?
    ensures Books(EscrowStep(v, tick))
  {
    match tick.call
    case CreateEscrow(sender, recipient, driver, id, token, amount, fleetId) =>
      CreateBooks(v, tick.now, sender, recipient, driver, id, token, amount, fleetId);
    case CreateBatch(sender, recipient, token, items) => CreateAllBooks(v, tick.now, sender, recipient, token, items);
  }

  lemma StampingBooks(v: Vault, tick: EscrowTick)
    requires Books(v) && IsStamping(tick.call) && EscrowDo(v, tick.fleet, tick.now, tick.call).Ok?
    ensures Books(EscrowStep(v, tick))
  {
    var r := StampingIsStore(v, tick);
    if EscrowStep(v, tick) != v {
      StoreBooks(v, tick.call.id, r);
    }
  }

  lemma OtherBooks(v: Vault, tick: EscrowTick)
    requires Books(v) && !IsFunding(tick.call) && !IsStamping(tick.call) && !IsSettling(tick.call)
    requires EscrowDo(v, tick.fleet, tick.now, tick.call).Ok?
    ensures Books(EscrowStep(v, tick))
  {
    match tick.call
    case Sweep(caller, token, recipient) => SweepBooks(v, caller, token, recipient);
    case UpdateFee(caller, bps) => OutsideBooks(v, EscrowStep(v, tick));
    case Reconfigure(_, _, _, _, _) => OutsideBooks(v, EscrowStep(v, tick));
    case TokenTransfer(token, from, to, amount) => TokenTransferBooks(v, token, from, to, amount);
  }

  /** Every call keeps the books, from any state in which they are in order. */
  lemma EscrowStepBooks(v: Vault, tick: EscrowTick)
    requires Books(v)
    ensures Books(EscrowStep(v, tick))
  {
    if EscrowDo(v, tick.fleet, tick.now, tick.call).Ok? {
      if IsFunding(tick.call) {
        FundingBooks(v, tick);
      } else if IsSettling(tick.call) {
        SettlingBooks(v, tick);
      } else if IsStamping(tick.call) {
        StampingBooks(v, tick);
      } else {
        OtherBooks(v, tick);
      }
    }
  }

  /** The books are in order in every reachable state. */
  lemma {:induction false} EscrowRunBooks(v: Vault, ticks: seq<EscrowTick>)
    requires Initial(v)
    ensures Books(EscrowRun(v, ticks))
    decreases |ticks|
  {
    if ticks == [] {
      assert Books(v);
    } else {
      EscrowRunBooks(v, ticks[..|ticks| - 1]);
      EscrowStepBooks(EscrowRun(v, ticks[..|ticks| - 1]), ticks[|ticks| - 1]);
    }
  }
}

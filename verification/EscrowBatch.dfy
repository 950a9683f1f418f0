/** Batch creation against single creation: same effect, except for the running total. */
module EscrowBatch {
  import opened Prelude
  import opened Token
  import opened Escrow

  // ── The cached index lists ──────────────────────────────────────────────────

  /** What a batch keeps in memory: the two party lists, and the list of every driver seen so far. */
  datatype Cache = Cache(senderIds: seq<nat>, recipientIds: seq<nat>, driverIds: Index)

  function LoadCache(stored: Index, sender: Address, recipient: Address): Cache {
    Cache(Ids(stored, BySender(sender)), Ids(stored, ByRecipient(recipient)), map[])
  }

  /** Appends one id to the cached lists, loading the driver's list on first sight. */
  function Remember(cache: Cache, stored: Index, driver: Address, id: nat): Cache {
    var key := ByDriver(driver);
    var ids := if key in cache.driverIds then cache.driverIds[key] else Ids(stored, key);
    Cache(cache.senderIds + [id], cache.recipientIds + [id], cache.driverIds[key := ids + [id]])
  }

  /** The index once the cache is written back. */
  function Written(stored: Index, sender: Address, recipient: Address, cache: Cache): Index {
    stored[BySender(sender) := cache.senderIds][ByRecipient(recipient) := cache.recipientIds] + cache.driverIds
  }

  function Touched(index: Index, sender: Address, recipient: Address): Index {
    Touch(Touch(index, BySender(sender)), ByRecipient(recipient))
  }

  /** Writing the cache back now would give the index that single calls would have built. */
  ghost predicate Faithful(stored: Index, built: Index, sender: Address, recipient: Address, cache: Cache) {
    && (forall key :: key in cache.driverIds ==> key.ByDriver?)
    && Written(stored, sender, recipient, cache) == Touched(built, sender, recipient)
  }

  lemma FreshCacheFaithful(stored: Index, sender: Address, recipient: Address)
    ensures Faithful(stored, stored, sender, recipient, LoadCache(stored, sender, recipient))
  {
  }

  lemma PutUnder(base: Index, top: Index, key: IndexKey, ids: seq<nat>)
    ensures key !in top ==> base[key := ids] + top == (base + top)[key := ids]
    ensures base + top[key := ids] == (base + top)[key := ids]
  {
    assert base + top[key := ids] == (base + top)[key := ids];
  }

  lemma WrittenGrows(stored: Index, sender: Address, recipient: Address, cache: Cache, driver: Address, id: nat)
    requires forall key :: key in cache.driverIds ==> key.ByDriver?
    ensures var w := Written(stored, sender, recipient, cache);
            Written(stored, sender, recipient, Remember(cache, stored, driver, id))
            == w[BySender(sender) := cache.senderIds + [id]][ByRecipient(recipient) := cache.recipientIds + [id]]
                [ByDriver(driver) := Ids(w, ByDriver(driver)) + [id]]
    ensures var w := Written(stored, sender, recipient, cache);
            Ids(w, BySender(sender)) == cache.senderIds && Ids(w, ByRecipient(recipient)) == cache.recipientIds
  {
    WrittenAs(stored, sender, recipient, cache);
    var next := Remember(cache, stored, driver, id);
    WrittenAs(stored, sender, recipient, next);
    PutUnder(stored, cache.driverIds, ByDriver(driver), next.driverIds[ByDriver(driver)]);
    PutOrder(stored + cache.driverIds, sender, recipient, driver, cache, next.senderIds, next.recipientIds, next.driverIds[ByDriver(driver)]);
  }

  lemma PutOrder(m: Index, sender: Address, recipient: Address, driver: Address, cache: Cache, s: seq<nat>, r: seq<nat>, d: seq<nat>)
    ensures m[ByDriver(driver) := d][BySender(sender) := s][ByRecipient(recipient) := r]
            == m[BySender(sender) := cache.senderIds][ByRecipient(recipient) := cache.recipientIds]
                [BySender(sender) := s][ByRecipient(recipient) := r][ByDriver(driver) := d]
  {
  }

  lemma WrittenAs(stored: Index, sender: Address, recipient: Address, cache: Cache)
    requires forall key :: key in cache.driverIds ==> key.ByDriver?
    ensures Written(stored, sender, recipient, cache)
            == (stored + cache.driverIds)[BySender(sender) := cache.senderIds][ByRecipient(recipient) := cache.recipientIds]
  {
    PutUnder(stored, cache.driverIds, BySender(sender), cache.senderIds);
    PutUnder(stored[BySender(sender) := cache.senderIds], cache.driverIds, ByRecipient(recipient), cache.recipientIds);
  }

  lemma TouchedGrows(built: Index, id: nat, r: EscrowRecord)
    ensures var t := Touched(built, r.sender, r.recipient);
            Touched(Indexed(built, id, r), r.sender, r.recipient)
            == t[BySender(r.sender) := Ids(t, BySender(r.sender)) + [id]][ByRecipient(r.recipient) := Ids(t, ByRecipient(r.recipient)) + [id]]
                [ByDriver(r.driver) := Ids(t, ByDriver(r.driver)) + [id]]
  {
  }

  /** The overlay invariant: remembering an id keeps the cache faithful to the index with that id added. */
  lemma RememberFaithful(stored: Index, built: Index, sender: Address, recipient: Address, cache: Cache, id: nat, r: EscrowRecord)
    requires Faithful(stored, built, sender, recipient, cache)
    requires r.sender == sender && r.recipient == recipient
    ensures Faithful(stored, Indexed(built, id, r), sender, recipient, Remember(cache, stored, r.driver, id))
  {
    WrittenGrows(stored, sender, recipient, cache, r.driver, id);
    TouchedGrows(built, id, r);
  }

  /** One round of the batch loop keeps the cache faithful. */
  lemma RoundFaithful(stored: Index, v: Vault, now: nat, sender: Address, recipient: Address, token: Address, item: BatchItem, cache: Cache)
    requires Faithful(stored, v.e.index, sender, recipient, cache)
    ensures match LockItem(v, now, sender, recipient, token, item)
            case Ok(w) => Faithful(stored, w.e.index, sender, recipient, Remember(cache, stored, item.driver, item.id))
            case Err(_) => true
  {
    var r := NewRecord(now, sender, recipient, item.driver, token, item.amount, None);
    if item.id !in v.e.records {
      LockParts(v, item.id, r);
      RememberFaithful(stored, v.e.index, sender, recipient, cache, item.id, r);
    }
  }

  /** The first item that fails decides the outcome of the whole list. */
  lemma {:induction false} PrefixFails(v: Vault, now: nat, sender: Address, recipient: Address, token: Address, items: seq<BatchItem>, n: nat)
    requires n <= |items|
    ensures LockAll(v, now, sender, recipient, token, items[..n]).Err? ==>
              LockAll(v, now, sender, recipient, token, items) == LockAll(v, now, sender, recipient, token, items[..n])
    decreases |items|
  {
    if n == |items| {
      assert items[..n] == items;
    } else {
      var init := items[..|items| - 1];
      assert init[..n] == items[..n];
      PrefixFails(v, now, sender, recipient, token, init, n);
    }
  }

  /** What the next item means for the prefix, and for the whole list should it fail. */
  lemma LockAllStep(v: Vault, now: nat, sender: Address, recipient: Address, token: Address, items: seq<BatchItem>, i: nat)
    requires i < |items| && LockAll(v, now, sender, recipient, token, items[..i]).Ok?
    ensures var next := LockItem(LockAll(v, now, sender, recipient, token, items[..i]).value, now, sender, recipient, token, items[i]);
            && LockAll(v, now, sender, recipient, token, items[..i + 1]) == next
            && (next.Err? ==> LockAll(v, now, sender, recipient, token, items) == next)
  {
    assert items[..i + 1][..i] == items[..i];
    PrefixFails(v, now, sender, recipient, token, items, i + 1);
  }

  // ── A batch against single calls ────────────────────────────────────────────

  /** The same list, one create_escrow call at a time, stopping at the first failure. */
  function CreateEach(v: Vault, now: nat, sender: Address, recipient: Address, token: Address, items: seq<BatchItem>): Result<Vault>
    decreases |items|
  {
    if items == [] then Ok(v)
    else
      var last := items[|items| - 1];
      var w :- CreateEach(v, now, sender, recipient, token, items[..|items| - 1]);
      Create(w, now, sender, recipient, last.driver, last.id, token, last.amount, None)
  }

  function ItemSum(items: seq<BatchItem>): int
    decreases |items|
  {
    if items == [] then 0 else ItemSum(items[..|items| - 1]) + items[|items| - 1].amount
  }

  /** Equal in everything but the running total and the mark that an escrow came from a batch. */
  ghost predicate SameButTotal(v: Vault, w: Vault) {
    && v.e.(totalLocked := w.e.totalLocked) == w.e
    && v.ledger == w.ledger
    && v.audit.created == w.audit.created && v.audit.paid == w.audit.paid
  }

  lemma LockItemLikeCreate(v: Vault, w: Vault, now: nat, sender: Address, recipient: Address, token: Address, item: BatchItem)
    requires SameButTotal(v, w) && item.amount > 0 && token == v.e.token && sender != EscrowAddress
    ensures var b := LockItem(v, now, sender, recipient, token, item);
            var c := Create(w, now, sender, recipient, item.driver, item.id, token, item.amount, None);
            match b
            case Ok(bv) => c.Ok? && SameButTotal(bv, c.value)
            case Err(e) => c == Err(e)
    ensures LockItem(v, now, sender, recipient, token, item).Ok? ==>
              LockItem(v, now, sender, recipient, token, item).value.e.token == v.e.token
  {
  }

  lemma {:induction false} LockAllLikeCreateEach(v: Vault, now: nat, sender: Address, recipient: Address, token: Address, items: seq<BatchItem>)
    requires token == v.e.token && sender != EscrowAddress
    requires forall i :: 0 <= i < |items| ==> items[i].amount > 0
    ensures var b := LockAll(v, now, sender, recipient, token, items);
            var c := CreateEach(v, now, sender, recipient, token, items);
            match b
            case Ok(bv) => c.Ok? && SameButTotal(bv, c.value) && bv.e.token == v.e.token && bv.e.totalLocked == v.e.totalLocked
            case Err(e) => c == Err(e)
    decreases |items|
  {
    if items != [] {
      var init, last := items[..|items| - 1], items[|items| - 1];
      LockAllLikeCreateEach(v, now, sender, recipient, token, init);
      if LockAll(v, now, sender, recipient, token, init).Ok? {
        LockItemLikeCreate(LockAll(v, now, sender, recipient, token, init).value,
                           CreateEach(v, now, sender, recipient, token, init).value,
                           now, sender, recipient, token, last);
      }
    }
  }

  /** A batch of positive amounts in the configured token does what the single calls do: it fails
      exactly when they do and with the same error, and otherwise leaves the same records, balances
      and index lists. Only the running total differs: the batch leaves it as it was. */
  lemma BatchRefinesSingles(v: Vault, now: nat, sender: Address, recipient: Address, token: Address, items: seq<BatchItem>)
    requires token == v.e.token && sender != EscrowAddress && |items| <= MAX_BATCH_SIZE
    requires forall i :: 0 <= i < |items| ==> items[i].amount > 0
    ensures match CreateAll(v, now, sender, recipient, token, items)
            case Err(e) => CreateEach(v, now, sender, recipient, token, items) == Err(e)
            case Ok(b) =>
              CreateEach(v, now, sender, recipient, token, items).Ok? &&
              var c := CreateEach(v, now, sender, recipient, token, items).value;
              && b.e.records == c.e.records && b.ledger == c.ledger
              && b.e.senderVolume == c.e.senderVolume && b.audit.created == c.audit.created
              && (forall key :: Ids(b.e.index, key) == Ids(c.e.index, key))
              && b.e.totalLocked == v.e.totalLocked
  {
    LockAllLikeCreateEach(v, now, sender, recipient, token, items);
  }

  /** Every id is new to the contract and occurs once in the list. */
  ghost predicate FreshIds(v: Vault, items: seq<BatchItem>) {
    && (forall i :: 0 <= i < |items| ==> items[i].id !in v.e.records)
    && (forall i, j :: 0 <= i < j < |items| ==> items[i].id != items[j].id)
  }

  ghost predicate Fundable(v: Vault, sender: Address, token: Address, items: seq<BatchItem>) {
    && (forall i :: 0 <= i < |items| ==> items[i].amount >= 0)
    && ItemSum(items) <= Balance(v.ledger, token, sender)
  }

  ghost function ItemIds(items: seq<BatchItem>): set<nat> {
    set item | item in items :: item.id
  }

  lemma FreshSnoc(v: Vault, init: seq<BatchItem>, last: BatchItem)
    ensures FreshIds(v, init + [last]) <==>
            FreshIds(v, init) && last.id !in v.e.records && last.id !in ItemIds(init)
    ensures ItemIds(init + [last]) == ItemIds(init) + {last.id}
  {
    var items := init + [last];
    assert items[|init|] == last && forall i :: 0 <= i < |init| ==> items[i] == init[i];
    if last.id in ItemIds(init) {
      var item :| item in init && item.id == last.id;
      var i :| 0 <= i < |init| && init[i] == item;
      assert items[i].id == items[|init|].id;
    } else {
      forall i | 0 <= i < |init| ensures init[i].id != last.id {
        assert init[i] in init;
      }
    }
  }

  lemma FundableSnoc(v: Vault, sender: Address, token: Address, init: seq<BatchItem>, last: BatchItem)
    ensures ItemSum(init + [last]) == ItemSum(init) + last.amount
    ensures Fundable(v, sender, token, init + [last]) <==>
            Fundable(v, sender, token, init) && last.amount >= 0 && ItemSum(init) + last.amount <= Balance(v.ledger, token, sender)
  {
    var items := init + [last];
    assert items[..|init|] == init && items[|init|] == last && forall i :: 0 <= i < |init| ==> items[i] == init[i];
  }

  lemma LockItemSucceedsIff(w: Vault, now: nat, sender: Address, recipient: Address, token: Address, item: BatchItem)
    requires sender != EscrowAddress
    ensures LockItem(w, now, sender, recipient, token, item).Ok? <==>
            item.id !in w.e.records && 0 <= item.amount <= Balance(w.ledger, token, sender)
    ensures LockItem(w, now, sender, recipient, token, item).Ok? ==>
              var u := LockItem(w, now, sender, recipient, token, item).value;
              && u.e.records.Keys == w.e.records.Keys + {item.id}
              && Balance(u.ledger, token, sender) == Balance(w.ledger, token, sender) - item.amount
  {
    if Transfer(w.ledger, token, sender, EscrowAddress, item.amount).Ok? {
      TransferEffect(w.ledger, token, sender, EscrowAddress, item.amount);
    }
  }

  /** What the prefix's outcome and the last item's make of the whole list's. */
  lemma LastItemDecides(v: Vault, now: nat, sender: Address, recipient: Address, token: Address, init: seq<BatchItem>, last: BatchItem, w: Vault)
    requires sender != EscrowAddress && LockAll(v, now, sender, recipient, token, init) == Ok(w)
    requires FreshIds(v, init) && Fundable(v, sender, token, init)
    requires w.e.records.Keys == v.e.records.Keys + ItemIds(init)
    requires Balance(w.ledger, token, sender) == Balance(v.ledger, token, sender) - ItemSum(init)
    ensures LockItem(w, now, sender, recipient, token, last).Ok? <==>
            FreshIds(v, init + [last]) && Fundable(v, sender, token, init + [last])
    ensures LockItem(w, now, sender, recipient, token, last).Ok? ==>
              var u := LockItem(w, now, sender, recipient, token, last).value;
              && u.e.records.Keys == v.e.records.Keys + ItemIds(init + [last])
              && Balance(u.ledger, token, sender) == Balance(v.ledger, token, sender) - ItemSum(init + [last])
  {
    FreshSnoc(v, init, last);
    FundableSnoc(v, sender, token, init, last);
    LockItemSucceedsIff(w, now, sender, recipient, token, last);
  }

  lemma {:induction false} LockAllSucceedsIff(v: Vault, now: nat, sender: Address, recipient: Address, token: Address, items: seq<BatchItem>)
    requires SoundLedger(v.ledger) && sender != EscrowAddress
    ensures LockAll(v, now, sender, recipient, token, items).Ok? <==> FreshIds(v, items) && Fundable(v, sender, token, items)
    ensures LockAll(v, now, sender, recipient, token, items).Ok? ==>
              var w := LockAll(v, now, sender, recipient, token, items).value;
              && w.e.records.Keys == v.e.records.Keys + ItemIds(items)
              && Balance(w.ledger, token, sender) == Balance(v.ledger, token, sender) - ItemSum(items)
    decreases |items|
  {
    if items == [] {
      BalanceWithinSupply(v.ledger, token, sender);
    } else {
      var init, last := items[..|items| - 1], items[|items| - 1];
      LockAllSucceedsIff(v, now, sender, recipient, token, init);
      assert items == init + [last];
      if LockAll(v, now, sender, recipient, token, init).Ok? {
        LastItemDecides(v, now, sender, recipient, token, init, last, LockAll(v, now, sender, recipient, token, init).value);
      } else {
        FreshSnoc(v, init, last);
        FundableSnoc(v, sender, token, init, last);
      }
    }
  }

  /** A batch is rejected whole exactly when it is too long, names an existing or repeated id,
      holds a negative amount, or asks for more than the sender has. */
  lemma BatchAcceptedIff(v: Vault, now: nat, sender: Address, recipient: Address, token: Address, items: seq<BatchItem>)
    requires SoundLedger(v.ledger)
    ensures CreateAll(v, now, sender, recipient, token, items).Ok? <==>
            sender != EscrowAddress && |items| <= 100 && FreshIds(v, items) && Fundable(v, sender, token, items)
  {
    if sender != EscrowAddress {
      LockAllSucceedsIff(v, now, sender, recipient, token, items);
    }
  }
}

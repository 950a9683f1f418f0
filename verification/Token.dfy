/** The asset contract the escrow moves money with: one balance per (token, holder). */
module Token {
  import opened Prelude
  import opened Sums

  datatype Holding = Holding(token: Address, holder: Address)

  type Ledger = map<Holding, int>

  /** One payment out of the escrow contract. */
  datatype Payment = Payment(to: Address, amount: int)

  function Balance(l: Ledger, token: Address, holder: Address): int {
    if Holding(token, holder) in l then l[Holding(token, holder)] else 0
  }

  /** Moves money, refusing negative amounts and overdrafts. */
  function Transfer(l: Ledger, token: Address, from: Address, to: Address, amount: int): Result<Ledger> {
    if amount < 0 then Err(NegativeTransfer)
    else if Balance(l, token, from) < amount then Err(Overdraft)
    else
      var debited := l[Holding(token, from) := Balance(l, token, from) - amount];
      Ok(debited[Holding(token, to) := Balance(debited, token, to) + amount])
  }

  function SupplyWeight(token: Address): (Holding, int) -> int {
    (h: Holding, x: int) => if h.token == token then x else 0
  }

  /** All the money of one token there is. */
  ghost function Supply(l: Ledger, token: Address): int {
    Total(l, SupplyWeight(token))
  }

  /** Balances are non-negative and each token's supply fits the chain's 128-bit amounts. */
  ghost predicate SoundLedger(l: Ledger) {
    && (forall h :: h in l ==> l[h] >= 0)
    && (forall token :: Supply(l, token) <= I128_MAX)
  }

  /** A transfer changes exactly the two balances it names, by exactly the amount; it is a
      no-op when both ends are the same, and it never changes a supply. */
  lemma TransferEffect(l: Ledger, token: Address, from: Address, to: Address, amount: int)
    requires Transfer(l, token, from, to, amount).Ok?
    ensures var r := Transfer(l, token, from, to, amount).value;
            && (forall t, a :: Balance(r, t, a) == Balance(l, t, a)
                               + (if t == token && a == to then amount else 0)
                               - (if t == token && a == from then amount else 0))
            && (forall t :: Supply(r, t) == Supply(l, t))
            && (SoundLedger(l) ==> SoundLedger(r))
  {
    var debited := l[Holding(token, from) := Balance(l, token, from) - amount];
    var r := debited[Holding(token, to) := Balance(debited, token, to) + amount];
    forall t ensures Supply(r, t) == Supply(l, t) {
      TotalPut(l, SupplyWeight(t), Holding(token, from), Balance(l, token, from) - amount);
      TotalPut(debited, SupplyWeight(t), Holding(token, to), Balance(debited, token, to) + amount);
    }
  }

  /** Nobody owns more than there is. */
  lemma BalanceWithinSupply(l: Ledger, token: Address, holder: Address)
    requires SoundLedger(l)
    ensures 0 <= Balance(l, token, holder) <= Supply(l, token) <= I128_MAX
  {
    if Holding(token, holder) in l {
      TotalBounds(l, SupplyWeight(token), Holding(token, holder));
    } else {
      TotalNonNegative(l, SupplyWeight(token));
    }
  }

  function PaymentSum(ps: seq<Payment>): int {
    if ps == [] then 0 else ps[0].amount + PaymentSum(ps[1..])
  }

  function Received(ps: seq<Payment>, who: Address): int {
    if ps == [] then 0
    else (if ps[0].to == who then ps[0].amount else 0) + Received(ps[1..], who)
  }

  /** Pays every payment of the list out of the escrow contract's balance, in order. */
  function PayAll(l: Ledger, token: Address, ps: seq<Payment>): Result<Ledger>
    decreases |ps|
  {
    if ps == [] then Ok(l)
    else
      var rest :- Transfer(l, token, EscrowAddress, ps[0].to, ps[0].amount);
      PayAll(rest, token, ps[1..])
  }

  /** What a payment list does to every balance, whoever the payees are. */
  lemma {:induction false} PayAllEffect(l: Ledger, token: Address, ps: seq<Payment>)
    requires PayAll(l, token, ps).Ok?
    ensures var r := PayAll(l, token, ps).value;
            && (forall t, a :: Balance(r, t, a) == Balance(l, t, a)
                               + (if t == token then Received(ps, a) else 0)
                               - (if t == token && a == EscrowAddress then PaymentSum(ps) else 0))
            && (forall t :: Supply(r, t) == Supply(l, t))
            && (SoundLedger(l) ==> SoundLedger(r))
    decreases |ps|
  {
    if ps != [] {
      TransferEffect(l, token, EscrowAddress, ps[0].to, ps[0].amount);
      PayAllEffect(Transfer(l, token, EscrowAddress, ps[0].to, ps[0].amount).value, token, ps[1..]);
    }
  }

  /** Non-negative payments within the balance always go through. */
  lemma {:induction false} PayAllSucceeds(l: Ledger, token: Address, ps: seq<Payment>)
    requires forall i :: 0 <= i < |ps| ==> ps[i].amount >= 0
    requires PaymentSum(ps) <= Balance(l, token, EscrowAddress)
    ensures PayAll(l, token, ps).Ok?
    decreases |ps|
  {
    if ps != [] {
      PaymentSumNonNegative(ps[1..]);
      TransferEffect(l, token, EscrowAddress, ps[0].to, ps[0].amount);
      PayAllSucceeds(Transfer(l, token, EscrowAddress, ps[0].to, ps[0].amount).value, token, ps[1..]);
    }
  }

  lemma {:induction false} PaymentSumNonNegative(ps: seq<Payment>)
    requires forall i :: 0 <= i < |ps| ==> ps[i].amount >= 0
    ensures PaymentSum(ps) >= 0
    decreases |ps|
  {
    if ps != [] {
      PaymentSumNonNegative(ps[1..]);
    }
  }

  /** The asset contract as an object: its balances are overwritten by every transfer. */
  class TokenLedger {
    var balances: Ledger

    constructor ()
      ensures balances == map[]
    {
      balances := map[];
    }

    method Move(token: Address, from: Address, to: Address, amount: int) returns (r: Result<Unit>)
      modifies this
      ensures match Transfer(old(balances), token, from, to, amount)
              case Ok(after) => r == Ok(Unit) && balances == after
              case Err(e) => r == Err(e) && balances == old(balances)
    {
      if amount < 0 {
        return Err(NegativeTransfer);
      }
      var available := Balance(balances, token, from);
      if available < amount {
        return Err(Overdraft);
      }
      balances := balances[Holding(token, from) := available - amount];
      balances := balances[Holding(token, to) := Balance(balances, token, to) + amount];
      return Ok(Unit);
    }

    /** The host discards the writes of a call that panicked. */
    method Rollback(saved: Ledger)
      modifies this
      ensures balances == saved
    {
      balances := saved;
    }
  }
}

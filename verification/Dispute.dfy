/** The dispute contract: cases over deliveries, resolved through the escrow contract. */
module Disputes {
  import opened Prelude
  import Escrow
  import Delivery
  import Fleet

  const DEFAULT_SENDER_SHARE_BPS: nat := 5000

  type Hash = string

  datatype DisputeStatus = Open | ResolvedRefund | ResolvedPayout | SplitFunds

  datatype DisputeCase = DisputeCase(
    id: nat, status: DisputeStatus, raisedAt: nat, raisedBy: Address, evidence: seq<Hash>,
    resolvedAt: Option<nat>, resolvedBy: Option<Address>)

  /** The contract's storage, and one piece of history no entry point reads: which cases were
      closed by force rather than by an admin. */
  datatype DisputeState = DisputeState(
    admins: set<Address>, timeLimit: nat, resolutionLimit: nat,
    cases: map<nat, DisputeCase>, forced: set<nat>)

  /** The three contracts a dispute touches. */
  datatype Triple = Triple(q: DisputeState, d: Delivery.DeliveryState, v: Escrow.Vault)

  datatype DisputeCall =
    | Raise(caller: Address, id: nat)
    | AddEvidence(caller: Address, id: nat, hash: Hash)
    | RefundSender(caller: Address, id: nat)
    | SplitBetween(caller: Address, id: nat, senderBps: nat)
    | PayDriver(caller: Address, id: nat)
    | ForceResolve(caller: Address, id: nat)
    // Any outcome of the admin list and the two limit setters.
    | Reconfigure(admins: set<Address>, timeLimit: nat, resolutionLimit: nat)

  function LoadCase(q: DisputeState, id: nat): Result<DisputeCase> {
    if id in q.cases then Ok(q.cases[id]) else Err(NotFound)
  }

  predicate IsParty(r: Delivery.DeliveryRecord, caller: Address) {
    caller == r.sender || caller == r.recipient || Some(caller) == r.driver
  }

  function NewCase(id: nat, now: nat, caller: Address): DisputeCase {
    DisputeCase(id, Open, now, caller, [], None, None)
  }

  function Closed(c: DisputeCase, status: DisputeStatus, now: nat, caller: Address): DisputeCase {
    c.(status := status, resolvedAt := Some(now), resolvedBy := Some(caller))
  }

  /** Whether a delivery may still be disputed: at once while under way, for a limited time after delivery. */
  function DisputeWindow(q: DisputeState, r: Delivery.DeliveryRecord, now: nat): Result<Unit> {
    match r.status
    case Delivered =>
      var deadline :- AddU64(if r.deliveredAt.Some? then r.deliveredAt.value else 0, q.timeLimit);
      if now > deadline then Err(InvalidState) else Ok(Unit)
    case Active => Ok(Unit)
    case InTransit => Ok(Unit)
    case _ => Err(InvalidState)
  }

  /** The window exactly: always while under way, and from delivery for as long as the limit says. */
  lemma WindowOpenIff(q: DisputeState, r: Delivery.DeliveryRecord, now: nat)
    ensures DisputeWindow(q, r, now).Ok? <==>
            || r.status in {Delivery.Active, Delivery.InTransit}
            || (r.status == Delivery.Delivered &&
                var end := q.timeLimit + if r.deliveredAt.Some? then r.deliveredAt.value else 0;
                now <= end <= U64_MAX)
  {
  }

  function DoRaise(t: Triple, now: nat, caller: Address, id: nat): Result<Triple> {
    var r :- Delivery.Load(t.d, id);
    if !IsParty(r, caller) then Err(Unauthorized)
    else
      var _ :- DisputeWindow(t.q, r, now);
      var p :- Delivery.DoDispute(Delivery.Pair(t.d, t.v), now, caller, id);
      var v :- Escrow.DoFreezeFunds(p.v, now, DisputeAddress, id);
      if id in t.q.cases then Err(Duplicate)
      else Ok(Triple(t.q.(cases := t.q.cases[id := NewCase(id, now, caller)]), p.d, v))
  }

  /** The two cross-contract calls of raising a case. */
  function DisputeAndFreeze(p: Delivery.Pair, now: nat, caller: Address, id: nat): Result<Delivery.Pair> {
    var disputed :- Delivery.DoDispute(p, now, caller, id);
    var frozen :- Escrow.DoFreezeFunds(disputed.v, now, DisputeAddress, id);
    Ok(disputed.(v := frozen))
  }

  /** Once the caller and the window are checked, raising a case is those two calls and a fresh case. */
  lemma RaiseParts(t: Triple, now: nat, caller: Address, id: nat)
    requires id in t.d.records && IsParty(t.d.records[id], caller) && DisputeWindow(t.q, t.d.records[id], now).Ok?
    ensures match DisputeAndFreeze(Delivery.Pair(t.d, t.v), now, caller, id)
            case Err(e) => DoRaise(t, now, caller, id) == Err(e)
            case Ok(p) =>
              DoRaise(t, now, caller, id) ==
              if id in t.q.cases then Err(Duplicate)
              else Ok(Triple(t.q.(cases := t.q.cases[id := NewCase(id, now, caller)]), p.d, p.v))
  {
  }

  /** A case that is raised passed every check, and the two calls went through. */
  lemma RaiseOk(t: Triple, now: nat, caller: Address, id: nat) returns (p: Delivery.Pair, v: Escrow.Vault)
    requires DoRaise(t, now, caller, id).Ok?
    ensures Delivery.DoDispute(Delivery.Pair(t.d, t.v), now, caller, id) == Ok(p)
    ensures Escrow.DoFreezeFunds(p.v, now, DisputeAddress, id) == Ok(v) && id !in t.q.cases
    ensures DoRaise(t, now, caller, id).value == Triple(t.q.(cases := t.q.cases[id := NewCase(id, now, caller)]), p.d, v)
  {
    RaiseParts(t, now, caller, id);
    p := Delivery.DoDispute(Delivery.Pair(t.d, t.v), now, caller, id).value;
    v := Escrow.DoFreezeFunds(p.v, now, DisputeAddress, id).value;
  }

  function DoAddEvidence(t: Triple, caller: Address, id: nat, hash: Hash): Result<Triple> {
    var c :- LoadCase(t.q, id);
    if c.status != Open then Err(InvalidState)
    else
      var r :- Delivery.Load(t.d, id);
      if !IsParty(r, caller) then Err(Unauthorized)
      else Ok(t.(q := t.q.(cases := t.q.cases[id := c.(evidence := c.evidence + [hash])])))
  }

  /** Evidence is taken exactly from sender, recipient or driver of the delivery while the case is open;
      it goes to the end of the case's list, and nothing else changes. */
  lemma AddEvidenceSucceedsIff(t: Triple, caller: Address, id: nat, hash: Hash)
    ensures DoAddEvidence(t, caller, id, hash).Ok? <==>
            && id in t.q.cases && t.q.cases[id].status == Open && id in t.d.records
            && (caller in {t.d.records[id].sender, t.d.records[id].recipient} || t.d.records[id].driver == Some(caller))
    ensures DoAddEvidence(t, caller, id, hash).Ok? ==>
              DoAddEvidence(t, caller, id, hash).value
              == t.(q := t.q.(cases := t.q.cases[id := t.q.cases[id].(evidence := t.q.cases[id].evidence + [hash])]))
  {
  }

  function Resolve(t: Triple, c: DisputeCase, status: DisputeStatus, now: nat, caller: Address, id: nat, v: Escrow.Vault): Triple {
    t.(q := t.q.(cases := t.q.cases[id := Closed(c, status, now, caller)]), v := v)
  }

  function DoRefundSender(t: Triple, fleet: Fleet.FleetState, now: nat, caller: Address, id: nat): Result<Triple> {
    if caller !in t.q.admins then Err(Unauthorized)
    else
      var c :- LoadCase(t.q, id);
      if c.status != Open then Err(InvalidState)
      else
        var r :- Delivery.Load(t.d, id);
        if r.driver.None? then Err(NotFound)
        else
          var v :- Escrow.DoResolveDispute(t.v, fleet, caller, id, false);
          Ok(Resolve(t, c, ResolvedRefund, now, caller, id, v))
  }

  function DoSplitBetween(t: Triple, now: nat, caller: Address, id: nat, senderBps: nat): Result<Triple> {
    if caller !in t.q.admins then Err(Unauthorized)
    else
      var c :- LoadCase(t.q, id);
      if c.status != Open then Err(InvalidState)
      else
        var e :- Escrow.Load(t.v.e, id);
        if e.status != Escrow.Paused then Err(InvalidState)
        else
          var _ :- Delivery.Load(t.d, id);
          var v :- Escrow.DoResolveSplit(t.v, caller, id, senderBps);
          Ok(Resolve(t, c, SplitFunds, now, caller, id, v))
  }

  function DoPayDriver(t: Triple, fleet: Fleet.FleetState, now: nat, caller: Address, id: nat): Result<Triple> {
    if caller !in t.q.admins then Err(Unauthorized)
    else
      var c :- LoadCase(t.q, id);
      if c.status != Open then Err(InvalidState)
      else
        var v :- Escrow.DoResolveDispute(t.v, fleet, caller, id, true);
        var _ :- Delivery.Load(t.d, id);
        Ok(Resolve(t, c, ResolvedPayout, now, caller, id, v))
  }

  function DoForceResolve(t: Triple, now: nat, caller: Address, id: nat): Result<Triple> {
    var c :- LoadCase(t.q, id);
    if c.status != Open then Err(InvalidState)
    else
      var r :- Delivery.Load(t.d, id);
      if !IsParty(r, caller) then Err(Unauthorized)
      else
        var deadline :- AddU64(c.raisedAt, t.q.resolutionLimit);
        if now <= deadline then Err(InvalidState)
        else
          var e :- Escrow.Load(t.v.e, id);
          var v :- if e.status == Escrow.Paused
                   then Escrow.DoResolveSplit(t.v, caller, id, DEFAULT_SENDER_SHARE_BPS) else Ok(t.v);
          var s := Resolve(t, c, SplitFunds, now, caller, id, v);
          Ok(s.(q := s.q.(forced := s.q.forced + {id})))
  }

  /** Once the case is overdue, forcing it is the default split of a paused escrow, or nothing, and closing it. */
  lemma ForceParts(t: Triple, now: nat, caller: Address, id: nat)
    requires id in t.q.cases && t.q.cases[id].status == Open
    requires id in t.d.records && IsParty(t.d.records[id], caller)
    requires AddU64(t.q.cases[id].raisedAt, t.q.resolutionLimit).Ok? && t.q.cases[id].raisedAt + t.q.resolutionLimit < now
    ensures DoForceResolve(t, now, caller, id) ==
            if id !in t.v.e.records then Err(NotFound)
            else
              var v := if t.v.e.records[id].status == Escrow.Paused
                       then Escrow.DoResolveSplit(t.v, caller, id, DEFAULT_SENDER_SHARE_BPS) else Ok(t.v);
              if v.Err? then Err(v.error)
              else Ok(Triple(t.q.(cases := t.q.cases[id := Closed(t.q.cases[id], SplitFunds, now, caller)],
                                  forced := t.q.forced + {id}), t.d, v.value))
  {
  }

  /** A resolution that was forced found everything in place. */
  lemma ForceOk(t: Triple, now: nat, caller: Address, id: nat) returns (v: Escrow.Vault)
    requires DoForceResolve(t, now, caller, id).Ok?
    ensures id in t.q.cases && t.q.cases[id].status == Open && id in t.d.records && id in t.v.e.records
    ensures if t.v.e.records[id].status == Escrow.Paused
            then Escrow.DoResolveSplit(t.v, caller, id, DEFAULT_SENDER_SHARE_BPS) == Ok(v) else v == t.v
    ensures DoForceResolve(t, now, caller, id).value
         == Triple(t.q.(cases := t.q.cases[id := Closed(t.q.cases[id], SplitFunds, now, caller)], forced := t.q.forced + {id}), t.d, v)
  {
    ForceParts(t, now, caller, id);
    v := DoForceResolve(t, now, caller, id).value.v;
  }

  function DisputeDo(t: Triple, fleet: Fleet.FleetState, now: nat, call: DisputeCall): Result<Triple> {
    match call
    case Raise(caller, id) => DoRaise(t, now, caller, id)
    case AddEvidence(caller, id, hash) => DoAddEvidence(t, caller, id, hash)
    case RefundSender(caller, id) => DoRefundSender(t, fleet, now, caller, id)
    case SplitBetween(caller, id, senderBps) => DoSplitBetween(t, now, caller, id, senderBps)
    case PayDriver(caller, id) => DoPayDriver(t, fleet, now, caller, id)
    case ForceResolve(caller, id) => DoForceResolve(t, now, caller, id)
    case Reconfigure(admins, timeLimit, resolutionLimit) =>
      Ok(t.(q := t.q.(admins := admins, timeLimit := timeLimit, resolutionLimit := resolutionLimit)))
  }

  /** A refund, payout or split that an admin decided went through. */
  lemma AdminOk(t: Triple, fleet: Fleet.FleetState, now: nat, call: DisputeCall)
    requires (call.RefundSender? || call.PayDriver? || call.SplitBetween?) && DisputeDo(t, fleet, now, call).Ok?
    ensures match call
            case RefundSender(caller, id) => Escrow.DoResolveDispute(t.v, fleet, caller, id, false).Ok?
            case PayDriver(caller, id) => Escrow.DoResolveDispute(t.v, fleet, caller, id, true).Ok?
            case SplitBetween(caller, id, senderBps) => Escrow.DoResolveSplit(t.v, caller, id, senderBps).Ok?
            case _ => true
  {
  }

  /** Every admin resolution needs the escrow to be paused still. */
  lemma AdminsNeedPaused(t: Triple, fleet: Fleet.FleetState, now: nat, caller: Address, id: nat, senderBps: nat)
    requires id in t.v.e.records ==> t.v.e.records[id].status != Escrow.Paused
    ensures DoRefundSender(t, fleet, now, caller, id).Err?
    ensures DoPayDriver(t, fleet, now, caller, id).Err?
    ensures DoSplitBetween(t, now, caller, id, senderBps).Err?
  {
  }

  /** A forced resolution needs a party, the end of the window, and, while the escrow is paused, that it can
      be split in half. */
  lemma ForceNeeds(t: Triple, now: nat, caller: Address, id: nat)
    requires id in t.q.cases && t.q.cases[id].status == Open && id in t.d.records && now <= U64_MAX
    requires id in t.v.e.records
    ensures DoForceResolve(t, now, caller, id).Ok? <==>
            && (caller in {t.d.records[id].sender, t.d.records[id].recipient} || t.d.records[id].driver == Some(caller))
            && t.q.cases[id].raisedAt + t.q.resolutionLimit < now
            && (t.v.e.records[id].status == Escrow.Paused ==> Escrow.DoResolveSplit(t.v, caller, id, 5_000).Ok?)
  {
  }

  // ── The life of a case ──────────────────────────────────────────────────────

  /** One case before and after a call: its origin is fixed; while open its evidence only grows;
      once closed nothing about it changes. */
  ghost predicate CaseMoves(q: DisputeState, s: DisputeState, id: nat)
    requires id in q.cases
  {
    && id in s.cases
    && s.cases[id].id == q.cases[id].id && s.cases[id].raisedAt == q.cases[id].raisedAt && s.cases[id].raisedBy == q.cases[id].raisedBy
    && q.cases[id].evidence <= s.cases[id].evidence
    && (q.cases[id].status != Open ==> s.cases[id] == q.cases[id] && (id in s.forced <==> id in q.forced))
  }

  lemma RaiseMovesCases(t: Triple, now: nat, caller: Address, about: nat, id: nat)
    requires id in t.q.cases
    ensures CaseMoves(t.q, DoRaise(t, now, caller, about).OrElse(t).q, id)
  {
  }

  lemma EvidenceMovesCases(t: Triple, caller: Address, about: nat, hash: Hash, id: nat)
    requires id in t.q.cases
    ensures CaseMoves(t.q, DoAddEvidence(t, caller, about, hash).OrElse(t).q, id)
  {
  }

  /** Closing an open case, whatever happens to the money. */
  lemma ResolveMovesCases(t: Triple, status: DisputeStatus, now: nat, caller: Address, about: nat, v: Escrow.Vault, id: nat)
    requires id in t.q.cases && about in t.q.cases && t.q.cases[about].status == Open
    ensures var s := Resolve(t, t.q.cases[about], status, now, caller, about, v).q;
            CaseMoves(t.q, s, id) && CaseMoves(t.q, s.(forced := s.forced + {about}), id)
  {
  }

  /** Each of the four resolutions closes one open case. */
  lemma ResolutionCloses(t: Triple, fleet: Fleet.FleetState, now: nat, call: DisputeCall) returns (status: DisputeStatus, v: Escrow.Vault)
    requires call.RefundSender? || call.PayDriver? || call.SplitBetween? || call.ForceResolve?
    requires DisputeDo(t, fleet, now, call).Ok?
    ensures call.id in t.q.cases && t.q.cases[call.id].status == Open
    ensures var closed := Resolve(t, t.q.cases[call.id], status, now, call.caller, call.id, v);
            DisputeDo(t, fleet, now, call).value
            == if call.ForceResolve? then closed.(q := closed.q.(forced := closed.q.forced + {call.id})) else closed
  {
    var s := DisputeDo(t, fleet, now, call).value;
    status, v := s.q.cases[call.id].status, s.v;
  }

  /** Every call moves every case forward or leaves it alone. */
  lemma CaseStep(t: Triple, fleet: Fleet.FleetState, now: nat, call: DisputeCall, id: nat)
    requires id in t.q.cases
    ensures CaseMoves(t.q, DisputeDo(t, fleet, now, call).OrElse(t).q, id)
  {
    if call.Raise? {
      RaiseMovesCases(t, now, call.caller, call.id, id);
    } else if call.AddEvidence? {
      EvidenceMovesCases(t, call.caller, call.id, call.hash, id);
    } else if !call.Reconfigure? && DisputeDo(t, fleet, now, call).Ok? {
      var status, v := ResolutionCloses(t, fleet, now, call);
      ResolveMovesCases(t, status, now, call.caller, call.id, v, id);
    }
  }
}

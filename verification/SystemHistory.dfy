/** Deliveries and cases of the composition are the replay of its committed transactions; and which
    transactions are committed is told, for every one of them, from the state before. */
module SystemHistory {
  import opened Prelude
  import opened System
  import opened SystemRuns
  import Escrow
  import EscrowHistory
  import EscrowSolvency
  import Delivery
  import DeliveryHistory
  import Disputes
  import Fleet
  import FleetHistory

  // ── Deliveries ──────────────────────────────────────────────────────────────

  /** The delivery call a transaction makes, if any: raising a case disputes the delivery. */
  function DeliveryPart(call: Call): Option<Delivery.DeliveryCall> {
    match call
    case OnDelivery(c) => Some(c)
    case OnDispute(c) => if c.Raise? then Some(Delivery.Dispute(c.caller, c.id)) else None
    case _ => None
  }

  /** How many deliveries the committed transactions of a run created. */
  function Created(w: World, calls: seq<Call>): nat
    decreases |calls|
  {
    if calls == [] then 0
    else
      var init, last := calls[..|calls| - 1], calls[|calls| - 1];
      Created(w, init)
      + if WorldDo(WorldRun(w, init), last).Ok? && last.OnDelivery? then DeliveryHistory.Created(last.delivery) else 0
  }

  /** The committed transactions of a run, replayed for one delivery. */
  function ToldDelivery(w: World, calls: seq<Call>, id: nat): Option<Delivery.DeliveryRecord>
    decreases |calls|
  {
    if calls == [] then None
    else
      var init, last := calls[..|calls| - 1], calls[|calls| - 1];
      var before, part := ToldDelivery(w, init, id), DeliveryPart(last);
      if WorldDo(WorldRun(w, init), last).Ok? && part.Some?
      then DeliveryHistory.Replayed(before, Created(w, init), WorldRun(w, init).now, part.value, id)
      else before
  }

  lemma DeliveryCallReplayed(w: World, c: Delivery.DeliveryCall, id: nat)
    requires Joint(w) && WorldDo(w, OnDelivery(c)).Ok?
    ensures var u := WorldStep(w, OnDelivery(c));
            && DeliveryHistory.Stored(u.d, id) == DeliveryHistory.Replayed(DeliveryHistory.Stored(w.d, id), w.d.counter, w.now, c, id)
            && u.d.counter == w.d.counter + DeliveryHistory.Created(c) && u.d.admin == w.d.admin
  {
    DeliveryHistory.StepIsReplayed(PairOf(w), w.now, c, id);
  }

  lemma RaiseReplayed(w: World, caller: Address, about: nat, id: nat)
    requires Joint(w) && WorldDo(w, OnDispute(Disputes.Raise(caller, about))).Ok?
    ensures var u := WorldStep(w, OnDispute(Disputes.Raise(caller, about)));
            && DeliveryHistory.Stored(u.d, id)
            == DeliveryHistory.Replayed(DeliveryHistory.Stored(w.d, id), w.d.counter, w.now, Delivery.Dispute(caller, about), id)
            && u.d.counter == w.d.counter && u.d.admin == w.d.admin
  {
    var m := RaiseShape(w, caller, about);
    DeliveryCallReplayed(w, Delivery.Dispute(caller, about), id);
  }

  /** A committed transaction leaves of every delivery what the replay says. */
  lemma DeliveryStepReplayed(w: World, call: Call, id: nat)
    requires Joint(w)
    ensures var u, part := WorldStep(w, call), DeliveryPart(call);
            && u.d.admin == w.d.admin
            && (if WorldDo(w, call).Ok? && part.Some?
                then && DeliveryHistory.Stored(u.d, id)
                     == DeliveryHistory.Replayed(DeliveryHistory.Stored(w.d, id), w.d.counter, w.now, part.value, id)
                     && u.d.counter == w.d.counter + (if call.OnDelivery? then DeliveryHistory.Created(call.delivery) else 0)
                else u.d == w.d)
  {
    if WorldDo(w, call).Ok? {
      match call
      case OnDelivery(c) => DeliveryCallReplayed(w, c, id);
      case OnDispute(c) =>
        if c.Raise? {
          RaiseReplayed(w, c.caller, c.id, id);
        } else {
          OnlyRaisingTouchesDeliveries(w, c);
        }
      case _ =>
    }
  }

  /** Over every composed run a delivery is what the committed transactions say: its parties, metadata and
      times, who drives it, and how far it got. Ids are handed out in a row from one. */
  lemma {:induction false} DeliveryIsItsHistory(w: World, calls: seq<Call>, id: nat)
    requires InitialWorld(w) && GenuineRun(calls)
    ensures DeliveryHistory.Stored(WorldRun(w, calls).d, id) == ToldDelivery(w, calls, id)
    ensures WorldRun(w, calls).d.counter == Created(w, calls)
    decreases |calls|
  {
    if calls != [] {
      var init := calls[..|calls| - 1];
      DeliveryIsItsHistory(w, init, id);
      WorldRunJoint(w, init);
      DeliveryStepReplayed(WorldRun(w, init), calls[|calls| - 1], id);
    }
  }

  // ── Cases ───────────────────────────────────────────────────────────────────

  /** A case, and whether it was closed by force. */
  datatype Story = Story(c: Disputes.DisputeCase, forced: bool)

  function StoredCase(q: Disputes.DisputeState, id: nat): Option<Story> {
    if id in q.cases then Some(Story(q.cases[id], id in q.forced)) else None
  }

  function ClosedCase(c: Disputes.DisputeCase, status: Disputes.DisputeStatus, now: nat, resolver: Address): Disputes.DisputeCase {
    Disputes.DisputeCase(c.id, status, c.raisedAt, c.raisedBy, c.evidence, Some(now), Some(resolver))
  }

  /** What a committed call makes of a case that is there. */
  function RewrittenCase(s: Story, now: nat, call: Disputes.DisputeCall, id: nat): Story {
    match call
    case AddEvidence(_, i, hash) => if i == id then s.(c := s.c.(evidence := s.c.evidence + [hash])) else s
    case RefundSender(caller, i) => if i == id then s.(c := ClosedCase(s.c, Disputes.ResolvedRefund, now, caller)) else s
    case PayDriver(caller, i) => if i == id then s.(c := ClosedCase(s.c, Disputes.ResolvedPayout, now, caller)) else s
    case SplitBetween(caller, i, _) => if i == id then s.(c := ClosedCase(s.c, Disputes.SplitFunds, now, caller)) else s
    case ForceResolve(caller, i) => if i == id then Story(ClosedCase(s.c, Disputes.SplitFunds, now, caller), true) else s
    case _ => s
  }

  /** Only raising opens a case: by the caller, now, and without evidence. */
  function ReplayedCase(before: Option<Story>, now: nat, call: Disputes.DisputeCall, id: nat): Option<Story> {
    match before
    case Some(s) => Some(RewrittenCase(s, now, call, id))
    case None =>
      if call.Raise? && call.id == id
      then Some(Story(Disputes.DisputeCase(id, Disputes.Open, now, call.caller, [], None, None), false))
      else None
  }

  /** The committed transactions of a run, replayed for one case. */
  function ToldCase(w: World, calls: seq<Call>, id: nat): Option<Story>
    decreases |calls|
  {
    if calls == [] then None
    else
      var init, last := calls[..|calls| - 1], calls[|calls| - 1];
      if WorldDo(WorldRun(w, init), last).Ok? && last.OnDispute?
      then ReplayedCase(ToldCase(w, init, id), WorldRun(w, init).now, last.dispute, id)
      else ToldCase(w, init, id)
  }

  /** What was stored under an id is rewritten as the replay says, and the settings only if that is asked for. */
  ghost predicate Retold(q: Disputes.DisputeState, s: Disputes.DisputeState, now: nat, call: Disputes.DisputeCall, id: nat) {
    && StoredCase(s, id) == ReplayedCase(StoredCase(q, id), now, call, id)
    && s.admins == (if call.Reconfigure? then call.admins else q.admins)
    && s.timeLimit == (if call.Reconfigure? then call.timeLimit else q.timeLimit)
    && s.resolutionLimit == (if call.Reconfigure? then call.resolutionLimit else q.resolutionLimit)
  }

  lemma RaiseStoresCase(t: Disputes.Triple, now: nat, caller: Address, about: nat, id: nat)
    requires Disputes.DoRaise(t, now, caller, about).Ok? && forall i :: i in t.q.forced ==> i in t.q.cases
    ensures Retold(t.q, Disputes.DoRaise(t, now, caller, about).value.q, now, Disputes.Raise(caller, about), id)
  {
    var p, v := Disputes.RaiseOk(t, now, caller, about);
  }

  lemma ForceStoresCase(t: Disputes.Triple, now: nat, caller: Address, about: nat, id: nat)
    requires Disputes.DoForceResolve(t, now, caller, about).Ok?
    ensures Retold(t.q, Disputes.DoForceResolve(t, now, caller, about).value.q, now, Disputes.ForceResolve(caller, about), id)
  {
    var v := Disputes.ForceOk(t, now, caller, about);
  }

  lemma AdminStoresCase(t: Disputes.Triple, fleet: Fleet.FleetState, now: nat, call: Disputes.DisputeCall, id: nat)
    requires call.RefundSender? || call.PayDriver? || call.SplitBetween? || call.AddEvidence? || call.Reconfigure?
    requires Disputes.DisputeDo(t, fleet, now, call).Ok?
    ensures Retold(t.q, Disputes.DisputeDo(t, fleet, now, call).value.q, now, call, id)
  {
  }

  /** A committed call leaves of every case what the replay says. */
  lemma CaseStepReplayed(t: Disputes.Triple, fleet: Fleet.FleetState, now: nat, call: Disputes.DisputeCall, id: nat)
    requires Disputes.DisputeDo(t, fleet, now, call).Ok? && forall i :: i in t.q.forced ==> i in t.q.cases
    ensures Retold(t.q, Disputes.DisputeDo(t, fleet, now, call).value.q, now, call, id)
  {
    if call.Raise? {
      RaiseStoresCase(t, now, call.caller, call.id, id);
    } else if call.ForceResolve? {
      ForceStoresCase(t, now, call.caller, call.id, id);
    } else {
      AdminStoresCase(t, fleet, now, call, id);
    }
  }

  lemma WorldStepCase(w: World, call: Call, id: nat)
    requires CasesSound(w)
    ensures StoredCase(WorldStep(w, call).q, id)
         == if WorldDo(w, call).Ok? && call.OnDispute? then ReplayedCase(StoredCase(w.q, id), w.now, call.dispute, id)
            else StoredCase(w.q, id)
  {
    if WorldDo(w, call).Ok? && call.OnDispute? {
      CaseStepReplayed(TripleOf(w), w.fleet, w.now, call.dispute, id);
    }
  }

  lemma CasesStaySound(w: World, calls: seq<Call>)
    requires InitialWorld(w) && GenuineRun(calls)
    ensures CasesSound(WorldRun(w, calls))
  {
    WorldRunJoint(w, calls);
  }

  /** Over every composed run a case is what the committed transactions say: when and by whom it was raised
      and resolved, how, whether by force, and its evidence. */
  lemma {:induction false} CaseIsItsHistory(w: World, calls: seq<Call>, id: nat)
    requires InitialWorld(w) && GenuineRun(calls)
    ensures StoredCase(WorldRun(w, calls).q, id) == ToldCase(w, calls, id)
    decreases |calls|
  {
    if calls != [] {
      var init := calls[..|calls| - 1];
      CaseIsItsHistory(w, init, id);
      CasesStaySound(w, init);
      WorldStepCase(WorldRun(w, init), calls[|calls| - 1], id);
    }
  }

  function Evidence(q: Disputes.DisputeState, id: nat): seq<Disputes.Hash> {
    if id in q.cases then q.cases[id].evidence else []
  }

  /** The hash a transaction adds to the evidence of a case, if any. */
  function NewHash(w: World, call: Call, id: nat): seq<Disputes.Hash> {
    if call.OnDispute? && call.dispute.AddEvidence? && call.dispute.id == id && WorldDo(w, call).Ok?
    then [call.dispute.hash] else []
  }

  /** The hashes of the committed evidence calls on a case, in order. */
  function Hashes(w: World, calls: seq<Call>, id: nat): seq<Disputes.Hash>
    decreases |calls|
  {
    if calls == [] then []
    else Hashes(w, calls[..|calls| - 1], id) + NewHash(WorldRun(w, calls[..|calls| - 1]), calls[|calls| - 1], id)
  }

  lemma EvidenceStep(w: World, call: Call, id: nat)
    requires CasesSound(w)
    ensures Evidence(WorldStep(w, call).q, id) == Evidence(w.q, id) + NewHash(w, call, id)
  {
    WorldStepCase(w, call, id);
    if NewHash(w, call, id) != [] {
      Disputes.AddEvidenceSucceedsIff(TripleOf(w), call.dispute.caller, id, call.dispute.hash);
    }
  }

  /** The evidence of a case is the hashes of the committed evidence calls on it, all of them and in order;
      without a case there are none. */
  lemma {:induction false} EvidenceIsItsHistory(w: World, calls: seq<Call>, id: nat)
    requires InitialWorld(w) && GenuineRun(calls)
    ensures Evidence(WorldRun(w, calls).q, id) == Hashes(w, calls, id)
    decreases |calls|
  {
    if calls != [] {
      var init := calls[..|calls| - 1];
      EvidenceIsItsHistory(w, init, id);
      CasesStaySound(w, init);
      EvidenceStep(WorldRun(w, init), calls[|calls| - 1], id);
    }
  }

  // ── Which transactions go through ───────────────────────────────────────────

  predicate Stands(w: World, id: nat, status: Escrow.EscrowStatus) {
    EscrowHistory.Stands(w.v, id, status)
  }

  predicate IsAt(w: World, id: nat, statuses: set<Delivery.DeliveryStatus>) {
    id in w.d.records && w.d.records[id].status in statuses
  }

  predicate IsOpen(w: World, id: nat) {
    id in w.q.cases && w.q.cases[id].status == Disputes.Open && id in w.d.records
  }

  /** Sender or recipient of a delivery under way, and a party to its locked escrow. */
  predicate MayDispute(w: World, caller: Address, id: nat) {
    && IsAt(w, id, {Delivery.Active, Delivery.InTransit}) && Stands(w, id, Escrow.Locked)
    && caller in {w.d.records[id].sender, w.d.records[id].recipient}
    && caller in {w.v.e.records[id].sender, w.v.e.records[id].recipient, w.v.e.records[id].driver}
  }

  predicate IsPartyTo(w: World, caller: Address, id: nat)
    requires id in w.d.records
  {
    caller in {w.d.records[id].sender, w.d.records[id].recipient} || w.d.records[id].driver == Some(caller)
  }

  predicate DeliveryPermitted(w: World, c: Delivery.DeliveryCall) {
    match c
    case Cancel(sender, id) =>
      && IsAt(w, id, {Delivery.Pending, Delivery.Active}) && sender == w.d.records[id].sender
      && (Stands(w, id, Escrow.Locked) || Stands(w, id, Escrow.Holdback) || Stands(w, id, Escrow.Paused))
      && sender in {w.v.e.records[id].sender, w.v.e.admin} && !w.v.e.paused
    case Confirm(recipient, id) =>
      && IsAt(w, id, {Delivery.InTransit}) && Stands(w, id, Escrow.Locked)
      && recipient == w.d.records[id].recipient == w.v.e.records[id].recipient
    case Dispute(caller, id) => MayDispute(w, caller, id)
    case _ => DeliveryHistory.PermittedLocally(w.d, c)
  }

  /** A dispute admin who is the escrow admin too, an open case, and funds that have not moved. */
  predicate MayResolve(w: World, caller: Address, id: nat) {
    IsOpen(w, id) && Stands(w, id, Escrow.Paused) && caller in w.q.admins && caller == w.v.e.admin && !w.v.e.paused
  }

  predicate DisputePermitted(w: World, c: Disputes.DisputeCall) {
    match c
    case Raise(caller, id) => MayDispute(w, caller, id) && w.v.e.disputeContract != None
    case AddEvidence(caller, id, _) => IsOpen(w, id) && IsPartyTo(w, caller, id)
    case RefundSender(caller, id) => MayResolve(w, caller, id)
    case PayDriver(caller, id) => MayResolve(w, caller, id)
    case SplitBetween(caller, id, bps) => MayResolve(w, caller, id) && bps <= 10_000
    case ForceResolve(caller, id) =>
      && IsOpen(w, id) && IsPartyTo(w, caller, id) && w.q.cases[id].raisedAt + w.q.resolutionLimit < w.now
      && (Stands(w, id, Escrow.Paused) ==> caller == w.v.e.admin && !w.v.e.paused)
    case Reconfigure(_, _, _) => true
  }

  /** The transactions that a reachable world which can pay what it owes accepts. */
  ghost predicate Permitted(w: World, call: Call) {
    match call
    case OnEscrow(c) => !(c.FreezeFunds? && c.caller == DisputeAddress) && EscrowHistory.Permitted(w.v, w.now, c)
    case OnDelivery(c) => DeliveryPermitted(w, c)
    case OnDispute(c) => DisputePermitted(w, c)
    case OnFleet(c) => FleetHistory.Permitted(w.fleet, w.now, c)
    case Wait(seconds) => w.now + seconds <= U64_MAX
  }

  lemma DeliveryCommitsIff(w: World, c: Delivery.DeliveryCall)
    requires Joint(w) && EscrowSolvency.Solvent(w.v)
    ensures WorldDo(w, OnDelivery(c)).Ok? <==> DeliveryPermitted(w, c)
  {
    match c
    case Cancel(sender, id) => CancelSucceedsIff(w, sender, id);
    case Confirm(recipient, id) => ConfirmSucceedsIff(w, recipient, id);
    case Dispute(caller, id) => DisputeSucceedsIff(w, caller, id);
    case _ => DeliveryHistory.LocalCommitsIff(PairOf(w), w.now, c);
  }

  lemma ResolvingCommitsIff(w: World, c: Disputes.DisputeCall)
    requires Joint(w) && EscrowSolvency.Solvent(w.v) && (c.RefundSender? || c.PayDriver? || c.SplitBetween?)
    ensures WorldDo(w, OnDispute(c)).Ok? <==> DisputePermitted(w, c)
  {
    AdminResolutionSucceedsIff(w, c.caller, c.id, if c.SplitBetween? then c.senderBps else 0);
  }

  lemma ForcingCommitsIff(w: World, caller: Address, id: nat)
    requires Joint(w) && EscrowSolvency.Solvent(w.v)
    ensures WorldDo(w, OnDispute(Disputes.ForceResolve(caller, id))).Ok? <==> DisputePermitted(w, Disputes.ForceResolve(caller, id))
  {
    ForceResolveSucceedsIff(w, caller, id);
  }

  lemma DisputeCommitsIff(w: World, c: Disputes.DisputeCall)
    requires Joint(w) && EscrowSolvency.Solvent(w.v)
    ensures WorldDo(w, OnDispute(c)).Ok? <==> DisputePermitted(w, c)
  {
    match c
    case Raise(caller, id) => RaiseSucceedsIff(w, caller, id);
    case AddEvidence(caller, id, hash) => Disputes.AddEvidenceSucceedsIff(TripleOf(w), caller, id, hash);
    case ForceResolve(caller, id) => ForcingCommitsIff(w, caller, id);
    case Reconfigure(_, _, _) =>
    case _ => ResolvingCommitsIff(w, c);
  }

  /** In every reachable world that can pay what it owes, every transaction of every contract goes through
      exactly when it is permitted. */
  lemma CommitsIff(w: World, call: Call)
    requires Joint(w) && EscrowSolvency.Solvent(w.v)
    ensures WorldDo(w, call).Ok? <==> Permitted(w, call)
  {
    match call
    case OnEscrow(c) => EscrowHistory.CommitsIff(w.v, Escrow.EscrowTick(w.now, w.fleet, c));
    case OnDelivery(c) => DeliveryCommitsIff(w, c);
    case OnDispute(c) => DisputeCommitsIff(w, c);
    case OnFleet(c) => FleetHistory.CommitsIff(w.fleet, w.now, c);
    case Wait(_) =>
  }
}

/** Driver profiles and their scores: what each call does, and what whole histories of score changes
    amount to. */
module Reputation {
  import opened Prelude

  const MAX_REPUTATION: nat := 100
  const FIRST_SCORE: nat := 50
  const SILVER_TIER_THRESHOLD: nat := 50
  const GOLD_TIER_THRESHOLD: nat := 75
  const ENTERPRISE_THRESHOLD: nat := 75
  const HEAVY_CARGO_GRAMS: nat := 5000

  datatype DriverTier = Bronze | Silver | Gold

  datatype Config = Config(basePoints: nat, heavyCargoPoints: nat, fragilePoints: nat)

  const DEFAULT_CONFIG: Config := Config(5, 3, 2)

  datatype Profile = Profile(address: Address, deliveriesCompleted: nat, score: nat, registeredAt: nat)

  datatype ReputationState = ReputationState(authorized: set<Address>, config: Config, profiles: map<Address, Profile>)

  datatype ReputationCall =
    | Register(driver: Address)
    | Increase(caller: Address, driver: Address, weightGrams: nat, fragile: bool)
    | Decrease(caller: Address, driver: Address, points: nat)
    // Any outcome of the allowlist and point setters.
    | Reconfigure(authorized: set<Address>, config: Config)

  datatype ReputationTick = ReputationTick(now: nat, call: ReputationCall)

  /** The points a delivery earns, under overflow checks. */
  function Points(c: Config, weightGrams: nat, fragile: bool): Result<nat> {
    var heavy :- AddU32(c.basePoints, if weightGrams > HEAVY_CARGO_GRAMS then c.heavyCargoPoints else 0);
    AddU32(heavy, if fragile then c.fragilePoints else 0)
  }

  function DoRegister(s: ReputationState, now: nat, driver: Address): Result<ReputationState> {
    if driver in s.profiles then Err(AlreadyInitialized)
    else Ok(s.(profiles := s.profiles[driver := Profile(driver, 0, FIRST_SCORE, now)]))
  }

  function DoIncrease(s: ReputationState, caller: Address, driver: Address, weightGrams: nat, fragile: bool): Result<ReputationState> {
    if caller !in s.authorized then Err(Unauthorized)
    else if driver !in s.profiles then Err(NotFound)
    else
      var p := s.profiles[driver];
      var points :- Points(s.config, weightGrams, fragile);
      var raised :- AddU32(p.score, points);
      var completed :- AddU32(p.deliveriesCompleted, 1);
      Ok(s.(profiles := s.profiles[driver := p.(score := Min(raised, MAX_REPUTATION), deliveriesCompleted := completed)]))
  }

  function DoDecrease(s: ReputationState, caller: Address, driver: Address, points: nat): Result<ReputationState> {
    if caller !in s.authorized then Err(Unauthorized)
    else if driver !in s.profiles then Err(NotFound)
    else
      var p := s.profiles[driver];
      Ok(s.(profiles := s.profiles[driver := p.(score := Max(0, p.score - points))]))
  }

  function ReputationDo(s: ReputationState, tick: ReputationTick): Result<ReputationState> {
    match tick.call
    case Register(driver) => DoRegister(s, tick.now, driver)
    case Increase(caller, driver, weightGrams, fragile) => DoIncrease(s, caller, driver, weightGrams, fragile)
    case Decrease(caller, driver, points) => DoDecrease(s, caller, driver, points)
    case Reconfigure(authorized, config) => Ok(s.(authorized := authorized, config := config))
  }

  function ReputationStep(s: ReputationState, tick: ReputationTick): ReputationState {
    ReputationDo(s, tick).OrElse(s)
  }

  function ReputationRun(s: ReputationState, ticks: seq<ReputationTick>): ReputationState
    decreases |ticks|
  {
    if ticks == [] then s
    else ReputationStep(ReputationRun(s, ticks[..|ticks| - 1]), ticks[|ticks| - 1])
  }

  function TierOf(score: nat): DriverTier {
    if score >= GOLD_TIER_THRESHOLD then Gold
    else if score >= SILVER_TIER_THRESHOLD then Silver
    else Bronze
  }

  function TierRank(t: DriverTier): nat {
    match t
    case Bronze => 0
    case Silver => 1
    case Gold => 2
  }

  // ── Histories of score changes ──────────────────────────────────────────────

  datatype Change = Up(points: nat) | Down(points: nat)

  function Changed(c: Change, score: int): int {
    match c
    case Up(points) => Min(MAX_REPUTATION, score + points)
    case Down(points) => Max(0, score - points)
  }

  function ChangedAll(history: seq<Change>, score: int): int {
    if history == [] then score
    else Changed(history[|history| - 1], ChangedAll(history[..|history| - 1], score))
  }

  /** The score change x to max(lo, min(hi, x + shift)). */
  datatype Clamp = Clamp(lo: int, hi: int, shift: int) {
    function At(x: int): int { Max(lo, Min(hi, x + shift)) }
  }

  const NO_CHANGE: Clamp := Clamp(0, MAX_REPUTATION, 0)

  /** One more change: the bounds change as scores do, the shift adds up. */
  function Then(c: Clamp, change: Change): Clamp {
    match change
    case Up(points) => Clamp(Changed(change, c.lo), Changed(change, c.hi), c.shift + points)
    case Down(points) => Clamp(Changed(change, c.lo), Changed(change, c.hi), c.shift - points)
  }

  function ClampOf(history: seq<Change>): Clamp {
    if history == [] then NO_CHANGE
    else Then(ClampOf(history[..|history| - 1]), history[|history| - 1])
  }

  predicate IsScore(x: int) { 0 <= x <= MAX_REPUTATION }

  /** Any history acts as one clamp: its bounds are what it makes of the worst and the best score,
      its shift the net of all points. */
  lemma {:induction false} HistoryIsOneClamp(history: seq<Change>, score: int)
    requires IsScore(score)
    ensures ChangedAll(history, score) == ClampOf(history).At(score)
    ensures ClampOf(history).lo == ChangedAll(history, 0)
    ensures ClampOf(history).hi == ChangedAll(history, MAX_REPUTATION)
    ensures 0 <= ClampOf(history).lo <= ClampOf(history).hi <= MAX_REPUTATION
    decreases |history|
  {
    if history != [] {
      var init, last := history[..|history| - 1], history[|history| - 1];
      HistoryIsOneClamp(init, score);
      ThenActs(ClampOf(init), last, score);
    }
  }

  /** Clamps compose in closed form. */
  function Composed(first: Clamp, second: Clamp): Clamp {
    Clamp(second.At(first.lo), second.At(first.hi), first.shift + second.shift)
  }

  /** One more change acts after the clamp so far. */
  lemma ThenActs(c: Clamp, change: Change, x: int)
    requires 0 <= c.lo <= c.hi <= MAX_REPUTATION
    ensures Then(c, change).At(x) == Changed(change, c.At(x))
    ensures 0 <= Then(c, change).lo <= Then(c, change).hi <= MAX_REPUTATION
  {
  }

  /** A history in two parts is the composition of the parts' clamps. */
  lemma {:induction false} HistoriesCompose(before: seq<Change>, after: seq<Change>)
    ensures ClampOf(before + after) == Composed(ClampOf(before), ClampOf(after))
    decreases |after|
  {
    HistoryIsOneClamp(before, 0);
    if after == [] {
      assert before + after == before;
    } else {
      var init, last := after[..|after| - 1], after[|after| - 1];
      assert (before + after)[..|before + after| - 1] == before + init;
      HistoriesCompose(before, init);
      HistoryIsOneClamp(init, 0);
      ThenActs(ClampOf(init), last, ClampOf(before).lo);
      ThenActs(ClampOf(init), last, ClampOf(before).hi);
    }
  }

  /** The same history keeps the order of two scores and of their tiers, never widens their gap,
      and narrows it only by running into a bound. */
  lemma OrderKept(history: seq<Change>, x: int, y: int)
    requires IsScore(x) && IsScore(y) && x <= y
    ensures var a, b, c := ChangedAll(history, x), ChangedAll(history, y), ClampOf(history);
            && IsScore(a) && IsScore(b)
            && 0 <= b - a <= y - x
            && TierRank(TierOf(a)) <= TierRank(TierOf(b))
            && (b - a == y - x <==> x == y || (c.lo <= x + c.shift && y + c.shift <= c.hi))
  {
    HistoryIsOneClamp(history, x);
    HistoryIsOneClamp(history, y);
  }

  // ── Whole runs ──────────────────────────────────────────────────────────────

  ghost predicate ScoresSound(s: ReputationState) {
    forall a :: a in s.profiles ==> s.profiles[a].address == a && IsScore(s.profiles[a].score)
  }

  /** The score a driver has, or will start with. */
  function Score(s: ReputationState, driver: Address): nat {
    if driver in s.profiles then s.profiles[driver].score else 50
  }

  function Completed(s: ReputationState, driver: Address): nat {
    if driver in s.profiles then s.profiles[driver].deliveriesCompleted else 0
  }

  /** The points a delivery earns if they fit: for the delivery, for more than five kilograms, for care. */
  function Earned(c: Config, weightGrams: nat, fragile: bool): nat {
    c.basePoints + (if weightGrams > 5000 then c.heavyCargoPoints else 0) + (if fragile then c.fragilePoints else 0)
  }

  /** The change a call makes to a driver's score, if it commits at all. */
  function ChangeBy(s: ReputationState, tick: ReputationTick, driver: Address): seq<Change> {
    if ReputationDo(s, tick).Err? then []
    else match tick.call
      case Increase(_, d, weightGrams, fragile) =>
        if d == driver then [Up(Earned(s.config, weightGrams, fragile))] else []
      case Decrease(_, d, points) => if d == driver then [Down(points)] else []
      case _ => []
  }

  function History(s: ReputationState, ticks: seq<ReputationTick>, driver: Address): seq<Change>
    decreases |ticks|
  {
    if ticks == [] then []
    else
      var init := ticks[..|ticks| - 1];
      History(s, init, driver) + ChangeBy(ReputationRun(s, init), ticks[|ticks| - 1], driver)
  }

  function Ups(history: seq<Change>): nat {
    if history == [] then 0
    else Ups(history[..|history| - 1]) + (if history[|history| - 1].Up? then 1 else 0)
  }

  lemma StepScore(s: ReputationState, tick: ReputationTick, driver: Address)
    requires ScoresSound(s)
    ensures ScoresSound(ReputationStep(s, tick))
    ensures Score(ReputationStep(s, tick), driver) == ChangedAll(ChangeBy(s, tick, driver), Score(s, driver))
    ensures Completed(ReputationStep(s, tick), driver) == Completed(s, driver) + Ups(ChangeBy(s, tick, driver))
    ensures driver in s.profiles ==> driver in ReputationStep(s, tick).profiles
                                     && ReputationStep(s, tick).profiles[driver].registeredAt == s.profiles[driver].registeredAt
  {
  }

  lemma ChangedMore(history: seq<Change>, more: seq<Change>, score: int)
    requires |more| <= 1
    ensures ChangedAll(history + more, score) == ChangedAll(more, ChangedAll(history, score))
    ensures Ups(history + more) == Ups(history) + Ups(more)
  {
    if more == [] {
      assert history + more == history;
    } else {
      assert (history + more)[..|history|] == history;
    }
  }

  /** Over any run a driver's score is exactly what the accepted changes make of the first one, and
      the deliveries completed are counted by the increases. */
  lemma {:induction false} ScoreIsItsHistory(s: ReputationState, ticks: seq<ReputationTick>, driver: Address)
    requires ScoresSound(s)
    ensures ScoresSound(ReputationRun(s, ticks))
    ensures Score(ReputationRun(s, ticks), driver) == ChangedAll(History(s, ticks, driver), Score(s, driver))
    ensures Completed(ReputationRun(s, ticks), driver) == Completed(s, driver) + Ups(History(s, ticks, driver))
    decreases |ticks|
  {
    if ticks != [] {
      var init := ticks[..|ticks| - 1];
      ScoreIsItsHistory(s, init, driver);
      StepScore(ReputationRun(s, init), ticks[|ticks| - 1], driver);
      ChangedMore(History(s, init, driver), ChangeBy(ReputationRun(s, init), ticks[|ticks| - 1], driver), Score(s, driver));
    }
  }

  /** Two drivers with the same accepted history keep the order of their scores and tiers, and the
      gap between them never widens. */
  lemma SameHistorySameOrder(s: ReputationState, ticks: seq<ReputationTick>, a: Address, b: Address)
    requires ScoresSound(s) && Score(s, a) <= Score(s, b)
    requires History(s, ticks, a) == History(s, ticks, b)
    ensures var t := ReputationRun(s, ticks);
            && 0 <= Score(t, b) - Score(t, a) <= Score(s, b) - Score(s, a)
            && TierRank(TierOf(Score(t, a))) <= TierRank(TierOf(Score(t, b)))
  {
    ScoreIsItsHistory(s, ticks, a);
    ScoreIsItsHistory(s, ticks, b);
    OrderKept(History(s, ticks, a), Score(s, a), Score(s, b));
  }

  /** In a reachable state an increase fails on arithmetic only when the configured points or the
      delivery counter are at the edge of 32 bits. */
  lemma IncreaseSucceedsIff(s: ReputationState, caller: Address, driver: Address, weightGrams: nat, fragile: bool)
    requires ScoresSound(s)
    ensures DoIncrease(s, caller, driver, weightGrams, fragile).Ok? <==>
            && caller in s.authorized && driver in s.profiles
            && s.profiles[driver].score + Earned(s.config, weightGrams, fragile) <= U32_MAX
            && s.profiles[driver].deliveriesCompleted < U32_MAX
  {
  }

  // ── Profiles as the replay of the committed calls ───────────────────────────

  function Stored(s: ReputationState, driver: Address): Option<Profile> {
    if driver in s.profiles then Some(s.profiles[driver]) else None
  }

  /** The calls that go through: a first registration, and changes by an authorised contract to the score
      of a registered driver, within 32 bits. */
  predicate Permitted(s: ReputationState, call: ReputationCall) {
    match call
    case Register(driver) => Stored(s, driver) == None
    case Increase(caller, driver, weightGrams, fragile) =>
      && caller in s.authorized && driver in s.profiles
      && s.profiles[driver].score + Earned(s.config, weightGrams, fragile) <= U32_MAX
      && s.profiles[driver].deliveriesCompleted + 1 <= U32_MAX
    case Decrease(caller, driver, _) => caller in s.authorized && driver in s.profiles
    case Reconfigure(_, _) => true
  }

  /** What a committed call makes of a driver's profile. */
  function Replayed(before: Option<Profile>, config: Config, tick: ReputationTick, driver: Address): Option<Profile> {
    match (before, tick.call)
    case (None, Register(d)) => if d == driver then Some(Profile(driver, 0, 50, tick.now)) else None
    case (Some(p), Increase(_, d, weightGrams, fragile)) =>
      if d == driver
      then Some(Profile(p.address, p.deliveriesCompleted + 1, Min(100, p.score + Earned(config, weightGrams, fragile)), p.registeredAt))
      else before
    case (Some(p), Decrease(_, d, points)) =>
      if d == driver
      then Some(Profile(p.address, p.deliveriesCompleted, Max(0, p.score - points), p.registeredAt))
      else before
    case _ => before
  }

  /** The committed calls of a run, replayed for one driver. */
  function Told(s: ReputationState, ticks: seq<ReputationTick>, driver: Address): Option<Profile>
    decreases |ticks|
  {
    if ticks == [] then Stored(s, driver)
    else
      var init, last := ticks[..|ticks| - 1], ticks[|ticks| - 1];
      var before := ReputationRun(s, init);
      if Permitted(before, last.call) then Replayed(Told(s, init, driver), before.config, last, driver) else Told(s, init, driver)
  }

  /** Every call goes through exactly when it is permitted, and then leaves of every profile what the replay says. */
  lemma StepIsReplayed(s: ReputationState, tick: ReputationTick, driver: Address)
    requires ScoresSound(s)
    ensures ReputationDo(s, tick).Ok? <==> Permitted(s, tick.call)
    ensures Stored(ReputationStep(s, tick), driver)
         == if Permitted(s, tick.call) then Replayed(Stored(s, driver), s.config, tick, driver) else Stored(s, driver)
    ensures var t, c := ReputationStep(s, tick), tick.call;
            && t.config == (if c.Reconfigure? then c.config else s.config)
            && t.authorized == (if c.Reconfigure? then c.authorized else s.authorized)
  {
  }

  /** Over every run a driver's whole profile is what the permitted calls say. */
  lemma {:induction false} ProfileIsItsHistory(s: ReputationState, ticks: seq<ReputationTick>, driver: Address)
    requires ScoresSound(s)
    ensures Stored(ReputationRun(s, ticks), driver) == Told(s, ticks, driver)
    decreases |ticks|
  {
    if ticks != [] {
      var init := ticks[..|ticks| - 1];
      ProfileIsItsHistory(s, init, driver);
      ScoreIsItsHistory(s, init, driver);
      StepIsReplayed(ReputationRun(s, init), ticks[|ticks| - 1], driver);
    }
  }
}

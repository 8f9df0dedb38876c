/**
 * The deterministic planner of agent/travel_agent/runtime_v2/planning.py, and what the separately
 * written validator says about its output.
 *
 * Inside a day the planner counts minutes from local midnight without wrapping, as its datetime
 * does; a block records only the time of day. Route answers are arbitrary, one per call.
 */
module Planning {
  import opened Common
  import opened Validation

  datatype Candidate = Candidate(
    id: string, place: string, name: string, refs: seq<string>, cost: Option<Cost>, recommended: Option<nat>)

  datatype Policy = Policy(startHour: int, endHour: int, maxBlocks: int, defaultMinutes: int, buffer: int)

  datatype PlanError = WrongInputs | NoCandidates | BadClock | ForeignCurrency | BadBlock | NoBlock | Unordered | NoDays

  const MIDNIGHT := 1440

  // ---------------------------------------------------------------------------------------------
  // Choosing candidates

  function Terms(cs: seq<Constraint>, kind: ConstraintKind): seq<string> {
    if cs == [] then []
    else
      var c := cs[|cs| - 1];
      Terms(cs[..|cs| - 1], kind) + if c.hard && c.kind == kind then [c.text] else []
  }

  predicate Mentions(name: string, terms: seq<string>) {
    exists i :: 0 <= i < |terms| && Contains(name, terms[i])
  }

  /** The candidates that no avoid term names. */
  function Eligible(cs: seq<Candidate>, avoid: seq<string>): seq<Candidate> {
    if cs == [] then []
    else Eligible(cs[..|cs| - 1], avoid) + if Mentions(cs[|cs| - 1].name, avoid) then [] else [cs[|cs| - 1]]
  }

  function Matching(cs: seq<Candidate>, term: string): seq<Candidate> {
    if cs == [] then []
    else Matching(cs[..|cs| - 1], term) + if Contains(cs[|cs| - 1].name, term) then [cs[|cs| - 1]] else []
  }

  /** The candidates that visit terms name, term by term. */
  function Retained(cs: seq<Candidate>, visit: seq<string>): seq<Candidate> {
    if visit == [] then [] else Retained(cs, visit[..|visit| - 1]) + Matching(cs, visit[|visit| - 1])
  }

  function Ids(cs: seq<Candidate>): set<string> {
    set i | 0 <= i < |cs| :: cs[i].id
  }

  function Others(cs: seq<Candidate>, ids: set<string>): seq<Candidate> {
    if cs == [] then []
    else Others(cs[..|cs| - 1], ids) + if cs[|cs| - 1].id in ids then [] else [cs[|cs| - 1]]
  }

  lemma {:induction false} OthersThanNone(cs: seq<Candidate>)
    ensures Others(cs, {}) == cs
  {
    if cs != [] {
      OthersThanNone(cs[..|cs| - 1]);
    }
  }

  function Ordered(eligible: seq<Candidate>, visit: seq<string>): (r: seq<Candidate>)
    ensures eligible != [] ==> r != []
  {
    var retained := Retained(eligible, visit);
    assert retained == [] ==> Others(eligible, Ids(retained)) == eligible by {
      OthersThanNone(eligible);
      assert retained == [] ==> Ids(retained) == {};
    }
    retained + Others(eligible, Ids(retained))
  }

  // ---------------------------------------------------------------------------------------------
  // One day

  /** A placed candidate, with the unwrapped minutes of its start and end. */
  datatype Placed = Placed(c: Candidate, at: int, until: int, leg: Option<Leg>)

  function Minutes(p: Policy, c: Candidate): int {
    Min(240, if c.recommended.Some? && c.recommended.value != 0 then c.recommended.value else p.defaultMinutes)
  }

  function CostOf(c: Candidate, currency: string): Cost {
    if c.cost.Some? then c.cost.value else Cost(0.0, 0.0, currency)
  }

  function HourOf(minutes: int): int {
    minutes % MIDNIGHT / 60
  }

  function BlockOf(x: Placed, currency: string): Block {
    Block(x.c.place, x.c.name, 60 * (x.at % MIDNIGHT), 60 * (x.until % MIDNIGHT), 0, x.until - x.at, x.leg,
          Some(CostOf(x.c, currency)), x.c.refs)
  }

  /** What the contract of a time block demands: it ends later on the same day, after a positive time. */
  predicate BlockAccepted(b: Block) {
    b.start < b.end && b.minutes > 0
  }

  /** The running variables of the planner. */
  datatype State = State(placed: seq<Placed>, now: int, cursor: nat, calls: nat, meters: int, transit: int)

  /** The next candidate with the time it would get. */
  function Proposed(p: Policy, cs: seq<Candidate>, legs: nat -> Leg, s: State): Placed
    requires cs != []
  {
    var c := cs[s.cursor % |cs|];
    var leg := if s.placed == [] then None else Some(legs(s.calls));
    var at := if leg.Some? then s.now + leg.value.maxMinutes + p.buffer else s.now;
    Placed(c, at, at + Minutes(p, c), leg)
  }

  /** The cursor and the route totals after asking for the next candidate. */
  function Moved(legs: nat -> Leg, s: State): State {
    if s.placed == [] then s.(cursor := s.cursor + 1)
    else
      s.(cursor := s.cursor + 1, calls := s.calls + 1, meters := s.meters + legs(s.calls).meters,
         transit := s.transit + legs(s.calls).maxMinutes)
  }

  /** The block loop of a day, from round `k` of `rounds` on. */
  function Fill(p: Policy, cs: seq<Candidate>, legs: nat -> Leg, currency: string, rounds: int, k: int, s: State): Result<State, PlanError>
    requires cs != []
    decreases rounds - k
  {
    if k >= rounds then Ok(s)
    else
      var x := Proposed(p, cs, legs, s);
      if s.placed != [] && HourOf(x.until) >= p.endHour then Ok(Moved(legs, s))
      else if CostOf(x.c, currency).currency != currency then Err(ForeignCurrency)
      else if !BlockAccepted(BlockOf(x, currency)) then Err(BadBlock)
      else Fill(p, cs, legs, currency, rounds, k + 1, Moved(legs, s).(placed := s.placed + [x], now := x.until))
  }

  predicate StartsOrdered(placed: seq<Placed>) {
    forall i, j :: 0 <= i < j < |placed| ==> placed[i].at % MIDNIGHT <= placed[j].at % MIDNIGHT
  }

  function Rounds(p: Policy, cs: seq<Candidate>): int {
    Min(p.maxBlocks, |cs|)
  }

  function FillDay(p: Policy, cs: seq<Candidate>, legs: nat -> Leg, currency: string, s: State): Result<State, PlanError>
    requires cs != []
  {
    var filled := Fill(p, cs, legs, currency, Rounds(p, cs), 0, s.(placed := [], now := 60 * p.startHour));
    if filled.Err? then filled
    else if filled.value.placed == [] then Err(NoBlock)
    else if !StartsOrdered(filled.value.placed) then Err(Unordered)
    else filled
  }

  // ---------------------------------------------------------------------------------------------
  // All days

  function BlocksOf(placed: seq<Placed>, currency: string): seq<Block> {
    seq(|placed|, i requires 0 <= i < |placed| => BlockOf(placed[i], currency))
  }

  datatype Progress = Progress(days: seq<seq<Placed>>, state: State)

  function PlanDays(p: Policy, cs: seq<Candidate>, legs: nat -> Leg, currency: string, n: nat): Result<Progress, PlanError>
    requires cs != []
  {
    if n == 0 then Ok(Progress([], State([], 0, 0, 0, 0, 0)))
    else
      var before := PlanDays(p, cs, legs, currency, n - 1);
      if before.Err? then before
      else
        var day := FillDay(p, cs, legs, currency, before.value.state);
        if day.Err? then Err(day.error)
        else Ok(Progress(before.value.days + [day.value.placed], day.value))
  }

  /** The exact cost of a list of blocks. */
  function MinCost(bs: seq<Block>): real {
    if bs == [] then 0.0 else MinCost(bs[..|bs| - 1]) + if bs[|bs| - 1].cost.Some? then bs[|bs| - 1].cost.value.min else 0.0
  }

  function MaxCost(bs: seq<Block>): real {
    if bs == [] then 0.0 else MaxCost(bs[..|bs| - 1]) + if bs[|bs| - 1].cost.Some? then bs[|bs| - 1].cost.value.max else 0.0
  }

  function Clamped(x: real): real {
    if x < 0.0 then 0.0 else x
  }

  function DaysOf(days: seq<seq<Placed>>, start: int, currency: string): seq<Day> {
    seq(|days|, i requires 0 <= i < |days| => Day(start + i, BlocksOf(days[i], currency)))
  }

  function TotalMin(days: seq<Day>): real {
    if days == [] then 0.0 else TotalMin(days[..|days| - 1]) + MinCost(days[|days| - 1].blocks)
  }

  function TotalMax(days: seq<Day>): real {
    if days == [] then 0.0 else TotalMax(days[..|days| - 1]) + MaxCost(days[|days| - 1].blocks)
  }

  /** The route summary counts every route asked for, also that of a block dropped at the end of a day. */
  datatype Candidacy = Candidacy(plan: Plan, meters: int, transit: int, legs: nat)

  function Window(brief: Brief): nat {
    Max(0, brief.end - brief.start + 1)
  }

  function Chosen(brief: Brief, cs: seq<Candidate>): seq<Candidate> {
    Ordered(Eligible(cs, Terms(brief.constraints, Avoid)), Terms(brief.constraints, Visit))
  }

  function Assemble(brief: Brief, g: Progress): Candidacy {
    var currency := brief.budget.currency;
    var days := DaysOf(g.days, brief.start, currency);
    Candidacy(Plan(days, [], Cost(Clamped(TotalMin(days)), Clamped(TotalMax(days)), currency)), g.state.meters, g.state.transit, g.state.calls)
  }

  /** `build_candidate`; `related` says that the three inputs reference each other and share a time zone. */
  function Build(p: Policy, brief: Brief, cs: seq<Candidate>, legs: nat -> Leg, related: bool): Result<Candidacy, PlanError> {
    if !related then Err(WrongInputs)
    else if Eligible(cs, Terms(brief.constraints, Avoid)) == [] then Err(NoCandidates)
    else
      var chosen := Chosen(brief, cs);
      if Window(brief) == 0 then Err(NoDays)
      else if !(0 <= p.startHour < 24) then Err(BadClock)
      else
        var g := PlanDays(p, chosen, legs, brief.budget.currency, Window(brief));
        if g.Err? then Err(g.error) else Ok(Assemble(brief, g.value))
  }

  // ---------------------------------------------------------------------------------------------
  // The shape of a planned day

  /** Every route answer takes between no time and `most` minutes. */
  ghost predicate LegsOk(legs: nat -> Leg, most: int) {
    forall n :: 0 <= legs(n).maxMinutes <= most
  }

  /** How block `i` of a day follows from the one before it. */
  predicate LinkOk(p: Policy, most: int, cs: seq<Candidate>, currency: string, first: nat, placed: seq<Placed>, i: int)
    requires cs != [] && 0 <= i < |placed|
  {
    var x := placed[i];
    && x.c == cs[(first + i) % |cs|]
    && x.until == x.at + Minutes(p, x.c)
    && BlockAccepted(BlockOf(x, currency))
    && CostOf(x.c, currency).currency == currency
    && (i == 0 ==> x.at == 60 * p.startHour && x.leg.None?)
    && (i > 0 ==> x.leg.Some? && 0 <= x.leg.value.maxMinutes <= most && x.at == placed[i - 1].until + x.leg.value.maxMinutes + p.buffer)
    && (i > 0 ==> HourOf(x.until) < p.endHour)
  }

  predicate Chain(p: Policy, most: int, cs: seq<Candidate>, currency: string, first: nat, placed: seq<Placed>)
    requires cs != []
  {
    forall i :: 0 <= i < |placed| ==> LinkOk(p, most, cs, currency, first, placed, i)
  }

  lemma ChainAppend(p: Policy, most: int, cs: seq<Candidate>, currency: string, first: nat, placed: seq<Placed>, x: Placed)
    requires cs != [] && Chain(p, most, cs, currency, first, placed) && LinkOk(p, most, cs, currency, first, placed + [x], |placed|)
    ensures Chain(p, most, cs, currency, first, placed + [x])
  {
    forall i | 0 <= i < |placed + [x]|
      ensures LinkOk(p, most, cs, currency, first, placed + [x], i)
    {
      if i < |placed| {
        assert LinkOk(p, most, cs, currency, first, placed, i);
      }
    }
  }

  /** The last placed block ends at `now`; before the first one `now` is the start of the day. */
  predicate ClockOk(p: Policy, s: State) {
    s.now == if s.placed == [] then 60 * p.startHour else s.placed[|s.placed| - 1].until
  }

  lemma {:induction false} FillKeepsChain(
      p: Policy, most: int, cs: seq<Candidate>, legs: nat -> Leg, currency: string, rounds: int, k: int, s: State, first: nat)
    requires cs != [] && LegsOk(legs, most) && 0 <= k && |s.placed| == k && s.cursor == first + k
    requires ClockOk(p, s) && Chain(p, most, cs, currency, first, s.placed)
    ensures var out := Fill(p, cs, legs, currency, rounds, k, s);
            out.Ok? ==> Chain(p, most, cs, currency, first, out.value.placed) && |out.value.placed| <= Max(k, rounds)
    decreases rounds - k
  {
    if k < rounds {
      hide Minutes, BlockAccepted, CostOf, HourOf, BlockOf;
      var x := Proposed(p, cs, legs, s);
      if !(s.placed != [] && HourOf(x.until) >= p.endHour) && CostOf(x.c, currency).currency == currency && BlockAccepted(BlockOf(x, currency)) {
        assert LinkOk(p, most, cs, currency, first, s.placed + [x], k);
        hide LinkOk, Proposed, Chain;
        ChainAppend(p, most, cs, currency, first, s.placed, x);
        FillKeepsChain(p, most, cs, legs, currency, rounds, k + 1, Moved(legs, s).(placed := s.placed + [x], now := x.until), first);
      }
    }
  }

  /** A planned day is a non-empty chain of at most one round of the candidates, with ordered starts. */
  lemma DayShape(p: Policy, most: int, cs: seq<Candidate>, legs: nat -> Leg, currency: string, s: State)
    requires cs != [] && LegsOk(legs, most)
    ensures var out := FillDay(p, cs, legs, currency, s);
            out.Ok? ==> && Chain(p, most, cs, currency, s.cursor, out.value.placed)
                        && 0 < |out.value.placed| <= |cs| && StartsOrdered(out.value.placed)
  {
    hide Chain, Fill, StartsOrdered;
    EmptyChain(p, most, cs, currency, s.cursor);
    FillKeepsChain(p, most, cs, legs, currency, Rounds(p, cs), 0, s.(placed := [], now := 60 * p.startHour), s.cursor);
  }

  lemma EmptyChain(p: Policy, most: int, cs: seq<Candidate>, currency: string, first: nat)
    requires cs != []
    ensures Chain(p, most, cs, currency, first, [])
  {
  }

  // ---------------------------------------------------------------------------------------------
  // Midnight

  /** No block of the day ends after the midnight that ends the day. */
  predicate BeforeMidnight(placed: seq<Placed>) {
    forall i :: 0 <= i < |placed| ==> 0 <= placed[i].at && placed[i].until < MIDNIGHT
  }

  /** The duration and route checks of the validator on the blocks of a day. */
  predicate TimesOk(blocks: seq<Block>) {
    && (forall i :: 0 <= i < |blocks| ==> DurationOk(blocks[i]))
    && (forall i :: 0 < i < |blocks| ==> GapOk(blocks[i - 1], blocks[i]))
  }

  lemma DurationOfBlock(x: Placed, currency: string)
    requires 0 <= x.at <= x.until < MIDNIGHT
    ensures DurationOk(BlockOf(x, currency))
  {
  }

  lemma GapOfBlocks(x: Placed, y: Placed, currency: string, buffer: int)
    requires 0 <= x.until < MIDNIGHT && 0 <= y.at < MIDNIGHT && buffer >= 0
    requires y.leg.Some? && y.at == x.until + y.leg.value.maxMinutes + buffer
    ensures GapOk(BlockOf(x, currency), BlockOf(y, currency))
  {
  }

  lemma PositiveMinutes(p: Policy, most: int, cs: seq<Candidate>, currency: string, first: nat, placed: seq<Placed>, i: int)
    requires cs != [] && 0 <= i < |placed| && LinkOk(p, most, cs, currency, first, placed, i)
    ensures placed[i].at < placed[i].until <= placed[i].at + 240
  {
  }

  lemma EarlyDayPasses(p: Policy, most: int, cs: seq<Candidate>, currency: string, first: nat, placed: seq<Placed>)
    requires cs != [] && p.buffer >= 0 && Chain(p, most, cs, currency, first, placed) && BeforeMidnight(placed)
    ensures TimesOk(BlocksOf(placed, currency))
  {
    hide DurationOk, GapOk, BlockOf;
    var blocks := BlocksOf(placed, currency);
    forall i | 0 <= i < |blocks|
      ensures DurationOk(blocks[i])
    {
      PositiveMinutes(p, most, cs, currency, first, placed, i);
      DurationOfBlock(placed[i], currency);
    }
    forall i | 0 < i < |blocks|
      ensures GapOk(blocks[i - 1], blocks[i])
    {
      assert LinkOk(p, most, cs, currency, first, placed, i);
      PositiveMinutes(p, most, cs, currency, first, placed, i);
      PositiveMinutes(p, most, cs, currency, first, placed, i - 1);
      GapOfBlocks(placed[i - 1], placed[i], currency, p.buffer);
    }
  }

  /** An accepted block that starts before midnight ends before it. */
  lemma AcceptedEndsEarly(x: Placed, currency: string)
    requires 0 <= x.at < MIDNIGHT && x.at < x.until <= x.at + 240 && BlockAccepted(BlockOf(x, currency))
    ensures x.until < MIDNIGHT
  {
  }

  /** With a buffer of less than a day, a gap that passes leaves no room for a midnight in between. */
  lemma PassingGapStaysEarly(x: Placed, y: Placed, currency: string, buffer: int)
    requires 0 <= x.until < MIDNIGHT && 0 <= buffer < MIDNIGHT
    requires y.leg.Some? && y.leg.value.maxMinutes >= 0 && y.at == x.until + y.leg.value.maxMinutes + buffer
    requires GapOk(BlockOf(x, currency), BlockOf(y, currency))
    ensures y.at < MIDNIGHT
  {
  }

  lemma {:induction false} PassingDayIsEarly(p: Policy, most: int, cs: seq<Candidate>, currency: string, first: nat, placed: seq<Placed>, i: nat)
    requires cs != [] && 0 <= p.buffer < MIDNIGHT && 0 <= p.startHour < 24
    requires Chain(p, most, cs, currency, first, placed) && TimesOk(BlocksOf(placed, currency)) && i < |placed|
    ensures 0 <= placed[i].at && placed[i].until < MIDNIGHT
  {
    hide DurationOk, GapOk, BlockOf, BlockAccepted, HourOf, CostOf, Minutes;
    var blocks := BlocksOf(placed, currency);
    assert LinkOk(p, most, cs, currency, first, placed, i);
    PositiveMinutes(p, most, cs, currency, first, placed, i);
    if i > 0 {
      PassingDayIsEarly(p, most, cs, currency, first, placed, i - 1);
      PositiveMinutes(p, most, cs, currency, first, placed, i - 1);
      assert GapOk(blocks[i - 1], blocks[i]);
      PassingGapStaysEarly(placed[i - 1], placed[i], currency, p.buffer);
    }
    AcceptedEndsEarly(placed[i], currency);
  }

  // ---------------------------------------------------------------------------------------------
  // When a day passes midnight

  /** From the start of a block to the start of the next one takes less than a day. */
  predicate HopFits(p: Policy, x: Placed, y: Placed) {
    y.leg.Some? ==> y.leg.value.maxMinutes + p.buffer + Minutes(p, x.c) < MIDNIGHT
  }

  predicate HopsFit(p: Policy, placed: seq<Placed>) {
    forall i :: 0 < i < |placed| ==> HopFits(p, placed[i - 1], placed[i])
  }

  lemma {:induction false} FittingDayIsEarly(p: Policy, most: int, cs: seq<Candidate>, currency: string, first: nat, placed: seq<Placed>, i: nat)
    requires cs != [] && 0 <= p.buffer && 0 <= p.startHour < 24 && i < |placed|
    requires Chain(p, most, cs, currency, first, placed) && StartsOrdered(placed) && HopsFit(p, placed)
    ensures 0 <= placed[i].at && placed[i].until < MIDNIGHT
  {
    hide BlockOf, BlockAccepted, CostOf, HourOf, Minutes;
    assert LinkOk(p, most, cs, currency, first, placed, i);
    PositiveMinutes(p, most, cs, currency, first, placed, i);
    if i > 0 {
      FittingDayIsEarly(p, most, cs, currency, first, placed, i - 1);
      assert LinkOk(p, most, cs, currency, first, placed, i - 1);
      PositiveMinutes(p, most, cs, currency, first, placed, i - 1);
      assert HopFits(p, placed[i - 1], placed[i]);
    }
    AcceptedEndsEarly(placed[i], currency);
  }

  /** A planned day stays before midnight exactly when every ride, with the buffer and the stay before it, takes less than a day. */
  lemma EarlyIffHopsFit(p: Policy, most: int, cs: seq<Candidate>, currency: string, first: nat, placed: seq<Placed>)
    requires cs != [] && 0 <= p.buffer && 0 <= p.startHour < 24
    requires Chain(p, most, cs, currency, first, placed) && StartsOrdered(placed)
    ensures BeforeMidnight(placed) <==> HopsFit(p, placed)
  {
    hide BlockOf, BlockAccepted, CostOf, HourOf, Minutes, StartsOrdered;
    if HopsFit(p, placed) {
      forall i | 0 <= i < |placed|
        ensures 0 <= placed[i].at && placed[i].until < MIDNIGHT
      {
        FittingDayIsEarly(p, most, cs, currency, first, placed, i);
      }
    }
    if BeforeMidnight(placed) {
      forall i | 0 < i < |placed|
        ensures HopFits(p, placed[i - 1], placed[i])
      {
        assert LinkOk(p, most, cs, currency, first, placed, i - 1) && LinkOk(p, most, cs, currency, first, placed, i);
        PositiveMinutes(p, most, cs, currency, first, placed, i);
      }
    }
  }

  /** No ride of at most `most` minutes can take a candidate's stay past midnight. */
  predicate RidesFit(p: Policy, most: int, cs: seq<Candidate>) {
    forall i :: 0 <= i < |cs| ==> most + p.buffer + Minutes(p, cs[i]) < MIDNIGHT
  }

  lemma RidesFitHops(p: Policy, most: int, cs: seq<Candidate>, currency: string, first: nat, placed: seq<Placed>)
    requires cs != [] && RidesFit(p, most, cs) && Chain(p, most, cs, currency, first, placed)
    ensures HopsFit(p, placed)
  {
    hide BlockOf, BlockAccepted, CostOf, HourOf, Minutes;
    forall i | 0 < i < |placed|
      ensures HopFits(p, placed[i - 1], placed[i])
    {
      assert LinkOk(p, most, cs, currency, first, placed, i - 1) && LinkOk(p, most, cs, currency, first, placed, i);
      assert placed[i - 1].c == cs[(first + i - 1) % |cs|];
    }
  }

  // ---------------------------------------------------------------------------------------------
  // Places

  predicate DistinctCandidates(cs: seq<Candidate>) {
    forall i, j :: 0 <= i < j < |cs| ==> cs[i].place != cs[j].place
  }

  lemma ModDistinct(first: nat, i: nat, j: nat, n: nat)
    requires 0 < n && i < j < i + n
    ensures (first + i) % n != (first + j) % n
  {
    var a, b := (first + i) / n, (first + j) / n;
    assert first + i == n * a + (first + i) % n;
    assert first + j == n * b + (first + j) % n;
    if (first + i) % n == (first + j) % n {
      assert n * (b - a) == j - i;
      MultipleBetween(n, b - a);
    }
  }

  lemma MultipleBetween(n: nat, k: int)
    requires n > 0
    ensures n * k <= 0 || n * k >= n
  {
  }

  /** One round through distinct candidates never repeats a place. */
  lemma DayPlacesDistinct(p: Policy, most: int, cs: seq<Candidate>, currency: string, first: nat, placed: seq<Placed>, date: int)
    requires cs != [] && DistinctCandidates(cs) && |placed| <= |cs| && Chain(p, most, cs, currency, first, placed)
    ensures DistinctPlaces(Day(date, BlocksOf(placed, currency)))
  {
    hide BlockAccepted, CostOf, Minutes, HourOf;
    forall i, j | 0 <= i < j < |placed|
      ensures BlocksOf(placed, currency)[i].place != BlocksOf(placed, currency)[j].place
    {
      assert LinkOk(p, most, cs, currency, first, placed, i) && LinkOk(p, most, cs, currency, first, placed, j);
      ModDistinct(first, i, j, |cs|);
    }
  }

  // ---------------------------------------------------------------------------------------------
  // The order of candidates keeps them distinct

  /** No candidate is named by two of the terms. */
  predicate NoDoubleMatch(cs: seq<Candidate>, terms: seq<string>) {
    forall c, i, j :: 0 <= c < |cs| && 0 <= i < j < |terms| ==> !(Contains(cs[c].name, terms[i]) && Contains(cs[c].name, terms[j]))
  }

  /** `sub` picks elements of `cs`. */
  predicate PicksFrom(sub: seq<Candidate>, cs: seq<Candidate>) {
    forall i :: 0 <= i < |sub| ==> sub[i] in cs
  }

  lemma SamePlaceSameCandidate(cs: seq<Candidate>, x: Candidate, y: Candidate)
    requires DistinctCandidates(cs) && x in cs && y in cs && x.place == y.place
    ensures x == y
  {
  }

  lemma {:induction false} EligibleKeepsDistinct(cs: seq<Candidate>, avoid: seq<string>)
    requires DistinctCandidates(cs)
    ensures PicksFrom(Eligible(cs, avoid), cs) && DistinctCandidates(Eligible(cs, avoid))
  {
    hide Mentions;
    if cs != [] {
      var init, last := cs[..|cs| - 1], cs[|cs| - 1];
      EligibleKeepsDistinct(init, avoid);
      var more := if Mentions(last.name, avoid) then [] else [last];
      LastIsNew(cs, Eligible(init, avoid), more);
    }
  }

  /** Adding the last candidate to picks from the earlier ones keeps places distinct. */
  lemma LastIsNew(cs: seq<Candidate>, picks: seq<Candidate>, more: seq<Candidate>)
    requires cs != [] && DistinctCandidates(cs) && PicksFrom(picks, cs[..|cs| - 1]) && DistinctCandidates(picks)
    requires more == [] || more == [cs[|cs| - 1]]
    ensures PicksFrom(picks + more, cs) && DistinctCandidates(picks + more)
  {
  }

  lemma {:induction false} MatchingPicks(cs: seq<Candidate>, term: string)
    requires DistinctCandidates(cs)
    ensures var m := Matching(cs, term);
            PicksFrom(m, cs) && DistinctCandidates(m) && forall i :: 0 <= i < |m| ==> Contains(m[i].name, term)
  {
    hide Contains;
    if cs != [] {
      var init, last := cs[..|cs| - 1], cs[|cs| - 1];
      MatchingPicks(init, term);
      LastIsNew(cs, Matching(init, term), if Contains(last.name, term) then [last] else []);
    }
  }

  lemma {:induction false} OthersPicks(cs: seq<Candidate>, ids: set<string>)
    requires DistinctCandidates(cs)
    ensures var m := Others(cs, ids);
            PicksFrom(m, cs) && DistinctCandidates(m) && forall i :: 0 <= i < |m| ==> m[i].id !in ids
  {
    if cs != [] {
      var init, last := cs[..|cs| - 1], cs[|cs| - 1];
      OthersPicks(init, ids);
      LastIsNew(cs, Others(init, ids), if last.id in ids then [] else [last]);
    }
  }

  lemma {:induction false} RetainedPicks(cs: seq<Candidate>, visit: seq<string>)
    requires DistinctCandidates(cs) && NoDoubleMatch(cs, visit)
    ensures var m := Retained(cs, visit);
            PicksFrom(m, cs) && DistinctCandidates(m) && forall i :: 0 <= i < |m| ==> Mentions(m[i].name, visit)
  {
    hide Contains;
    if visit != [] {
      var n := |visit| - 1;
      var before, more := Retained(cs, visit[..n]), Matching(cs, visit[n]);
      RetainedPicks(cs, visit[..n]);
      MatchingPicks(cs, visit[n]);
      forall i | 0 <= i < |before|
        ensures Mentions(before[i].name, visit)
      {
        var k :| 0 <= k < n && Contains(before[i].name, visit[..n][k]);
        assert visit[k] == visit[..n][k];
      }
      forall i, j | 0 <= i < |before| && 0 <= j < |more|
        ensures before[i].place != more[j].place
      {
        RetainedOnce(cs, visit, before[i], more[j]);
      }
      forall j | 0 <= j < |more|
        ensures Mentions(more[j].name, visit)
      {
        assert Contains(more[j].name, visit[n]);
      }
    }
  }

  lemma RetainedOnce(cs: seq<Candidate>, visit: seq<string>, x: Candidate, y: Candidate)
    requires visit != [] && DistinctCandidates(cs) && NoDoubleMatch(cs, visit) && x in cs && y in cs
    requires Mentions(x.name, visit[..|visit| - 1]) && Contains(y.name, visit[|visit| - 1])
    ensures x.place != y.place
  {
  }

  lemma OrderedKeepsDistinct(cs: seq<Candidate>, visit: seq<string>)
    requires DistinctCandidates(cs) && NoDoubleMatch(cs, visit)
    ensures PicksFrom(Ordered(cs, visit), cs) && DistinctCandidates(Ordered(cs, visit))
  {
    var retained := Retained(cs, visit);
    var others := Others(cs, Ids(retained));
    RetainedPicks(cs, visit);
    OthersPicks(cs, Ids(retained));
    forall i, j | 0 <= i < |retained| && 0 <= j < |others|
      ensures retained[i].place != others[j].place
    {
      assert retained[i].id in Ids(retained);
      if retained[i].place == others[j].place {
        SamePlaceSameCandidate(cs, retained[i], others[j]);
      }
    }
  }

  // ---------------------------------------------------------------------------------------------
  // What the choice owes the brief

  /** Constraint `a` of the brief is a hard one of this kind, and the name contains its text. */
  predicate Names(cons: seq<Constraint>, kind: ConstraintKind, a: int, name: string) {
    0 <= a < |cons| && cons[a].hard && cons[a].kind == kind && Contains(name, cons[a].text)
  }

  /** Some hard constraint of this kind names it. */
  predicate Named(cons: seq<Constraint>, kind: ConstraintKind, name: string) {
    exists a :: 0 <= a < |cons| && Names(cons, kind, a, name)
  }

  lemma MentionsAppend(name: string, terms: seq<string>, more: seq<string>)
    ensures Mentions(name, terms + more) <==> Mentions(name, terms) || Mentions(name, more)
  {
    hide Contains;
    if i :| 0 <= i < |terms| && Contains(name, terms[i]) {
      assert (terms + more)[i] == terms[i];
    }
    if i :| 0 <= i < |more| && Contains(name, more[i]) {
      assert (terms + more)[|terms| + i] == more[i];
    }
  }

  lemma NamedAppend(cons: seq<Constraint>, kind: ConstraintKind, name: string)
    requires cons != []
    ensures Named(cons, kind, name) <==> Named(cons[..|cons| - 1], kind, name) || Names(cons, kind, |cons| - 1, name)
  {
    hide Contains;
    var n := |cons| - 1;
    if a :| 0 <= a < |cons| && Names(cons, kind, a, name) {
      assert a < n ==> Names(cons[..n], kind, a, name);
    }
    if a :| 0 <= a < n && Names(cons[..n], kind, a, name) {
      assert Names(cons, kind, a, name);
    }
  }

  lemma {:induction false} TermsNameTheSame(cons: seq<Constraint>, kind: ConstraintKind, name: string)
    ensures Mentions(name, Terms(cons, kind)) <==> Named(cons, kind, name)
  {
    hide Contains;
    if cons != [] {
      var n := |cons| - 1;
      var more := if cons[n].hard && cons[n].kind == kind then [cons[n].text] else [];
      TermsNameTheSame(cons[..n], kind, name);
      MentionsAppend(name, Terms(cons[..n], kind), more);
      NamedAppend(cons, kind, name);
      if more != [] {
        assert more[0] == cons[n].text;
      }
    }
  }

  lemma {:induction false} EligibleIff(cs: seq<Candidate>, avoid: seq<string>, c: Candidate)
    ensures c in Eligible(cs, avoid) <==> c in cs && !Mentions(c.name, avoid)
  {
    hide Mentions;
    if cs != [] {
      EligibleIff(cs[..|cs| - 1], avoid, c);
    }
  }

  lemma {:induction false} MatchingIff(cs: seq<Candidate>, term: string, c: Candidate)
    ensures c in Matching(cs, term) <==> c in cs && Contains(c.name, term)
  {
    hide Contains;
    if cs != [] {
      MatchingIff(cs[..|cs| - 1], term, c);
    }
  }

  lemma {:induction false} RetainedIff(cs: seq<Candidate>, visit: seq<string>, c: Candidate)
    ensures c in Retained(cs, visit) <==> c in cs && Mentions(c.name, visit)
  {
    hide Contains, Mentions;
    if visit == [] {
      assert !Mentions(c.name, []) by {
        NothingMentions(c.name);
      }
    } else {
      var n := |visit| - 1;
      RetainedIff(cs, visit[..n], c);
      MatchingIff(cs, visit[n], c);
      MentionsAppend(c.name, visit[..n], [visit[n]]);
      assert visit[..n] + [visit[n]] == visit;
      OneMentions(c.name, visit[n]);
    }
  }

  lemma NothingMentions(name: string)
    ensures !Mentions(name, [])
  {
  }

  lemma OneMentions(name: string, term: string)
    ensures Mentions(name, [term]) <==> Contains(name, term)
  {
    hide Contains;
    assert [term][0] == term;
  }

  lemma {:induction false} OthersIff(cs: seq<Candidate>, ids: set<string>, c: Candidate)
    ensures c in Others(cs, ids) <==> c in cs && c.id !in ids
  {
    if cs != [] {
      OthersIff(cs[..|cs| - 1], ids, c);
    }
  }

  /** The contract of a candidate set: identifiers are unique. */
  predicate UniqueIds(cs: seq<Candidate>) {
    forall i, j :: 0 <= i < j < |cs| ==> cs[i].id != cs[j].id
  }

  lemma OrderedIff(cs: seq<Candidate>, visit: seq<string>, c: Candidate)
    requires forall x, y :: x in cs && y in cs && x.id == y.id ==> x == y
    ensures c in Ordered(cs, visit) <==> c in cs
  {
    hide Mentions;
    var retained := Retained(cs, visit);
    RetainedIff(cs, visit, c);
    OthersIff(cs, Ids(retained), c);
    if c in cs && c.id in Ids(retained) {
      var i :| 0 <= i < |retained| && retained[i].id == c.id;
      RetainedIff(cs, visit, retained[i]);
    }
  }

  lemma SameIdSameCandidate(cs: seq<Candidate>, x: Candidate, y: Candidate)
    requires UniqueIds(cs) && x in cs && y in cs && x.id == y.id
    ensures x == y
  {
    var i :| 0 <= i < |cs| && cs[i] == x;
    var j :| 0 <= j < |cs| && cs[j] == y;
    assert i == j;
  }

  /** A candidate is available to the plan exactly when no hard avoid constraint names it. */
  lemma ChosenIff(brief: Brief, cs: seq<Candidate>, c: Candidate)
    requires UniqueIds(cs)
    ensures c in Chosen(brief, cs) <==> c in cs && !Named(brief.constraints, Avoid, c.name)
  {
    hide Mentions, Named, Ordered, Eligible, Terms, UniqueIds;
    var avoid := Terms(brief.constraints, Avoid);
    EligibleIff(cs, avoid, c);
    TermsNameTheSame(brief.constraints, Avoid, c.name);
    forall x, y | x in Eligible(cs, avoid) && y in Eligible(cs, avoid) && x.id == y.id
      ensures x == y
    {
      EligibleIff(cs, avoid, x);
      EligibleIff(cs, avoid, y);
      SameIdSameCandidate(cs, x, y);
    }
    OrderedIff(Eligible(cs, avoid), Terms(brief.constraints, Visit), c);
  }

  /** No candidate is chosen that the brief forbids, with or without unique identifiers. */
  lemma ChosenAreAllowed(brief: Brief, cs: seq<Candidate>, c: Candidate)
    requires c in Chosen(brief, cs)
    ensures c in cs && !Named(brief.constraints, Avoid, c.name)
  {
    hide Mentions, Named, Eligible, Terms, Retained, Others;
    var avoid, visit := Terms(brief.constraints, Avoid), Terms(brief.constraints, Visit);
    var eligible := Eligible(cs, avoid);
    EligibleIff(cs, avoid, c);
    TermsNameTheSame(brief.constraints, Avoid, c.name);
    RetainedIff(eligible, visit, c);
    OthersIff(eligible, Ids(Retained(eligible, visit)), c);
  }

  /** Candidates run out exactly when a hard avoid constraint names each of them. */
  lemma NoCandidatesIff(p: Policy, brief: Brief, cs: seq<Candidate>, legs: nat -> Leg)
    ensures Build(p, brief, cs, legs, true) == Err(NoCandidates) <==>
            forall i :: 0 <= i < |cs| ==> Named(brief.constraints, Avoid, cs[i].name)
  {
    hide PlanDays, Named, Mentions, Terms, Ordered, Eligible, TotalMin, TotalMax;
    var avoid := Terms(brief.constraints, Avoid);
    var eligible := Eligible(cs, avoid);
    if eligible != [] {
      EligibleIff(cs, avoid, eligible[0]);
      TermsNameTheSame(brief.constraints, Avoid, eligible[0].name);
      var i :| 0 <= i < |cs| && cs[i] == eligible[0];
      PlanErrors(p, Chosen(brief, cs), legs, brief.budget.currency, Window(brief));
    }
    forall i | 0 <= i < |cs| && eligible == []
      ensures Named(brief.constraints, Avoid, cs[i].name)
    {
      EligibleIff(cs, avoid, cs[i]);
      TermsNameTheSame(brief.constraints, Avoid, cs[i].name);
    }
  }

  lemma {:induction false} PlanErrors(p: Policy, cs: seq<Candidate>, legs: nat -> Leg, currency: string, n: nat)
    requires cs != []
    ensures PlanDays(p, cs, legs, currency, n) != Err(NoCandidates)
  {
    if n > 0 {
      hide Fill, StartsOrdered;
      PlanErrors(p, cs, legs, currency, n - 1);
      var before := PlanDays(p, cs, legs, currency, n - 1);
      if before.Ok? {
        FillErrors(p, cs, legs, currency, Rounds(p, cs), 0, before.value.state.(placed := [], now := 60 * p.startHour));
      }
    }
  }

  lemma {:induction false} FillErrors(p: Policy, cs: seq<Candidate>, legs: nat -> Leg, currency: string, rounds: int, k: int, s: State)
    requires cs != []
    ensures Fill(p, cs, legs, currency, rounds, k, s) != Err(NoCandidates)
    decreases rounds - k
  {
    hide Proposed, BlockOf, CostOf, HourOf, BlockAccepted;
    if k < rounds {
      var x := Proposed(p, cs, legs, s);
      FillErrors(p, cs, legs, currency, rounds, k + 1, Moved(legs, s).(placed := s.placed + [x], now := x.until));
    }
  }

  // ---------------------------------------------------------------------------------------------
  // The order of the choice

  /** The picks keep the order of the list. */
  ghost predicate KeepsOrder(sub: seq<Candidate>, cs: seq<Candidate>) {
    forall i, j :: 0 <= i < j < |sub| ==> Precedes(cs, sub[i], sub[j])
  }

  predicate Precedes(cs: seq<Candidate>, x: Candidate, y: Candidate) {
    exists a, b :: 0 <= a < b < |cs| && cs[a] == x && cs[b] == y
  }

  lemma OneMoreKeepsOrder(cs: seq<Candidate>, picks: seq<Candidate>, more: seq<Candidate>)
    requires cs != [] && KeepsOrder(picks, cs[..|cs| - 1]) && PicksFrom(picks, cs[..|cs| - 1])
    requires more == [] || more == [cs[|cs| - 1]]
    ensures KeepsOrder(picks + more, cs) && PicksFrom(picks + more, cs)
  {
    var n := |cs| - 1;
    forall i, j | 0 <= i < j < |picks + more|
      ensures Precedes(cs, (picks + more)[i], (picks + more)[j])
    {
      if j < |picks| {
        assert Precedes(cs[..n], picks[i], picks[j]);
        var a, b :| 0 <= a < b < n && cs[..n][a] == picks[i] && cs[..n][b] == picks[j];
        assert cs[a] == picks[i] && cs[b] == picks[j];
      } else {
        var a :| 0 <= a < n && cs[..n][a] == picks[i];
        assert cs[a] == picks[i] && cs[n] == more[0];
      }
    }
    forall i | 0 <= i < |picks|
      ensures picks[i] in cs
    {
      assert picks[i] in cs[..n];
    }
  }

  lemma {:induction false} EligibleKeepsOrder(cs: seq<Candidate>, avoid: seq<string>)
    ensures KeepsOrder(Eligible(cs, avoid), cs) && PicksFrom(Eligible(cs, avoid), cs)
  {
    hide Mentions;
    if cs != [] {
      EligibleKeepsOrder(cs[..|cs| - 1], avoid);
      OneMoreKeepsOrder(cs, Eligible(cs[..|cs| - 1], avoid), if Mentions(cs[|cs| - 1].name, avoid) then [] else [cs[|cs| - 1]]);
    }
  }

  lemma {:induction false} MatchingKeepsOrder(cs: seq<Candidate>, term: string)
    ensures KeepsOrder(Matching(cs, term), cs) && PicksFrom(Matching(cs, term), cs)
  {
    hide Contains;
    if cs != [] {
      MatchingKeepsOrder(cs[..|cs| - 1], term);
      OneMoreKeepsOrder(cs, Matching(cs[..|cs| - 1], term), if Contains(cs[|cs| - 1].name, term) then [cs[|cs| - 1]] else []);
    }
  }

  lemma {:induction false} OthersKeepOrder(cs: seq<Candidate>, ids: set<string>)
    ensures KeepsOrder(Others(cs, ids), cs) && PicksFrom(Others(cs, ids), cs)
  {
    if cs != [] {
      OthersKeepOrder(cs[..|cs| - 1], ids);
      OneMoreKeepsOrder(cs, Others(cs[..|cs| - 1], ids), if cs[|cs| - 1].id in ids then [] else [cs[|cs| - 1]]);
    }
  }

  lemma PrecedesAgain(cs: seq<Candidate>, sub: seq<Candidate>, x: Candidate, y: Candidate)
    requires KeepsOrder(sub, cs) && Precedes(sub, x, y)
    ensures Precedes(cs, x, y)
  {
    var a, b :| 0 <= a < b < |sub| && sub[a] == x && sub[b] == y;
    assert Precedes(cs, sub[a], sub[b]);
  }

  /** Among the candidates that terms name, an earlier place means a term that is not later, and the list's order within a term. */
  ghost predicate TermByTerm(list: seq<Candidate>, cs: seq<Candidate>, visit: seq<string>) {
    forall i, j, b :: 0 <= i < j < |list| && 0 <= b < |visit| && Contains(list[j].name, visit[b]) ==>
      exists a :: 0 <= a <= b && Contains(list[i].name, visit[a]) && (a == b ==> Precedes(cs, list[i], list[j]))
  }

  lemma {:induction false} RetainedTermByTerm(cs: seq<Candidate>, visit: seq<string>)
    requires NoDoubleMatch(cs, visit)
    ensures TermByTerm(Retained(cs, visit), cs, visit)
  {
    hide Contains, Precedes, KeepsOrder;
    if visit != [] {
      var n := |visit| - 1;
      assert NoDoubleMatch(cs, visit[..n]) by {
        forall c, i, j | 0 <= c < |cs| && 0 <= i < j < n
          ensures !(Contains(cs[c].name, visit[..n][i]) && Contains(cs[c].name, visit[..n][j]))
        {
          assert visit[..n][i] == visit[i] && visit[..n][j] == visit[j];
        }
      }
      RetainedTermByTerm(cs, visit[..n]);
      var list: seq<Candidate> := Retained(cs, visit);
      forall i, j, b | 0 <= i < j < |list| && 0 <= b <= n && Contains(list[j].name, visit[b])
        ensures exists a :: 0 <= a <= b && Contains(list[i].name, visit[a]) && (a == b ==> Precedes(cs, list[i], list[j]))
      {
        TermStep(cs, visit, i, j, b);
      }
    }
  }

  /** The terms of a candidate are one only. */
  lemma OneTerm(cs: seq<Candidate>, visit: seq<string>, c: Candidate, a: int, b: int)
    requires NoDoubleMatch(cs, visit) && c in cs && 0 <= a < |visit| && 0 <= b < |visit|
    requires Contains(c.name, visit[a]) && Contains(c.name, visit[b])
    ensures a == b
  {
    hide Contains;
    var k :| 0 <= k < |cs| && cs[k] == c;
    assert Contains(cs[k].name, visit[a]) && Contains(cs[k].name, visit[b]);
  }

  lemma TermStep(cs: seq<Candidate>, visit: seq<string>, i: int, j: int, b: int)
    requires visit != [] && NoDoubleMatch(cs, visit)
    requires TermByTerm(Retained(cs, visit[..|visit| - 1]), cs, visit[..|visit| - 1])
    requires 0 <= i < j < |Retained(cs, visit)| && 0 <= b < |visit| && Contains(Retained(cs, visit)[j].name, visit[b])
    ensures var list := Retained(cs, visit);
            exists a :: 0 <= a <= b && Contains(list[i].name, visit[a]) && (a == b ==> Precedes(cs, list[i], list[j]))
  {
    hide Contains, Precedes, NoDoubleMatch;
    var n := |visit| - 1;
    var before, more := Retained(cs, visit[..n]), Matching(cs, visit[n]);
    var list := Retained(cs, visit);
    assert list == before + more;
    if j < |before| {
      RetainedIff(cs, visit[..n], before[j]);
      var c :| 0 <= c < n && Contains(before[j].name, visit[..n][c]);
      assert visit[..n][c] == visit[c];
      OneTerm(cs, visit, before[j], b, c);
      assert Contains(before[j].name, visit[..n][b]);
      var a :| 0 <= a <= b && Contains(before[i].name, visit[..n][a]) && (a == b ==> Precedes(cs, before[i], before[j]));
      assert visit[..n][a] == visit[a] && list[i] == before[i] && list[j] == before[j];
    } else {
      assert list[j] == more[j - |before|];
      MatchingIff(cs, visit[n], list[j]);
      OneTerm(cs, visit, list[j], b, n);
      if i < |before| {
        RetainedIff(cs, visit[..n], before[i]);
        var c :| 0 <= c < n && Contains(before[i].name, visit[..n][c]);
        assert visit[..n][c] == visit[c] && list[i] == before[i];
      } else {
        assert list[i] == more[i - |before|];
        MatchingIff(cs, visit[n], list[i]);
        MatchingKeepsOrder(cs, visit[n]);
        assert Precedes(cs, more[i - |before|], more[j - |before|]) by {
          InOrderAt(more, cs, i - |before|, j - |before|);
        }
      }
    }
  }

  lemma InOrderAt(sub: seq<Candidate>, cs: seq<Candidate>, i: int, j: int)
    requires KeepsOrder(sub, cs) && 0 <= i < j < |sub|
    ensures Precedes(cs, sub[i], sub[j])
  {
  }

  /** The places of the hard constraints of one kind. */
  function Places(cons: seq<Constraint>, kind: ConstraintKind): seq<nat> {
    if cons == [] then []
    else
      var n := |cons| - 1;
      Places(cons[..n], kind) + if cons[n].hard && cons[n].kind == kind then [n] else []
  }

  /** The terms are the texts of these constraints in their order, and no such constraint is left out. */
  lemma {:induction false} TermsInOrder(cons: seq<Constraint>, kind: ConstraintKind)
    ensures |Places(cons, kind)| == |Terms(cons, kind)|
    ensures forall k :: 0 <= k < |Terms(cons, kind)| ==>
              var a := Places(cons, kind)[k];
              a < |cons| && cons[a].hard && cons[a].kind == kind && Terms(cons, kind)[k] == cons[a].text
    ensures forall k, m :: 0 <= k < m < |Places(cons, kind)| ==> Places(cons, kind)[k] < Places(cons, kind)[m]
    ensures forall a :: 0 <= a < |cons| && cons[a].hard && cons[a].kind == kind ==> a in Places(cons, kind)
  {
    if cons != [] {
      TermsInOrder(cons[..|cons| - 1], kind);
    }
  }

  /**
   * The order of the choice: whoever comes before a candidate that hard visit constraint `b` names
   * is named by one that is not later, and candidates of one constraint, like those of none, keep the
   * order of the candidate set.
   */
  lemma ChosenInOrder(brief: Brief, cs: seq<Candidate>, i: nat, j: nat)
    requires NoDoubleMatch(cs, Terms(brief.constraints, Visit)) && i < j < |Chosen(brief, cs)|
    ensures var x, y := Chosen(brief, cs)[i], Chosen(brief, cs)[j];
            && (forall b :: Names(brief.constraints, Visit, b, y.name) ==>
                  exists a :: a <= b && Names(brief.constraints, Visit, a, x.name) && (a == b ==> Precedes(cs, x, y)))
            && (!Named(brief.constraints, Visit, x.name) ==> !Named(brief.constraints, Visit, y.name) && Precedes(cs, x, y))
  {
    hide Contains, Mentions, Named, Eligible, Terms, Precedes, NoDoubleMatch, KeepsOrder, TermByTerm;
    var avoid, visit := Terms(brief.constraints, Avoid), Terms(brief.constraints, Visit);
    var eligible := Eligible(cs, avoid);
    EligibleKeepsOrder(cs, avoid);
    PicksKeepMatches(eligible, cs, visit);
    OrderedInOrder(eligible, visit, i, j);
    var x, y := Chosen(brief, cs)[i], Chosen(brief, cs)[j];
    if Precedes(eligible, x, y) {
      PrecedesAgain(cs, eligible, x, y);
    }
    TermsNameTheSame(brief.constraints, Visit, x.name);
    TermsNameTheSame(brief.constraints, Visit, y.name);
    forall b | Names(brief.constraints, Visit, b, y.name)
      ensures exists a :: a <= b && Names(brief.constraints, Visit, a, x.name) && (a == b ==> Precedes(cs, x, y))
    {
      var l := TermOf(brief.constraints, Visit, b);
      var k :| 0 <= k <= l && Contains(x.name, visit[k]) && (k == l ==> Precedes(eligible, x, y));
      PlaceOf(brief.constraints, Visit, k, l);
      assert Names(brief.constraints, Visit, Places(brief.constraints, Visit)[k], x.name);
    }
  }

  lemma TermOf(cons: seq<Constraint>, kind: ConstraintKind, b: int) returns (l: nat)
    requires 0 <= b < |cons| && cons[b].hard && cons[b].kind == kind
    ensures l < |Terms(cons, kind)| == |Places(cons, kind)| && Places(cons, kind)[l] == b && Terms(cons, kind)[l] == cons[b].text
  {
    TermsInOrder(cons, kind);
    hide Terms, Places;
    l :| 0 <= l < |Places(cons, kind)| && Places(cons, kind)[l] == b;
  }

  lemma PlaceOf(cons: seq<Constraint>, kind: ConstraintKind, k: nat, l: nat)
    requires k <= l < |Terms(cons, kind)|
    ensures |Places(cons, kind)| == |Terms(cons, kind)| && Places(cons, kind)[k] <= Places(cons, kind)[l]
    ensures Places(cons, kind)[k] == Places(cons, kind)[l] ==> k == l
    ensures var a := Places(cons, kind)[k]; a < |cons| && cons[a].hard && cons[a].kind == kind && Terms(cons, kind)[k] == cons[a].text
  {
    TermsInOrder(cons, kind);
  }

  lemma OrderedInOrder(cs: seq<Candidate>, visit: seq<string>, i: nat, j: nat)
    requires NoDoubleMatch(cs, visit) && i < j < |Ordered(cs, visit)|
    ensures var x, y := Ordered(cs, visit)[i], Ordered(cs, visit)[j];
            && (forall b :: 0 <= b < |visit| && Contains(y.name, visit[b]) ==>
                  exists a :: 0 <= a <= b && Contains(x.name, visit[a]) && (a == b ==> Precedes(cs, x, y)))
            && (!Mentions(x.name, visit) ==> !Mentions(y.name, visit) && Precedes(cs, x, y))
  {
    hide Contains, Precedes, NoDoubleMatch, KeepsOrder, Retained, Others;
    var retained := Retained(cs, visit);
    var others := Others(cs, Ids(retained));
    var list := Ordered(cs, visit);
    RetainedTermByTerm(cs, visit);
    OthersKeepOrder(cs, Ids(retained));
    if j < |retained| {
      assert list[i] == retained[i] && list[j] == retained[j];
      RetainedIff(cs, visit, retained[i]);
    } else {
      assert list[j] == others[j - |retained|];
      OtherIsNotNamed(cs, visit, list[j]);
      if i < |retained| {
        RetainedIff(cs, visit, retained[i]);
      } else {
        InOrderAt(others, cs, i - |retained|, j - |retained|);
      }
    }
  }

  lemma OtherIsNotNamed(cs: seq<Candidate>, visit: seq<string>, c: Candidate)
    requires c in Others(cs, Ids(Retained(cs, visit)))
    ensures !Mentions(c.name, visit)
  {
    hide Mentions;
    OthersIff(cs, Ids(Retained(cs, visit)), c);
    RetainedIff(cs, visit, c);
  }

  // ---------------------------------------------------------------------------------------------
  // Main results

  /** A planned day: a chain from some position of the cursor, of at most one round, with ordered starts. */
  ghost predicate DayFits(p: Policy, most: int, cs: seq<Candidate>, currency: string, placed: seq<Placed>)
    requires cs != []
  {
    0 < |placed| <= |cs| && StartsOrdered(placed) && exists first: nat :: Chain(p, most, cs, currency, first, placed)
  }

  lemma {:induction false} PlannedDaysFit(p: Policy, most: int, cs: seq<Candidate>, legs: nat -> Leg, currency: string, n: nat)
    requires cs != [] && LegsOk(legs, most)
    ensures var g := PlanDays(p, cs, legs, currency, n);
            g.Ok? ==> |g.value.days| == n && forall d :: 0 <= d < n ==> DayFits(p, most, cs, currency, g.value.days[d])
  {
    hide FillDay, Chain, StartsOrdered;
    if n > 0 {
      PlannedDaysFit(p, most, cs, legs, currency, n - 1);
      var before := PlanDays(p, cs, legs, currency, n - 1);
      if before.Ok? {
        DayShape(p, most, cs, legs, currency, before.value.state);
      }
    }
  }

  predicate RefsKnown(cs: seq<Candidate>, ev: Evidence) {
    forall i :: 0 <= i < |cs| ==> Known(cs[i].refs, ev)
  }

  lemma DayRefsOk(p: Policy, most: int, cs: seq<Candidate>, currency: string, placed: seq<Placed>, ev: Evidence)
    requires cs != [] && DayFits(p, most, cs, currency, placed) && RefsKnown(cs, ev)
    ensures forall i :: 0 <= i < |placed| ==> RefsOk(BlocksOf(placed, currency)[i], ev)
  {
    hide BlockAccepted, CostOf, Minutes, HourOf;
    var first: nat :| Chain(p, most, cs, currency, first, placed);
    forall i | 0 <= i < |placed|
      ensures RefsOk(BlocksOf(placed, currency)[i], ev)
    {
      assert LinkOk(p, most, cs, currency, first, placed, i);
      assert Known(cs[(first + i) % |cs|].refs, ev);
    }
  }

  lemma DayOkTimes(day: Day, ev: Evidence)
    requires DayOk(day, ev)
    ensures TimesOk(day.blocks)
  {
    hide DurationOk, GapOk, RefsOk, DistinctPlaces;
    forall i | 0 <= i < |day.blocks|
      ensures DurationOk(day.blocks[i]) && (i > 0 ==> GapOk(day.blocks[i - 1], day.blocks[i]))
    {
      assert BlockOk(day, i, ev);
    }
  }

  /**
   * A planned day with distinct, evidenced candidates passes the day checks exactly when none of its
   * blocks passes midnight, which is exactly when every ride leaves room for it.
   */
  lemma PlannedDayOk(p: Policy, most: int, cs: seq<Candidate>, currency: string, placed: seq<Placed>, date: int, ev: Evidence)
    requires cs != [] && DayFits(p, most, cs, currency, placed) && RefsKnown(cs, ev) && DistinctCandidates(cs)
    requires 0 <= p.buffer < MIDNIGHT && 0 <= p.startHour < 24
    ensures DayOk(Day(date, BlocksOf(placed, currency)), ev) <==> BeforeMidnight(placed)
    ensures DayOk(Day(date, BlocksOf(placed, currency)), ev) <==> HopsFit(p, placed)
  {
    var day := Day(date, BlocksOf(placed, currency));
    var first: nat :| Chain(p, most, cs, currency, first, placed);
    EarlyIffHopsFit(p, most, cs, currency, first, placed);
    DayPlacesDistinct(p, most, cs, currency, first, placed, date);
    DayRefsOk(p, most, cs, currency, placed, ev);
    hide Chain, DurationOk, GapOk, RefsOk, DistinctPlaces, HopsFit, StartsOrdered;
    if BeforeMidnight(placed) {
      EarlyDayPasses(p, most, cs, currency, first, placed);
    }
    if DayOk(day, ev) {
      DayOkTimes(day, ev);
      forall i | 0 <= i < |placed|
        ensures 0 <= placed[i].at && placed[i].until < MIDNIGHT
      {
        PassingDayIsEarly(p, most, cs, currency, first, placed, i);
      }
    }
  }

  /** What the block of a candidate carries: its place, name, evidence and cost, for at most four hours. */
  predicate Carries(p: Policy, currency: string, b: Block, c: Candidate) {
    && b.place == c.place && b.title == c.name && b.refs == c.refs
    && b.cost == Some(if c.cost.Some? then c.cost.value else Cost(0.0, 0.0, currency)) && b.cost.value.currency == currency
    && b.minutes == (var wanted := if c.recommended.Some? && c.recommended.value > 0 then c.recommended.value else p.defaultMinutes;
                     if wanted > 240 then 240 else wanted)
    && 0 < b.minutes && b.endDay == 0 && b.start < b.end
  }

  /** Block `i` of a day comes from a candidate that the brief does not forbid, and has its place in the day. */
  ghost predicate Follows(p: Policy, brief: Brief, cs: seq<Candidate>, b: Block, i: nat) {
    && (exists c :: c in cs && Carries(p, brief.budget.currency, b, c))
    && !Named(brief.constraints, Avoid, b.title)
    && (i == 0 ==> b.start == 3600 * p.startHour && b.transit.None?)
    && (i > 0 ==> b.transit.Some? && b.end < 3600 * p.endHour)
  }

  lemma LinkFollows(p: Policy, most: int, brief: Brief, cs: seq<Candidate>, first: nat, placed: seq<Placed>, i: nat)
    requires Chosen(brief, cs) != [] && 0 <= p.startHour < 24 && i < |placed|
    requires LinkOk(p, most, Chosen(brief, cs), brief.budget.currency, first, placed, i)
    ensures Follows(p, brief, cs, BlockOf(placed[i], brief.budget.currency), i)
  {
    hide Chosen, Named, HourOf;
    var chosen := Chosen(brief, cs);
    var c := chosen[(first + i) % |chosen|];
    assert c in chosen;
    ChosenAreAllowed(brief, cs, c);
    assert Carries(p, brief.budget.currency, BlockOf(placed[i], brief.budget.currency), c);
    hide Carries, BlockAccepted, Minutes, CostOf;
    StartOfDay(p.startHour);
    EndsBefore(placed[i].until, p.endHour);
  }

  lemma StartOfDay(hour: int)
    requires 0 <= hour < 24
    ensures 60 * (60 * hour % MIDNIGHT) == 3600 * hour
  {
  }

  lemma EndsBefore(until: int, hour: int)
    ensures HourOf(until) < hour ==> 60 * (until % MIDNIGHT) < 3600 * hour
  {
  }

  /**
   * A plan has one day for every date of the window, each with at least one and at most the allowed
   * number of blocks, and every block follows the brief: no title contains a hard avoid term.
   */
  lemma PlanFollowsTheBrief(p: Policy, most: int, brief: Brief, cs: seq<Candidate>, legs: nat -> Leg, d: nat)
    requires Build(p, brief, cs, legs, true).Ok? && LegsOk(legs, most)
    ensures var plan := Build(p, brief, cs, legs, true).value.plan;
            && |plan.days| == brief.end - brief.start + 1
            && (d < |plan.days| ==>
                  && plan.days[d].date == brief.start + d
                  && 1 <= |plan.days[d].blocks| <= p.maxBlocks
                  && forall i :: 0 <= i < |plan.days[d].blocks| ==> Follows(p, brief, cs, plan.days[d].blocks[i], i))
  {
    hide PlanDays, TotalMin, TotalMax, Eligible, Terms, Ordered, StartsOrdered, LinkOk, Follows, BlockOf;
    var chosen, currency := Chosen(brief, cs), brief.budget.currency;
    PlannedDaysFit(p, most, chosen, legs, currency, Window(brief));
    PlannedDaysBounded(p, most, chosen, legs, currency, Window(brief));
    var plan := Build(p, brief, cs, legs, true).value.plan;
    var days := PlacedDays(p, brief, cs, legs);
    assert |plan.days| == |days|;
    if d < |days| {
      var first: nat :| Chain(p, most, chosen, currency, first, days[d]);
      forall i | 0 <= i < |days[d]|
        ensures Follows(p, brief, cs, plan.days[d].blocks[i], i)
      {
        assert LinkOk(p, most, chosen, currency, first, days[d], i);
        LinkFollows(p, most, brief, cs, first, days[d], i);
      }
    }
  }

  lemma {:induction false} PlannedDaysBounded(p: Policy, most: int, cs: seq<Candidate>, legs: nat -> Leg, currency: string, n: nat)
    requires cs != [] && LegsOk(legs, most)
    ensures var g := PlanDays(p, cs, legs, currency, n);
            g.Ok? ==> forall d :: 0 <= d < |g.value.days| ==> |g.value.days[d]| <= Max(0, p.maxBlocks)
  {
    hide FillDay, Chain, StartsOrdered, LegsOk;
    var g := PlanDays(p, cs, legs, currency, n);
    if n > 0 && g.Ok? {
      PlannedDaysBounded(p, most, cs, legs, currency, n - 1);
      var before := PlanDays(p, cs, legs, currency, n - 1).value;
      var filled := FillDay(p, cs, legs, currency, before.state);
      FillBounded(p, most, cs, legs, currency, before.state);
      assert g.value.days == before.days + [filled.value.placed];
    }
  }

  /** What the planner's contract and its callers provide about the candidates. */
  predicate GoodCandidates(brief: Brief, cs: seq<Candidate>, ev: Evidence) {
    DistinctCandidates(cs) && NoDoubleMatch(cs, Terms(brief.constraints, Visit)) && RefsKnown(cs, ev)
  }

  lemma PicksKeepRefs(sub: seq<Candidate>, cs: seq<Candidate>, ev: Evidence)
    requires PicksFrom(sub, cs) && RefsKnown(cs, ev)
    ensures RefsKnown(sub, ev)
  {
  }

  lemma PicksKeepMatches(sub: seq<Candidate>, cs: seq<Candidate>, terms: seq<string>)
    requires PicksFrom(sub, cs) && NoDoubleMatch(cs, terms)
    ensures NoDoubleMatch(sub, terms)
  {
  }

  lemma ChosenAreGood(brief: Brief, cs: seq<Candidate>, ev: Evidence)
    requires GoodCandidates(brief, cs, ev)
    ensures DistinctCandidates(Chosen(brief, cs)) && RefsKnown(Chosen(brief, cs), ev)
  {
    hide DistinctCandidates, NoDoubleMatch, RefsKnown, PicksFrom;
    var avoid, visit := Terms(brief.constraints, Avoid), Terms(brief.constraints, Visit);
    var eligible := Eligible(cs, avoid);
    EligibleKeepsDistinct(cs, avoid);
    PicksKeepRefs(eligible, cs, ev);
    PicksKeepMatches(eligible, cs, visit);
    OrderedKeepsDistinct(eligible, visit);
    PicksKeepRefs(Ordered(eligible, visit), eligible, ev);
  }

  /** The placed blocks behind a plan. */
  function PlacedDays(p: Policy, brief: Brief, cs: seq<Candidate>, legs: nat -> Leg): seq<seq<Placed>>
    requires Build(p, brief, cs, legs, true).Ok?
  {
    PlanDays(p, Chosen(brief, cs), legs, brief.budget.currency, Window(brief)).value.days
  }

  predicate AllHopsFit(p: Policy, days: seq<seq<Placed>>) {
    forall d :: 0 <= d < |days| ==> HopsFit(p, days[d])
  }

  predicate AllBeforeMidnight(days: seq<seq<Placed>>) {
    forall d :: 0 <= d < |days| ==> BeforeMidnight(days[d])
  }

  /**
   * On distinct candidates with known evidence, none named by two visit terms, the planner's output
   * passes the validator's date checks, and it passes the duplicate, duration, route and reference
   * checks exactly when every ride it places, with the buffer and the stay before it, takes less than
   * a day; that is when no placed block passes midnight.
   */
  lemma PlannerOutputPasses(p: Policy, most: int, brief: Brief, cs: seq<Candidate>, legs: nat -> Leg, ev: Evidence)
    requires Build(p, brief, cs, legs, true).Ok? && LegsOk(legs, most) && 0 <= p.buffer < MIDNIGHT
    requires GoodCandidates(brief, cs, ev)
    ensures var plan := Build(p, brief, cs, legs, true).value.plan;
            && InWindow(brief, plan)
            && ((forall d :: 0 <= d < |plan.days| ==> DayOk(plan.days[d], ev)) <==> AllHopsFit(p, PlacedDays(p, brief, cs, legs)))
            && (AllHopsFit(p, PlacedDays(p, brief, cs, legs)) <==> AllBeforeMidnight(PlacedDays(p, brief, cs, legs)))
  {
    hide PlanDays, DayFits, DayOk, BeforeMidnight, HopsFit, TotalMin, TotalMax, Eligible, Terms, Ordered, DistinctCandidates, RefsKnown;
    var chosen := Chosen(brief, cs);
    var currency := brief.budget.currency;
    var days := PlacedDays(p, brief, cs, legs);
    var plan := Build(p, brief, cs, legs, true).value.plan;
    PlannedDaysFit(p, most, chosen, legs, currency, Window(brief));
    ChosenAreGood(brief, cs, ev);
    assert |plan.days| == |days| == Window(brief);
    forall d | 0 <= d < |days|
      ensures DayOk(plan.days[d], ev) <==> BeforeMidnight(days[d])
      ensures DayOk(plan.days[d], ev) <==> HopsFit(p, days[d])
    {
      PlannedDayOk(p, most, chosen, currency, days[d], brief.start + d, ev);
    }
  }

  /** A condition on policy, candidates and route bound alone under which no block passes midnight. */
  lemma FittingRidesStayEarly(p: Policy, most: int, brief: Brief, cs: seq<Candidate>, legs: nat -> Leg)
    requires Build(p, brief, cs, legs, true).Ok? && LegsOk(legs, most) && 0 <= p.buffer
    requires RidesFit(p, most, Chosen(brief, cs))
    ensures AllHopsFit(p, PlacedDays(p, brief, cs, legs)) && AllBeforeMidnight(PlacedDays(p, brief, cs, legs))
  {
    hide PlanDays, TotalMin, TotalMax, Eligible, Terms, Ordered, Chain, RidesFit, HopsFit, BeforeMidnight, StartsOrdered;
    var chosen, currency := Chosen(brief, cs), brief.budget.currency;
    PlannedDaysFit(p, most, chosen, legs, currency, Window(brief));
    var days := PlacedDays(p, brief, cs, legs);
    forall d | 0 <= d < |days|
      ensures HopsFit(p, days[d]) && BeforeMidnight(days[d])
    {
      assert DayFits(p, most, chosen, currency, days[d]);
      var first: nat :| Chain(p, most, chosen, currency, first, days[d]);
      RidesFitHops(p, most, chosen, currency, first, days[d]);
      EarlyIffHopsFit(p, most, chosen, currency, first, days[d]);
    }
  }

  /** Then every one of those checks passes. */
  lemma FittingRidesPass(p: Policy, most: int, brief: Brief, cs: seq<Candidate>, legs: nat -> Leg, ev: Evidence)
    requires Build(p, brief, cs, legs, true).Ok? && LegsOk(legs, most) && 0 <= p.buffer < MIDNIGHT
    requires GoodCandidates(brief, cs, ev) && RidesFit(p, most, Chosen(brief, cs))
    ensures var plan := Build(p, brief, cs, legs, true).value.plan;
            InWindow(brief, plan) && forall d :: 0 <= d < |plan.days| ==> DayOk(plan.days[d], ev)
  {
    hide Build, PlacedDays, DayOk, GoodCandidates, RidesFit;
    FittingRidesStayEarly(p, most, brief, cs, legs);
    PlannerOutputPasses(p, most, brief, cs, legs, ev);
  }

  // ---------------------------------------------------------------------------------------------
  // The bound on rides is exact

  /** Two stays of which either fits the first slot of a day, paid in the currency of the trip. */
  predicate PairFits(p: Policy, x: Candidate, y: Candidate, currency: string) {
    && 0 <= p.startHour && p.endHour <= 24
    && Minutes(p, x) > 0 && 60 * p.startHour + Minutes(p, x) < MIDNIGHT
    && Minutes(p, y) > 0 && 60 * p.startHour + Minutes(p, y) < 60 * p.endHour
    && CostOf(x, currency).currency == currency && CostOf(y, currency).currency == currency
  }

  /** A ride that brings the second block to the start of the next day, or so much later that it still ends before closing. */
  predicate RideWraps(p: Policy, x: Candidate, y: Candidate, ride: int) {
    var late := ride + p.buffer + Minutes(p, x) - MIDNIGHT;
    0 <= late && 60 * p.startHour + late + Minutes(p, y) < 60 * p.endHour
  }

  lemma WrappedBlock(p: Policy, y: Candidate, late: int, ride: int, meters: int, currency: string)
    requires 0 <= p.startHour && 0 <= late && Minutes(p, y) > 0 && p.endHour <= 24
    requires 60 * p.startHour + late + Minutes(p, y) < 60 * p.endHour
    ensures var at := MIDNIGHT + 60 * p.startHour + late;
            var b := Placed(y, at, at + Minutes(p, y), Some(Leg(ride, meters)));
            && BlockAccepted(BlockOf(b, currency)) && HourOf(b.until) < p.endHour
            && b.at % MIDNIGHT == 60 * p.startHour + late
  {
    hide Minutes, CostOf;
    var at := MIDNIGHT + 60 * p.startHour + late;
    assert at % MIDNIGHT == 60 * p.startHour + late;
    assert (at + Minutes(p, y)) % MIDNIGHT == 60 * p.startHour + late + Minutes(p, y);
  }

  /** Two proposals that are accepted one after the other make the day. */
  lemma TwoStaysFill(p: Policy, cs: seq<Candidate>, legs: nat -> Leg, currency: string, s: State, x: Placed, y: Placed)
    requires cs != [] && Rounds(p, cs) == 2
    requires var start := s.(placed := [], now := 60 * p.startHour);
             && Proposed(p, cs, legs, start) == x
             && Proposed(p, cs, legs, Moved(legs, start).(placed := [x], now := x.until)) == y
    requires CostOf(x.c, currency).currency == currency && BlockAccepted(BlockOf(x, currency))
    requires CostOf(y.c, currency).currency == currency && BlockAccepted(BlockOf(y, currency)) && HourOf(y.until) < p.endHour
    requires x.at % MIDNIGHT <= y.at % MIDNIGHT
    ensures var day := FillDay(p, cs, legs, currency, s); day.Ok? && day.value.placed == [x, y]
  {
    hide Proposed, BlockOf, BlockAccepted, HourOf, CostOf, Rounds;
    var start := s.(placed := [], now := 60 * p.startHour);
    assert [] + [x] == [x];
    var one := Moved(legs, start).(placed := [x], now := x.until);
    var two := Moved(legs, one).(placed := [x] + [y], now := y.until);
    assert two.placed == [x, y];
    assert Fill(p, cs, legs, currency, 2, 2, two) == Ok(two);
    assert Fill(p, cs, legs, currency, 2, 1, one) == Ok(two);
    assert Fill(p, cs, legs, currency, 2, 0, start) == Ok(two);
  }

  /** With two rounds such a ride gives a day that the planner accepts although its second block passes midnight. */
  lemma WrappingRideFills(p: Policy, cs: seq<Candidate>, legs: nat -> Leg, currency: string, s: State)
    requires |cs| >= 2 && Rounds(p, cs) == 2 && s.cursor == 0 && 0 <= p.buffer
    requires PairFits(p, cs[0], cs[1], currency) && RideWraps(p, cs[0], cs[1], legs(s.calls).maxMinutes)
    ensures var day := FillDay(p, cs, legs, currency, s);
            && day.Ok? && |day.value.placed| == 2
            && day.value.placed[1].leg == Some(legs(s.calls)) && day.value.placed[0].c == cs[0]
            && !BeforeMidnight(day.value.placed) && !HopsFit(p, day.value.placed)
  {
    hide Minutes, CostOf;
    var start := s.(placed := [], now := 60 * p.startHour);
    var ride := legs(s.calls);
    var late := ride.maxMinutes + p.buffer + Minutes(p, cs[0]) - MIDNIGHT;
    var x := Placed(cs[0], 60 * p.startHour, 60 * p.startHour + Minutes(p, cs[0]), None);
    var at := MIDNIGHT + 60 * p.startHour + late;
    var y := Placed(cs[1], at, at + Minutes(p, cs[1]), Some(ride));
    assert Proposed(p, cs, legs, start) == x;
    assert BlockAccepted(BlockOf(x, currency));
    var one := Moved(legs, start).(placed := [] + [x], now := x.until);
    assert one.placed == [x];
    assert 1 % |cs| == 1;
    assert Proposed(p, cs, legs, one) == y;
    WrappedBlock(p, cs[1], late, ride.maxMinutes, ride.meters, currency);
    assert x.at % MIDNIGHT == x.at;
    TwoStaysFill(p, cs, legs, currency, s, x, y);
    hide Proposed, BlockOf, BlockAccepted, HourOf, FillDay;
    assert !HopFits(p, [x, y][0], [x, y][1]);
    assert [x, y][1].until >= MIDNIGHT;
  }

  function Constantly(ride: int): nat -> Leg {
    _ => Leg(ride, 0)
  }

  lemma OneDayPlan(p: Policy, brief: Brief, cs: seq<Candidate>, legs: nat -> Leg)
    requires Window(brief) == 1 && 0 <= p.startHour < 24 && Eligible(cs, Terms(brief.constraints, Avoid)) != []
    requires FillDay(p, Chosen(brief, cs), legs, brief.budget.currency, State([], 0, 0, 0, 0, 0)).Ok?
    ensures Build(p, brief, cs, legs, true).Ok?
    ensures PlacedDays(p, brief, cs, legs) == [FillDay(p, Chosen(brief, cs), legs, brief.budget.currency, State([], 0, 0, 0, 0, 0)).value.placed]
  {
    hide FillDay, Eligible, Terms, Ordered, TotalMin, TotalMax;
    var chosen, currency := Chosen(brief, cs), brief.budget.currency;
    var day := FillDay(p, chosen, legs, currency, State([], 0, 0, 0, 0, 0)).value;
    assert PlanDays(p, chosen, legs, currency, 0) == Ok(Progress([], State([], 0, 0, 0, 0, 0)));
    assert [] + [day.placed] == [day.placed];
    assert PlanDays(p, chosen, legs, currency, 1) == Ok(Progress([day.placed], day));
  }

  /** Every plan that rides of at most `most` minutes can lead to stays before midnight. */
  ghost predicate NeverPassesMidnight(p: Policy, most: int, brief: Brief, cs: seq<Candidate>) {
    forall legs: nat -> Leg :: LegsOk(legs, most) && Build(p, brief, cs, legs, true).Ok? ==> AllBeforeMidnight(PlacedDays(p, brief, cs, legs))
  }

  /**
   * For a day of two stays that both fit its first slot the bound is exact: some ride of at most
   * `most` minutes makes the planner pass midnight exactly when `most`, the buffer and the first stay
   * make up a day.
   */
  lemma RideBoundIsExact(p: Policy, most: int, brief: Brief, cs: seq<Candidate>)
    requires Window(brief) == 1 && 0 <= p.startHour < 24 && 0 <= p.buffer && 0 <= most
    requires Eligible(cs, Terms(brief.constraints, Avoid)) != []
    requires |Chosen(brief, cs)| >= 2 && Rounds(p, Chosen(brief, cs)) == 2
    requires PairFits(p, Chosen(brief, cs)[0], Chosen(brief, cs)[1], brief.budget.currency)
    requires p.buffer + Minutes(p, Chosen(brief, cs)[0]) <= MIDNIGHT
    ensures NeverPassesMidnight(p, most, brief, cs) <==> most + p.buffer + Minutes(p, Chosen(brief, cs)[0]) < MIDNIGHT
  {
    hide Eligible, Terms, Ordered, Minutes, CostOf, Build, FillDay, PlacedDays, BeforeMidnight;
    var chosen, currency := Chosen(brief, cs), brief.budget.currency;
    if most + p.buffer + Minutes(p, chosen[0]) < MIDNIGHT {
      forall legs: nat -> Leg | LegsOk(legs, most) && Build(p, brief, cs, legs, true).Ok?
        ensures AllBeforeMidnight(PlacedDays(p, brief, cs, legs))
      {
        ShortRideStaysEarly(p, most, brief, cs, legs);
      }
    } else {
      var ride := MIDNIGHT - p.buffer - Minutes(p, chosen[0]);
      var legs := Constantly(ride);
      assert LegsOk(legs, most);
      assert legs(0).maxMinutes == ride;
      WrappingRideFills(p, chosen, legs, currency, State([], 0, 0, 0, 0, 0));
      OneDayPlan(p, brief, cs, legs);
      var placed := FillDay(p, chosen, legs, currency, State([], 0, 0, 0, 0, 0)).value.placed;
      assert [placed][0] == placed;
      assert !AllBeforeMidnight(PlacedDays(p, brief, cs, legs));
    }
  }

  /** On the single day only the first stay comes before a ride. */
  lemma ShortRideStaysEarly(p: Policy, most: int, brief: Brief, cs: seq<Candidate>, legs: nat -> Leg)
    requires Build(p, brief, cs, legs, true).Ok? && LegsOk(legs, most) && 0 <= p.buffer && Window(brief) == 1
    requires |Chosen(brief, cs)| >= 2 && Rounds(p, Chosen(brief, cs)) == 2
    requires most + p.buffer + Minutes(p, Chosen(brief, cs)[0]) < MIDNIGHT
    ensures AllBeforeMidnight(PlacedDays(p, brief, cs, legs))
  {
    hide Eligible, Terms, Ordered, Minutes, CostOf, TotalMin, TotalMax, BeforeMidnight, FillDay, Chain, StartsOrdered, LinkOk, Fill;
    var chosen, currency := Chosen(brief, cs), brief.budget.currency;
    var start := State([], 0, 0, 0, 0, 0);
    assert PlanDays(p, chosen, legs, currency, 0) == Ok(Progress([], start));
    var day := FillDay(p, chosen, legs, currency, start);
    assert day.Ok? && PlacedDays(p, brief, cs, legs) == [] + [day.value.placed];
    DayShape(p, most, chosen, legs, currency, start);
    DayHasRounds(p, chosen, legs, currency, start);
    FillBounded(p, most, chosen, legs, currency, start);
    var placed := day.value.placed;
    assert HopsFit(p, placed) by {
      FirstHopFits(p, most, chosen, currency, placed);
    }
    EarlyIffHopsFit(p, most, chosen, currency, 0, placed);
  }

  lemma FillBounded(p: Policy, most: int, cs: seq<Candidate>, legs: nat -> Leg, currency: string, s: State)
    requires cs != [] && LegsOk(legs, most) && FillDay(p, cs, legs, currency, s).Ok?
    ensures |FillDay(p, cs, legs, currency, s).value.placed| <= Max(0, Rounds(p, cs))
  {
    hide Fill, Chain, StartsOrdered;
    EmptyChain(p, most, cs, currency, s.cursor);
    FillKeepsChain(p, most, cs, legs, currency, Rounds(p, cs), 0, s.(placed := [], now := 60 * p.startHour), s.cursor);
  }

  lemma FirstHopFits(p: Policy, most: int, cs: seq<Candidate>, currency: string, placed: seq<Placed>)
    requires |cs| >= 2 && Chain(p, most, cs, currency, 0, placed) && |placed| <= 2
    requires most + p.buffer + Minutes(p, cs[0]) < MIDNIGHT
    ensures HopsFit(p, placed)
  {
    hide BlockOf, BlockAccepted, CostOf, HourOf, Minutes;
    forall i | 0 < i < |placed|
      ensures HopFits(p, placed[i - 1], placed[i])
    {
      assert LinkOk(p, most, cs, currency, 0, placed, 0) && LinkOk(p, most, cs, currency, 0, placed, 1);
    }
  }

  // ---------------------------------------------------------------------------------------------
  // Costs

  function AllBlocks(days: seq<Day>): seq<Block> {
    if days == [] then [] else AllBlocks(days[..|days| - 1]) + days[|days| - 1].blocks
  }

  lemma {:induction false} CostOfBoth(a: seq<Block>, b: seq<Block>)
    ensures MinCost(a + b) == MinCost(a) + MinCost(b) && MaxCost(a + b) == MaxCost(a) + MaxCost(b)
  {
    if b == [] {
      assert a + b == a;
    } else {
      CostOfBoth(a, b[..|b| - 1]);
      assert (a + b)[..|a + b| - 1] == a + b[..|b| - 1];
    }
  }

  lemma {:induction false} TotalsAreSums(days: seq<Day>)
    ensures TotalMin(days) == MinCost(AllBlocks(days)) && TotalMax(days) == MaxCost(AllBlocks(days))
  {
    if days != [] {
      TotalsAreSums(days[..|days| - 1]);
      CostOfBoth(AllBlocks(days[..|days| - 1]), days[|days| - 1].blocks);
    }
  }

  predicate CostsOk(bs: seq<Block>) {
    forall i :: 0 <= i < |bs| ==> bs[i].cost.Some? ==> bs[i].cost.value.min >= 0.0 && bs[i].cost.value.max >= 0.0
  }

  lemma {:induction false} SumsNotNegative(bs: seq<Block>)
    requires CostsOk(bs)
    ensures MinCost(bs) >= 0.0 && MaxCost(bs) >= 0.0
  {
    if bs != [] {
      SumsNotNegative(bs[..|bs| - 1]);
    }
  }

  /** The total of a plan is the exact sum over all of its blocks, when amounts are not negative. */
  lemma TotalCostIsExact(p: Policy, brief: Brief, cs: seq<Candidate>, legs: nat -> Leg)
    requires Build(p, brief, cs, legs, true).Ok?
    requires CostsOk(AllBlocks(Build(p, brief, cs, legs, true).value.plan.days))
    ensures var plan := Build(p, brief, cs, legs, true).value.plan;
            && plan.total.min == MinCost(AllBlocks(plan.days))
            && plan.total.max == MaxCost(AllBlocks(plan.days))
            && plan.total.currency == brief.budget.currency
  {
    hide PlanDays, Chosen, TotalMin, TotalMax, MinCost, MaxCost, AllBlocks;
    var days := Build(p, brief, cs, legs, true).value.plan.days;
    TotalsAreSums(days);
    SumsNotNegative(AllBlocks(days));
  }

  // ---------------------------------------------------------------------------------------------
  // The route summary

  function MetersOf(l: Leg): int {
    l.meters
  }

  function MinutesOf(l: Leg): int {
    l.maxMinutes
  }

  function OneLeg(l: Leg): int {
    1
  }

  function Sum(ls: seq<Leg>, f: Leg -> int): int {
    if ls == [] then 0 else Sum(ls[..|ls| - 1], f) + f(ls[|ls| - 1])
  }

  lemma {:induction false} SumConcat(a: seq<Leg>, b: seq<Leg>, f: Leg -> int)
    ensures Sum(a + b, f) == Sum(a, f) + Sum(b, f)
  {
    if b == [] {
      assert a + b == a;
    } else {
      SumConcat(a, b[..|b| - 1], f);
      assert (a + b)[..|a + b| - 1] == a + b[..|b| - 1];
    }
  }

  lemma {:induction false} SumOfOnes(ls: seq<Leg>)
    ensures Sum(ls, OneLeg) == |ls|
  {
    if ls != [] {
      SumOfOnes(ls[..|ls| - 1]);
    }
  }

  function Asked(legs: nat -> Leg, n: nat): seq<Leg> {
    if n == 0 then [] else Asked(legs, n - 1) + [legs(n - 1)]
  }

  /** The routes between the placed blocks of a day, and of all days. */
  function DayLegs(placed: seq<Placed>): seq<Leg> {
    if placed == [] then []
    else DayLegs(placed[..|placed| - 1]) + if placed[|placed| - 1].leg.Some? then [placed[|placed| - 1].leg.value] else []
  }

  function PlacedLegs(days: seq<seq<Placed>>): seq<Leg> {
    if days == [] then [] else PlacedLegs(days[..|days| - 1]) + DayLegs(days[|days| - 1])
  }

  /** The days that end before their rounds are used up. */
  function ShortDays(days: seq<seq<Placed>>, rounds: int): nat {
    if days == [] then 0 else ShortDays(days[..|days| - 1], rounds) + if |days[|days| - 1]| < rounds then 1 else 0
  }

  /** The route that was asked for last on a day cut short, for a block that was then dropped. */
  function DroppedLeg(legs: nat -> Leg, placed: seq<Placed>, rounds: int, calls: nat): seq<Leg> {
    if |placed| < rounds && calls > 0 then [legs(calls - 1)] else []
  }

  function DroppedLegs(p: Policy, cs: seq<Candidate>, legs: nat -> Leg, currency: string, n: nat): seq<Leg>
    requires cs != [] && PlanDays(p, cs, legs, currency, n).Ok?
  {
    if n == 0 then []
    else
      var now := PlanDays(p, cs, legs, currency, n).value;
      DroppedLegs(p, cs, legs, currency, n - 1) + DroppedLeg(legs, now.state.placed, Rounds(p, cs), now.state.calls)
  }

  lemma AskedMore(legs: nat -> Leg, n: nat, f: Leg -> int)
    ensures Sum(Asked(legs, n + 1), f) == Sum(Asked(legs, n), f) + f(legs(n))
  {
  }

  lemma DayLegsAppend(placed: seq<Placed>, x: Placed, f: Leg -> int)
    ensures Sum(DayLegs(placed + [x]), f) == Sum(DayLegs(placed), f) + if x.leg.Some? then f(x.leg.value) else 0
  {
    assert (placed + [x])[..|placed|] == placed;
    SumConcat(DayLegs(placed), if x.leg.Some? then [x.leg.value] else [], f);
    if x.leg.Some? {
      assert [x.leg.value][..0] == [];
    }
  }

  /** Over the rounds of a day, what is asked for is what is placed, and one more when the day is cut short. */
  lemma {:induction false} FillAsks(
      p: Policy, cs: seq<Candidate>, legs: nat -> Leg, currency: string, rounds: int, k: int, s: State, f: Leg -> int)
    requires cs != [] && 0 <= k <= rounds && |s.placed| == k
    ensures var out := Fill(p, cs, legs, currency, rounds, k, s);
            out.Ok? ==>
              && (|out.value.placed| < rounds ==> out.value.calls > 0)
              && Sum(Asked(legs, out.value.calls), f) - Sum(Asked(legs, s.calls), f)
                 == Sum(DayLegs(out.value.placed), f) - Sum(DayLegs(s.placed), f)
                    + Sum(DroppedLeg(legs, out.value.placed, rounds, out.value.calls), f)
    decreases rounds - k
  {
    hide Minutes, BlockAccepted, CostOf, HourOf, BlockOf, Asked, DayLegs, Sum;
    NoLegs(f);
    if k < rounds {
      var x := Proposed(p, cs, legs, s);
      AskedMore(legs, s.calls, f);
      DayLegsAppend(s.placed, x, f);
      OneLegSum(legs(s.calls), f);
      if !(s.placed != [] && HourOf(x.until) >= p.endHour) && CostOf(x.c, currency).currency == currency && BlockAccepted(BlockOf(x, currency)) {
        FillAsks(p, cs, legs, currency, rounds, k + 1, Moved(legs, s).(placed := s.placed + [x], now := x.until), f);
      }
    }
  }

  lemma NoLegs(f: Leg -> int)
    ensures Sum([], f) == 0
  {
  }

  lemma OneLegSum(l: Leg, f: Leg -> int)
    ensures Sum([l], f) == f(l)
  {
    assert [l][..0] == [];
  }

  /** The running totals of the planner are those of all routes asked for. */
  predicate TotalsOk(legs: nat -> Leg, s: State) {
    s.meters == Sum(Asked(legs, s.calls), MetersOf) && s.transit == Sum(Asked(legs, s.calls), MinutesOf)
  }

  lemma {:induction false} FillKeepsTotals(p: Policy, cs: seq<Candidate>, legs: nat -> Leg, currency: string, rounds: int, k: int, s: State)
    requires cs != [] && TotalsOk(legs, s)
    ensures var out := Fill(p, cs, legs, currency, rounds, k, s); out.Ok? ==> TotalsOk(legs, out.value)
    decreases rounds - k
  {
    hide Minutes, BlockAccepted, CostOf, HourOf, BlockOf, Asked, Sum;
    if k < rounds {
      var x := Proposed(p, cs, legs, s);
      AskedMore(legs, s.calls, MetersOf);
      AskedMore(legs, s.calls, MinutesOf);
      if !(s.placed != [] && HourOf(x.until) >= p.endHour) && CostOf(x.c, currency).currency == currency && BlockAccepted(BlockOf(x, currency)) {
        FillKeepsTotals(p, cs, legs, currency, rounds, k + 1, Moved(legs, s).(placed := s.placed + [x], now := x.until));
      }
    }
  }

  /** A day that is planned at all has at least one round. */
  lemma DayHasRounds(p: Policy, cs: seq<Candidate>, legs: nat -> Leg, currency: string, s: State)
    requires cs != [] && FillDay(p, cs, legs, currency, s).Ok?
    ensures Rounds(p, cs) > 0
    ensures FillDay(p, cs, legs, currency, s) == Fill(p, cs, legs, currency, Rounds(p, cs), 0, s.(placed := [], now := 60 * p.startHour))
  {
  }

  /** The same for a day from whatever state it starts in. */
  lemma DayAsks(p: Policy, cs: seq<Candidate>, legs: nat -> Leg, currency: string, s: State, f: Leg -> int)
    requires cs != [] && FillDay(p, cs, legs, currency, s).Ok? && TotalsOk(legs, s)
    ensures var day := FillDay(p, cs, legs, currency, s).value;
            var dropped := DroppedLeg(legs, day.placed, Rounds(p, cs), day.calls);
            && TotalsOk(legs, day)
            && Sum(Asked(legs, day.calls), f) == Sum(Asked(legs, s.calls), f) + Sum(DayLegs(day.placed), f) + Sum(dropped, f)
            && |dropped| == if |day.placed| < Rounds(p, cs) then 1 else 0
  {
    hide Fill, FillDay, Asked, Sum, TotalsOk, Rounds;
    var start := s.(placed := [], now := 60 * p.startHour);
    DayHasRounds(p, cs, legs, currency, s);
    TotalsOnly(legs, s, start);
    FillAsks(p, cs, legs, currency, Rounds(p, cs), 0, start, f);
    FillKeepsTotals(p, cs, legs, currency, Rounds(p, cs), 0, start);
    NoLegs(f);
  }

  lemma LastDay(p: Policy, cs: seq<Candidate>, legs: nat -> Leg, currency: string, n: nat)
    requires cs != [] && n > 0 && PlanDays(p, cs, legs, currency, n).Ok?
    ensures PlanDays(p, cs, legs, currency, n - 1).Ok?
    ensures var before := PlanDays(p, cs, legs, currency, n - 1).value; var g := PlanDays(p, cs, legs, currency, n).value;
            FillDay(p, cs, legs, currency, before.state) == Ok(g.state) && g.days == before.days + [g.state.placed]
  {
    hide FillDay;
  }

  /** What was asked for up to here is what is placed and what was dropped. */
  predicate Accounted(legs: nat -> Leg, g: Progress, dropped: seq<Leg>, rounds: int, f: Leg -> int) {
    && TotalsOk(legs, g.state)
    && Sum(Asked(legs, g.state.calls), f) == Sum(PlacedLegs(g.days), f) + Sum(dropped, f)
    && |dropped| == ShortDays(g.days, rounds)
  }

  lemma {:induction false} AskedIsPlacedPlusDropped(p: Policy, cs: seq<Candidate>, legs: nat -> Leg, currency: string, n: nat, f: Leg -> int)
    requires cs != [] && PlanDays(p, cs, legs, currency, n).Ok?
    ensures Accounted(legs, PlanDays(p, cs, legs, currency, n).value, DroppedLegs(p, cs, legs, currency, n), Rounds(p, cs), f)
  {
    hide PlanDays, FillDay, Asked, DayLegs, PlacedLegs, Sum, TotalsOk, Rounds, DroppedLeg, ShortDays;
    if n == 0 {
      NothingAsked(p, cs, legs, currency, f);
    } else {
      LastDay(p, cs, legs, currency, n);
      AskedIsPlacedPlusDropped(p, cs, legs, currency, n - 1, f);
      var before, g := PlanDays(p, cs, legs, currency, n - 1).value, PlanDays(p, cs, legs, currency, n).value;
      var dropped, more := DroppedLegs(p, cs, legs, currency, n - 1), DroppedLeg(legs, g.state.placed, Rounds(p, cs), g.state.calls);
      assert DroppedLegs(p, cs, legs, currency, n) == dropped + more;
      hide DroppedLegs;
      DayAsks(p, cs, legs, currency, before.state, f);
      OneMoreDay(before.days, g.state.placed, Rounds(p, cs));
      SumConcat(PlacedLegs(before.days), DayLegs(g.state.placed), f);
      SumConcat(dropped, more, f);
      assert g.days == before.days + [g.state.placed];
    }
  }

  lemma NothingAsked(p: Policy, cs: seq<Candidate>, legs: nat -> Leg, currency: string, f: Leg -> int)
    requires cs != []
    ensures PlanDays(p, cs, legs, currency, 0).Ok?
    ensures Accounted(legs, PlanDays(p, cs, legs, currency, 0).value, DroppedLegs(p, cs, legs, currency, 0), Rounds(p, cs), f)
  {
  }

  lemma OneMoreDay(days: seq<seq<Placed>>, placed: seq<Placed>, rounds: int)
    ensures PlacedLegs(days + [placed]) == PlacedLegs(days) + DayLegs(placed)
    ensures ShortDays(days + [placed], rounds) == ShortDays(days, rounds) + if |placed| < rounds then 1 else 0
  {
    hide DayLegs;
    assert (days + [placed])[..|days|] == days;
  }

  lemma TotalsOnly(legs: nat -> Leg, s: State, t: State)
    requires TotalsOk(legs, s) && t.calls == s.calls && t.meters == s.meters && t.transit == s.transit
    ensures TotalsOk(legs, t)
  {
  }

  /** The routes of dropped blocks behind a plan. */
  function PlanDropped(p: Policy, brief: Brief, cs: seq<Candidate>, legs: nat -> Leg): seq<Leg>
    requires Build(p, brief, cs, legs, true).Ok?
  {
    DroppedLegs(p, Chosen(brief, cs), legs, brief.budget.currency, Window(brief))
  }

  lemma {:induction false} AskedCount(legs: nat -> Leg, n: nat)
    ensures |Asked(legs, n)| == n
  {
    if n > 0 {
      AskedCount(legs, n - 1);
    }
  }

  /**
   * Legs, distance and duration of the route summary are those of the routes between placed blocks
   * plus those of one dropped block for every day cut short.
   */
  lemma RouteSummaryCounts(p: Policy, brief: Brief, cs: seq<Candidate>, legs: nat -> Leg)
    requires Build(p, brief, cs, legs, true).Ok?
    ensures var c := Build(p, brief, cs, legs, true).value;
            var days := PlacedDays(p, brief, cs, legs);
            var dropped := PlanDropped(p, brief, cs, legs);
            && c.legs == |PlacedLegs(days)| + |dropped|
            && c.meters == Sum(PlacedLegs(days), MetersOf) + Sum(dropped, MetersOf)
            && c.transit == Sum(PlacedLegs(days), MinutesOf) + Sum(dropped, MinutesOf)
            && |dropped| == ShortDays(days, Rounds(p, Chosen(brief, cs)))
  {
    hide PlanDays, Sum, Asked, PlacedLegs, DroppedLegs, ShortDays, TotalMin, TotalMax, Eligible, Terms, Ordered;
    var chosen, currency, n := Chosen(brief, cs), brief.budget.currency, Window(brief);
    var g := PlanDays(p, chosen, legs, currency, n).value;
    AskedIsPlacedPlusDropped(p, chosen, legs, currency, n, OneLeg);
    AskedIsPlacedPlusDropped(p, chosen, legs, currency, n, MetersOf);
    AskedIsPlacedPlusDropped(p, chosen, legs, currency, n, MinutesOf);
    SumOfOnes(Asked(legs, g.state.calls));
    AskedCount(legs, g.state.calls);
    SumOfOnes(PlacedLegs(g.days));
    SumOfOnes(PlanDropped(p, brief, cs, legs));
  }

  // ---------------------------------------------------------------------------------------------
  // Whose turn it is

  /** The number of candidates considered on some days: those placed, and one more for a day cut short. */
  function Considered(days: seq<seq<Placed>>, rounds: int): nat {
    if days == [] then 0
    else Considered(days[..|days| - 1], rounds) + |days[|days| - 1]| + if |days[|days| - 1]| < rounds then 1 else 0
  }

  /** After the last block of the day this candidate, reached by this route, would end in the closing hour or later. */
  predicate TooLate(p: Policy, placed: seq<Placed>, next: Candidate, ride: Leg) {
    && placed != []
    && (placed[|placed| - 1].until + ride.maxMinutes + p.buffer + Minutes(p, next)) % MIDNIGHT / 60 >= p.endHour
  }

  lemma {:induction false} FillMoves(
      p: Policy, cs: seq<Candidate>, legs: nat -> Leg, currency: string, rounds: int, k: int, s: State)
    requires cs != [] && 0 <= k <= rounds && |s.placed| == k && ClockOk(p, s)
    ensures var out := Fill(p, cs, legs, currency, rounds, k, s);
            out.Ok? ==>
              && out.value.cursor == s.cursor + |out.value.placed| - k + (if |out.value.placed| < rounds then 1 else 0)
              && (|out.value.placed| < rounds ==>
                    && out.value.calls > 0 && out.value.cursor > 0
                    && TooLate(p, out.value.placed, cs[(out.value.cursor - 1) % |cs|], legs(out.value.calls - 1)))
    decreases rounds - k
  {
    hide Minutes, BlockAccepted, CostOf, BlockOf;
    if k < rounds {
      var x := Proposed(p, cs, legs, s);
      if !(s.placed != [] && HourOf(x.until) >= p.endHour) && CostOf(x.c, currency).currency == currency && BlockAccepted(BlockOf(x, currency)) {
        hide TooLate;
        FillMoves(p, cs, legs, currency, rounds, k + 1, Moved(legs, s).(placed := s.placed + [x], now := x.until));
      }
    }
  }

  /** What a planned day takes from the candidates, and why it is cut short. */
  lemma DayTakes(p: Policy, most: int, cs: seq<Candidate>, legs: nat -> Leg, currency: string, s: State)
    requires cs != [] && LegsOk(legs, most) && FillDay(p, cs, legs, currency, s).Ok?
    ensures var day := FillDay(p, cs, legs, currency, s).value;
            && (forall i :: 0 <= i < |day.placed| ==> day.placed[i].c == cs[(s.cursor + i) % |cs|])
            && day.cursor == s.cursor + |day.placed| + (if |day.placed| < Rounds(p, cs) then 1 else 0)
            && (|day.placed| < Rounds(p, cs) ==> exists n: nat :: TooLate(p, day.placed, cs[(s.cursor + |day.placed|) % |cs|], legs(n)))
  {
    hide Fill, TooLate, LinkOk, StartsOrdered, LegsOk, Rounds;
    var day := FillDay(p, cs, legs, currency, s).value;
    DayShape(p, most, cs, legs, currency, s);
    DayHasRounds(p, cs, legs, currency, s);
    FillMoves(p, cs, legs, currency, Rounds(p, cs), 0, s.(placed := [], now := 60 * p.startHour));
    forall i | 0 <= i < |day.placed|
      ensures day.placed[i].c == cs[(s.cursor + i) % |cs|]
    {
      LinkTakes(p, most, cs, currency, s.cursor, day.placed, i);
    }
  }

  lemma LinkTakes(p: Policy, most: int, cs: seq<Candidate>, currency: string, first: nat, placed: seq<Placed>, i: int)
    requires cs != [] && 0 <= i < |placed| && Chain(p, most, cs, currency, first, placed)
    ensures placed[i].c == cs[(first + i) % |cs|]
  {
    assert LinkOk(p, most, cs, currency, first, placed, i);
  }

  /** Every day takes its candidates in turn, from where the days before it stopped. */
  ghost predicate InTurn(p: Policy, cs: seq<Candidate>, legs: nat -> Leg, days: seq<seq<Placed>>, d: int)
    requires cs != [] && 0 <= d < |days|
  {
    var first := Considered(days[..d], Rounds(p, cs));
    && (forall i :: 0 <= i < |days[d]| ==> days[d][i].c == cs[(first + i) % |cs|])
    && (|days[d]| < Rounds(p, cs) ==> exists n: nat :: TooLate(p, days[d], cs[(first + |days[d]|) % |cs|], legs(n)))
  }

  lemma TurnsExtend(p: Policy, cs: seq<Candidate>, legs: nat -> Leg, days: seq<seq<Placed>>, placed: seq<Placed>)
    requires cs != [] && forall d :: 0 <= d < |days| ==> InTurn(p, cs, legs, days, d)
    requires var first := Considered(days, Rounds(p, cs));
             && (forall i :: 0 <= i < |placed| ==> placed[i].c == cs[(first + i) % |cs|])
             && (|placed| < Rounds(p, cs) ==> exists n: nat :: TooLate(p, placed, cs[(first + |placed|) % |cs|], legs(n)))
    ensures var all := days + [placed]; forall d :: 0 <= d < |all| ==> InTurn(p, cs, legs, all, d)
    ensures Considered(days + [placed], Rounds(p, cs)) ==
            Considered(days, Rounds(p, cs)) + |placed| + if |placed| < Rounds(p, cs) then 1 else 0
  {
    hide TooLate, Rounds;
    var all := days + [placed];
    assert all[..|days|] == days;
    forall d | 0 <= d < |all|
      ensures InTurn(p, cs, legs, all, d)
    {
      if d < |days| {
        assert InTurn(p, cs, legs, days, d);
        assert all[..d] == days[..d];
      }
    }
  }

  lemma {:induction false} DaysTakeTurns(p: Policy, most: int, cs: seq<Candidate>, legs: nat -> Leg, currency: string, n: nat)
    requires cs != [] && LegsOk(legs, most) && PlanDays(p, cs, legs, currency, n).Ok?
    ensures var g := PlanDays(p, cs, legs, currency, n).value;
            && g.state.cursor == Considered(g.days, Rounds(p, cs))
            && forall d :: 0 <= d < |g.days| ==> InTurn(p, cs, legs, g.days, d)
  {
    hide FillDay, TooLate, LegsOk, Rounds, InTurn;
    assert n == 0 ==> PlanDays(p, cs, legs, currency, n).value == Progress([], State([], 0, 0, 0, 0, 0));
    assert Considered([], Rounds(p, cs)) == 0;
    hide PlanDays, Considered;
    if n > 0 {
      LastDay(p, cs, legs, currency, n);
      DaysTakeTurns(p, most, cs, legs, currency, n - 1);
      var before, g := PlanDays(p, cs, legs, currency, n - 1).value, PlanDays(p, cs, legs, currency, n).value;
      DayTakes(p, most, cs, legs, currency, before.state);
      TurnsExtend(p, cs, legs, before.days, g.state.placed);
    }
  }

  /**
   * The days of a plan take the chosen candidates in turn without skipping any but the one that ended
   * a day too late, and a day has fewer blocks than allowed only for such a candidate.
   */
  lemma CandidatesTakeTurns(p: Policy, most: int, brief: Brief, cs: seq<Candidate>, legs: nat -> Leg, d: nat)
    requires Build(p, brief, cs, legs, true).Ok? && LegsOk(legs, most) && d < |PlacedDays(p, brief, cs, legs)|
    ensures InTurn(p, Chosen(brief, cs), legs, PlacedDays(p, brief, cs, legs), d)
    ensures Build(p, brief, cs, legs, true).value.plan.days[d].blocks == BlocksOf(PlacedDays(p, brief, cs, legs)[d], brief.budget.currency)
  {
    hide PlanDays, Eligible, Terms, Ordered, InTurn, TotalMin, TotalMax, LegsOk;
    DaysTakeTurns(p, most, Chosen(brief, cs), legs, brief.budget.currency, Window(brief));
  }

  // ---------------------------------------------------------------------------------------------
  // A condition on the inputs under which the summary is exact

  /** The latest minute at which the `k`-th block of a day can end. */
  function Reach(p: Policy, most: int, stay: int, k: nat): int {
    if k == 0 then 60 * p.startHour
    else if k == 1 then 60 * p.startHour + stay
    else Reach(p, most, stay, k - 1) + most + p.buffer + stay
  }

  /** A full day of the longest stays and routes still ends before the closing hour. */
  predicate Unhurried(p: Policy, most: int, stay: int, cs: seq<Candidate>) {
    && 0 <= p.startHour && p.endHour <= 24 && p.buffer >= 0 && most >= 0 && stay >= 0
    && (forall i :: 0 <= i < |cs| ==> 0 <= Minutes(p, cs[i]) <= stay)
    && (Rounds(p, cs) >= 0 ==> Reach(p, most, stay, Rounds(p, cs)) < 60 * p.endHour)
  }

  lemma {:induction false} ReachGrows(p: Policy, most: int, stay: int, k: nat, n: nat)
    requires k <= n && p.buffer >= 0 && most >= 0 && stay >= 0
    ensures Reach(p, most, stay, k) <= Reach(p, most, stay, n)
  {
    if k < n {
      ReachGrows(p, most, stay, k, n - 1);
    }
  }

  lemma {:induction false} UnhurriedFill(p: Policy, most: int, stay: int, cs: seq<Candidate>, legs: nat -> Leg, currency: string, k: int, s: State)
    requires cs != [] && LegsOk(legs, most) && Unhurried(p, most, stay, cs) && 0 <= k <= Rounds(p, cs)
    requires |s.placed| == k && 0 <= s.now <= Reach(p, most, stay, k)
    ensures var out := Fill(p, cs, legs, currency, Rounds(p, cs), k, s); out.Ok? ==> |out.value.placed| == Rounds(p, cs)
    decreases Rounds(p, cs) - k
  {
    hide Minutes, BlockAccepted, CostOf, BlockOf, Rounds;
    if k < Rounds(p, cs) {
      var x := Proposed(p, cs, legs, s);
      assert 0 <= Minutes(p, x.c) <= stay;
      assert 0 <= x.at <= x.until <= Reach(p, most, stay, k + 1);
      ReachGrows(p, most, stay, k + 1, Rounds(p, cs));
      if CostOf(x.c, currency).currency == currency && BlockAccepted(BlockOf(x, currency)) {
        UnhurriedFill(p, most, stay, cs, legs, currency, k + 1, Moved(legs, s).(placed := s.placed + [x], now := x.until));
      }
    }
  }

  lemma {:induction false} UnhurriedDays(p: Policy, most: int, stay: int, cs: seq<Candidate>, legs: nat -> Leg, currency: string, n: nat)
    requires cs != [] && LegsOk(legs, most) && Unhurried(p, most, stay, cs) && PlanDays(p, cs, legs, currency, n).Ok?
    ensures ShortDays(PlanDays(p, cs, legs, currency, n).value.days, Rounds(p, cs)) == 0
  {
    if n > 0 {
      hide Fill, FillDay, Unhurried, Rounds;
      UnhurriedDays(p, most, stay, cs, legs, currency, n - 1);
      var before := PlanDays(p, cs, legs, currency, n - 1).value;
      var g := PlanDays(p, cs, legs, currency, n).value;
      DayHasRounds(p, cs, legs, currency, before.state);
      UnhurriedFill(p, most, stay, cs, legs, currency, 0, before.state.(placed := [], now := 60 * p.startHour));
      assert g.days[..|g.days| - 1] == before.days;
    }
  }

  /** Then no day is cut short, and the summary is exactly that of the placed routes. */
  lemma UnhurriedSummaryIsExact(p: Policy, most: int, stay: int, brief: Brief, cs: seq<Candidate>, legs: nat -> Leg)
    requires Build(p, brief, cs, legs, true).Ok? && LegsOk(legs, most) && Unhurried(p, most, stay, Chosen(brief, cs))
    ensures var c := Build(p, brief, cs, legs, true).value;
            var placed := PlacedLegs(PlacedDays(p, brief, cs, legs));
            c.legs == |placed| && c.meters == Sum(placed, MetersOf) && c.transit == Sum(placed, MinutesOf)
  {
    hide PlanDays, Sum, PlacedLegs, DroppedLegs, ShortDays, TotalMin, TotalMax, Eligible, Terms, Ordered, Unhurried;
    RouteSummaryCounts(p, brief, cs, legs);
    UnhurriedDays(p, most, stay, Chosen(brief, cs), legs, brief.budget.currency, Window(brief));
    NoLegs(MetersOf);
    NoLegs(MinutesOf);
  }

  /** All stays take the same positive time and are paid in the currency of the trip. */
  predicate EqualStays(p: Policy, stay: int, cs: seq<Candidate>, currency: string) {
    stay > 0 && forall i :: 0 <= i < |cs| ==> Minutes(p, cs[i]) == stay && CostOf(cs[i], currency).currency == currency
  }

  /** A first stay ends before closing, and a ride with the stay after it fits between closing and midnight. */
  predicate SmallSteps(p: Policy, most: int, stay: int) {
    && 0 <= p.startHour && p.buffer >= 0 && most >= 0
    && 60 * p.startHour + stay < 60 * p.endHour
    && most + p.buffer + stay <= MIDNIGHT - 60 * p.endHour
  }

  predicate InOrder(placed: seq<Placed>) {
    BeforeMidnight(placed) && (forall i :: 0 <= i < |placed| ==> placed[i].at < MIDNIGHT)
    && forall i, j :: 0 <= i < j < |placed| ==> placed[i].at <= placed[j].at
  }

  lemma InOrderStarts(placed: seq<Placed>)
    requires InOrder(placed)
    ensures StartsOrdered(placed)
  {
    forall i | 0 <= i < |placed|
      ensures placed[i].at % MIDNIGHT == placed[i].at
    {
    }
  }

  lemma OneMoreInOrder(placed: seq<Placed>, x: Placed, now: int)
    requires InOrder(placed) && (placed != [] ==> placed[|placed| - 1].at <= now) && now <= x.at <= x.until < MIDNIGHT && 0 <= x.at
    ensures InOrder(placed + [x])
  {
  }

  lemma EarlyBlock(x: Placed, currency: string)
    requires 0 <= x.at < x.until < MIDNIGHT
    ensures BlockAccepted(BlockOf(x, currency))
  {
  }

  /** With the longest rides a day of equal stays is filled exactly while the reach stays before closing. */
  lemma {:induction false} LongestRidesFill(
      p: Policy, most: int, stay: int, cs: seq<Candidate>, currency: string, rounds: int, k: int, s: State)
    requires cs != [] && EqualStays(p, stay, cs, currency) && SmallSteps(p, most, stay)
    requires 1 <= k <= rounds && |s.placed| == k && InOrder(s.placed)
    requires 0 <= s.placed[k - 1].at <= s.now == Reach(p, most, stay, k) < 60 * p.endHour
    ensures var out := Fill(p, cs, Constantly(most), currency, rounds, k, s);
            && out.Ok? && out.value.placed != [] && InOrder(out.value.placed)
            && (|out.value.placed| == rounds <==> Reach(p, most, stay, rounds) < 60 * p.endHour)
    decreases rounds - k
  {
    hide Minutes, BlockAccepted, CostOf, BlockOf, InOrder;
    if k < rounds {
      var legs := Constantly(most);
      var x := Proposed(p, cs, legs, s);
      assert x.at == s.now + most + p.buffer && x.until == x.at + stay == Reach(p, most, stay, k + 1);
      assert 0 <= x.at < x.until < MIDNIGHT;
      ReachGrows(p, most, stay, k + 1, rounds);
      assert HourOf(x.until) >= p.endHour <==> x.until >= 60 * p.endHour;
      EarlyBlock(x, currency);
      OneMoreInOrder(s.placed, x, s.now);
      if x.until < 60 * p.endHour {
        var next := Moved(legs, s).(placed := s.placed + [x], now := x.until);
        LongestRidesFill(p, most, stay, cs, currency, rounds, k + 1, next);
      }
    }
  }

  lemma LongestRidesDay(p: Policy, most: int, stay: int, cs: seq<Candidate>, currency: string, s: State)
    requires cs != [] && EqualStays(p, stay, cs, currency) && SmallSteps(p, most, stay) && Rounds(p, cs) >= 1
    ensures var day := FillDay(p, cs, Constantly(most), currency, s);
            day.Ok? && (|day.value.placed| == Rounds(p, cs) <==> Reach(p, most, stay, Rounds(p, cs)) < 60 * p.endHour)
  {
    hide Minutes, CostOf, Rounds, StartsOrdered, BlockOf, BlockAccepted;
    var legs, rounds := Constantly(most), Rounds(p, cs);
    var start := s.(placed := [], now := 60 * p.startHour);
    var x := Proposed(p, cs, legs, start);
    assert x.at == 60 * p.startHour && x.until == Reach(p, most, stay, 1);
    EarlyBlock(x, currency);
    OneMoreInOrder([], x, x.at);
    assert [] + [x] == [x];
    var one := Moved(legs, start).(placed := [] + [x], now := x.until);
    LongestRidesFill(p, most, stay, cs, currency, rounds, 1, one);
    assert Fill(p, cs, legs, currency, rounds, 0, start) == Fill(p, cs, legs, currency, rounds, 1, one);
    InOrderStarts(Fill(p, cs, legs, currency, rounds, 0, start).value.placed);
  }

  /** No ride of at most `most` minutes cuts a day short. */
  ghost predicate NeverCutShort(p: Policy, most: int, cs: seq<Candidate>, currency: string, s: State)
    requires cs != []
  {
    forall legs: nat -> Leg :: LegsOk(legs, most) && FillDay(p, cs, legs, currency, s).Ok? ==>
      |FillDay(p, cs, legs, currency, s).value.placed| == Rounds(p, cs)
  }

  /** For equal stays the condition is exact: some rides cut a day short exactly when its reach is not before closing. */
  lemma UnhurriedIsExact(p: Policy, most: int, stay: int, cs: seq<Candidate>, currency: string, s: State)
    requires cs != [] && EqualStays(p, stay, cs, currency) && SmallSteps(p, most, stay) && Rounds(p, cs) >= 1
    ensures NeverCutShort(p, most, cs, currency, s) <==> Reach(p, most, stay, Rounds(p, cs)) < 60 * p.endHour
  {
    hide Minutes, CostOf, FillDay, Rounds;
    LongestRidesDay(p, most, stay, cs, currency, s);
    assert LegsOk(Constantly(most), most);
    if Reach(p, most, stay, Rounds(p, cs)) < 60 * p.endHour {
      assert Unhurried(p, most, stay, cs);
      forall legs: nat -> Leg | LegsOk(legs, most) && FillDay(p, cs, legs, currency, s).Ok?
        ensures |FillDay(p, cs, legs, currency, s).value.placed| == Rounds(p, cs)
      {
        DayHasRounds(p, cs, legs, currency, s);
        UnhurriedFill(p, most, stay, cs, legs, currency, 0, s.(placed := [], now := 60 * p.startHour));
      }
    }
  }

  // ---------------------------------------------------------------------------------------------
  // The planner's own loops

  /** The block loop, with the costs of the day added up on the way. */
  method FillOneDay(p: Policy, cs: seq<Candidate>, legs: nat -> Leg, currency: string, s: State)
      returns (out: Result<State, PlanError>, blocks: seq<Block>, least: real, most: real)
    requires cs != []
    ensures out == FillDay(p, cs, legs, currency, s)
    ensures out.Ok? ==> blocks == BlocksOf(out.value.placed, currency) && least == MinCost(blocks) && most == MaxCost(blocks)
  {
    hide BlockAccepted, HourOf, Minutes, MinCost, MaxCost;
    var state := s.(placed := [], now := 60 * p.startHour);
    ghost var start := state;
    var rounds := Rounds(p, cs);
    blocks, least, most := [], 0.0, 0.0;
    NoCost();
    var k := 0;
    while k < rounds
      invariant 0 <= k
      invariant Fill(p, cs, legs, currency, rounds, k, state) == Fill(p, cs, legs, currency, rounds, 0, start)
      invariant blocks == BlocksOf(state.placed, currency) && least == MinCost(blocks) && most == MaxCost(blocks)
      decreases rounds - k
    {
      ghost var before := state;
      var c := cs[state.cursor % |cs|];
      state := state.(cursor := state.cursor + 1);
      var leg: Option<Leg> := None;
      var at := state.now;
      if state.placed != [] {
        leg := Some(legs(state.calls));
        at := at + leg.value.maxMinutes + p.buffer;
        state := state.(calls := state.calls + 1, meters := state.meters + leg.value.meters, transit := state.transit + leg.value.maxMinutes);
      }
      var x := Placed(c, at, at + Minutes(p, c), leg);
      assert x == Proposed(p, cs, legs, before) && state == Moved(legs, before);
      hide Proposed, Moved;
      if state.placed != [] && HourOf(x.until) >= p.endHour {
        break;
      }
      var cost := CostOf(c, currency);
      if cost.currency != currency {
        return Err(ForeignCurrency), [], 0.0, 0.0;
      }
      var b := BlockOf(x, currency);
      if !BlockAccepted(b) {
        return Err(BadBlock), [], 0.0, 0.0;
      }
      least, most := least + cost.min, most + cost.max;
      AppendBlock(state.placed, x, currency);
      blocks := blocks + [b];
      state := state.(placed := state.placed + [x], now := x.until);
      k := k + 1;
    }
    if state.placed == [] {
      return Err(NoBlock), [], 0.0, 0.0;
    }
    if !StartsOrdered(state.placed) {
      return Err(Unordered), [], 0.0, 0.0;
    }
    return Ok(state), blocks, least, most;
  }

  lemma NoCost()
    ensures MinCost([]) == 0.0 && MaxCost([]) == 0.0
  {
  }

  lemma AppendBlock(placed: seq<Placed>, x: Placed, currency: string)
    ensures BlocksOf(placed + [x], currency) == BlocksOf(placed, currency) + [BlockOf(x, currency)]
    ensures var bs := BlocksOf(placed, currency); var b := BlockOf(x, currency);
            MinCost(bs + [b]) == MinCost(bs) + CostOf(x.c, currency).min && MaxCost(bs + [b]) == MaxCost(bs) + CostOf(x.c, currency).max
  {
  }

  /** `build_candidate`, with its loop over the dates. */
  method BuildCandidate(p: Policy, brief: Brief, cs: seq<Candidate>, legs: nat -> Leg, related: bool) returns (out: Result<Candidacy, PlanError>)
    ensures out == Build(p, brief, cs, legs, related)
  {
    hide FillDay, BlocksOf, MinCost, MaxCost, Eligible, Terms, Ordered;
    if !related {
      return Err(WrongInputs);
    }
    var eligible := Eligible(cs, Terms(brief.constraints, Avoid));
    if eligible == [] {
      return Err(NoCandidates);
    }
    var chosen := Ordered(eligible, Terms(brief.constraints, Visit));
    var currency := brief.budget.currency;
    var dates := Window(brief);
    if dates == 0 {
      return Err(NoDays);
    }
    if !(0 <= p.startHour < 24) {
      return Err(BadClock);
    }
    ghost var placed: seq<seq<Placed>> := [];
    var days: seq<Day> := [];
    var least, most := 0.0, 0.0;
    var state := State([], 0, 0, 0, 0, 0);
    for n := 0 to dates
      invariant PlanDays(p, chosen, legs, currency, n) == Ok(Progress(placed, state)) && |placed| == n
      invariant days == DaysOf(placed, brief.start, currency)
      invariant least == TotalMin(days) && most == TotalMax(days)
    {
      var day, blocks, dayLeast, dayMost := FillOneDay(p, chosen, legs, currency, state);
      if day.Err? {
        EarlyError(p, chosen, legs, currency, n + 1, dates);
        return Err(day.error);
      }
      least, most := least + dayLeast, most + dayMost;
      days := days + [Day(brief.start + n, blocks)];
      placed := placed + [day.value.placed];
      state := day.value;
    }
    var total := Cost(Clamped(least), Clamped(most), currency);
    return Ok(Candidacy(Plan(days, [], total), state.meters, state.transit, state.calls));
  }

  /** The first day that fails decides the outcome. */
  lemma {:induction false} EarlyError(p: Policy, cs: seq<Candidate>, legs: nat -> Leg, currency: string, n: nat, m: nat)
    requires cs != [] && n <= m && PlanDays(p, cs, legs, currency, n).Err?
    ensures PlanDays(p, cs, legs, currency, m) == PlanDays(p, cs, legs, currency, n)
  {
    hide FillDay;
    if n < m {
      EarlyError(p, cs, legs, currency, n, m - 1);
    }
  }

  // ---------------------------------------------------------------------------------------------
  // Concrete plans

  const SAMPLE_POLICY := Policy(9, 20, 2, 120, 15)
  const SAMPLE_CANDIDATES := [Candidate("a", "here", "here", ["e"], None, None), Candidate("b", "there", "there", ["e"], None, None)]
  const SAMPLE_BRIEF := Brief(0, 0, "city", Cost(0.0, 1000.0, "CNY"), [])

  function DayLongRide(n: nat): Leg {
    Leg(1440, 0)
  }

  function TenHourRide(n: nat): Leg {
    Leg(600, 5)
  }

  /** Without constraints every candidate is chosen, in the given order. */
  lemma SampleIsChosen()
    ensures Chosen(SAMPLE_BRIEF, SAMPLE_CANDIDATES) == SAMPLE_CANDIDATES
    ensures Eligible(SAMPLE_CANDIDATES, Terms(SAMPLE_BRIEF.constraints, Avoid)) == SAMPLE_CANDIDATES
  {
    var cs := SAMPLE_CANDIDATES;
    assert Terms([], Avoid) == [] && Terms([], Visit) == [];
    assert cs[..1] == [cs[0]] && cs[..1][..0] == [];
    assert Eligible(cs[..1], []) == [cs[0]];
    assert Eligible(cs, []) == cs;
    assert Retained(cs, []) == [] && Ids([]) == {};
    OthersThanNone(cs);
  }

  /** A plan for one day that the planner fills as given. */
  lemma SampleBuild(legs: nat -> Leg, s: State)
    requires FillDay(SAMPLE_POLICY, SAMPLE_CANDIDATES, legs, "CNY", State([], 0, 0, 0, 0, 0)) == Ok(s)
    ensures var c := Build(SAMPLE_POLICY, SAMPLE_BRIEF, SAMPLE_CANDIDATES, legs, true);
            && c.Ok? && c.value.plan.days == [Day(0, BlocksOf(s.placed, "CNY"))]
            && c.value.legs == s.calls && c.value.meters == s.meters && c.value.transit == s.transit
    ensures PlacedDays(SAMPLE_POLICY, SAMPLE_BRIEF, SAMPLE_CANDIDATES, legs) == [s.placed]
  {
    hide FillDay, Eligible, Terms, BlocksOf, TotalMin, TotalMax;
    SampleIsChosen();
    var p, cs := SAMPLE_POLICY, SAMPLE_CANDIDATES;
    assert PlanDays(p, cs, legs, "CNY", 0) == Ok(Progress([], State([], 0, 0, 0, 0, 0)));
    assert [] + [s.placed] == [s.placed];
    assert PlanDays(p, cs, legs, "CNY", 1) == Ok(Progress([s.placed], s));
    assert Window(SAMPLE_BRIEF) == 1;
  }

  lemma DayLongRideFills()
    ensures var x := Placed(SAMPLE_CANDIDATES[0], 540, 660, None);
            var y := Placed(SAMPLE_CANDIDATES[1], 2115, 2235, Some(Leg(1440, 0)));
            FillDay(SAMPLE_POLICY, SAMPLE_CANDIDATES, DayLongRide, "CNY", State([], 0, 0, 0, 0, 0)) == Ok(State([x, y], 2235, 2, 1, 0, 1440))
  {
    var p, cs, start := SAMPLE_POLICY, SAMPLE_CANDIDATES, State([], 540, 0, 0, 0, 0);
    var x := Placed(cs[0], 540, 660, None);
    var y := Placed(cs[1], 2115, 2235, Some(Leg(1440, 0)));
    assert Proposed(p, cs, DayLongRide, start) == x;
    var one := State([x], 660, 1, 0, 0, 0);
    assert Moved(DayLongRide, start).(placed := [] + [x], now := 660) == one;
    assert Proposed(p, cs, DayLongRide, one) == y;
    var two := State([x, y], 2235, 2, 1, 0, 1440);
    assert Moved(DayLongRide, one).(placed := [x] + [y], now := 2235) == two;
    assert BlockAccepted(BlockOf(x, "CNY")) && BlockAccepted(BlockOf(y, "CNY"));
    assert Fill(p, cs, DayLongRide, "CNY", 2, 2, two) == Ok(two);
    assert Fill(p, cs, DayLongRide, "CNY", 2, 1, one) == Ok(two);
    assert Fill(p, cs, DayLongRide, "CNY", 2, 0, start) == Ok(two);
    assert StartsOrdered([x, y]);
  }

  /** Only the hour of the end is tested, so a ride of a whole day gives a plan that the planner accepts and the validator refuses. */
  lemma MidnightSlipsThrough(ev: Evidence)
    ensures var c := Build(SAMPLE_POLICY, SAMPLE_BRIEF, SAMPLE_CANDIDATES, DayLongRide, true);
            && c.Ok? && |c.value.plan.days| == 1 && !DayOk(c.value.plan.days[0], ev)
            && !Valid(SAMPLE_BRIEF, c.value.plan, ev)
    ensures !AllBeforeMidnight(PlacedDays(SAMPLE_POLICY, SAMPLE_BRIEF, SAMPLE_CANDIDATES, DayLongRide))
  {
    var x := Placed(SAMPLE_CANDIDATES[0], 540, 660, None);
    var y := Placed(SAMPLE_CANDIDATES[1], 2115, 2235, Some(Leg(1440, 0)));
    var s := State([x, y], 2235, 2, 1, 0, 1440);
    DayLongRideFills();
    SampleBuild(DayLongRide, s);
    hide Build, FillDay, RefsOk, DistinctPlaces, PlacedDays;
    var day := Day(0, BlocksOf([x, y], "CNY"));
    assert !GapOk(day.blocks[0], day.blocks[1]);
    assert !BlockOk(day, 1, ev);
    assert [x, y][1].until >= MIDNIGHT;
    assert !BeforeMidnight([x, y]);
    assert [s.placed][0] == [x, y];
  }

  lemma TenHourRideFills()
    ensures var x := Placed(SAMPLE_CANDIDATES[0], 540, 660, None);
            FillDay(SAMPLE_POLICY, SAMPLE_CANDIDATES, TenHourRide, "CNY", State([], 0, 0, 0, 0, 0)) == Ok(State([x], 660, 2, 1, 5, 600))
  {
    var p, cs, start := SAMPLE_POLICY, SAMPLE_CANDIDATES, State([], 540, 0, 0, 0, 0);
    var x := Placed(cs[0], 540, 660, None);
    assert Proposed(p, cs, TenHourRide, start) == x;
    var one := State([x], 660, 1, 0, 0, 0);
    assert Moved(TenHourRide, start).(placed := [] + [x], now := 660) == one;
    assert Proposed(p, cs, TenHourRide, one) == Placed(cs[1], 1275, 1395, Some(Leg(600, 5)));
    assert BlockAccepted(BlockOf(x, "CNY"));
    assert Fill(p, cs, TenHourRide, "CNY", 2, 1, one) == Ok(State([x], 660, 2, 1, 5, 600));
    assert Fill(p, cs, TenHourRide, "CNY", 2, 0, start) == Ok(State([x], 660, 2, 1, 5, 600));
  }

  /** A plan with a single block and no route in it, whose summary has one leg of 5 metres and 600 minutes. */
  lemma DroppedLegIsCounted()
    ensures var c := Build(SAMPLE_POLICY, SAMPLE_BRIEF, SAMPLE_CANDIDATES, TenHourRide, true);
            && c.Ok? && |AllBlocks(c.value.plan.days)| == 1
            && c.value.legs == 1 && c.value.meters == 5 && c.value.transit == 600
    ensures PlacedLegs(PlacedDays(SAMPLE_POLICY, SAMPLE_BRIEF, SAMPLE_CANDIDATES, TenHourRide)) == []
  {
    var x := Placed(SAMPLE_CANDIDATES[0], 540, 660, None);
    var s := State([x], 660, 2, 1, 5, 600);
    TenHourRideFills();
    SampleBuild(TenHourRide, s);
    hide Build, FillDay, PlacedDays;
    var days := [Day(0, BlocksOf([x], "CNY"))];
    assert days[..0] == [];
    assert AllBlocks(days) == days[0].blocks;
    assert [[x]][..0] == [] && [x][..0] == [];
    assert DayLegs([x]) == [];
    assert PlacedLegs([[x]]) == [];
  }
}

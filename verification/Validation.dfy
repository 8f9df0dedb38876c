/**
 * The publication gate of agent/travel_agent/runtime_v2/validation.py: the constraint validator,
 * the semantic verifier and the policy that combines their reports.
 *
 * Clock times are seconds since local midnight, dates are day numbers, money is exact, and titles
 * and constraint texts are already case-folded.
 */
module Validation {
  import opened Common

  datatype Leg = Leg(maxMinutes: int, meters: int)

  datatype Cost = Cost(min: real, max: real, currency: string)

  /** A time block; `endDay` is 1 when it ends on the following day. */
  datatype Block = Block(
    place: string, title: string, start: int, end: int, endDay: int, minutes: int, transit: Option<Leg>, cost: Option<Cost>,
    refs: seq<string>)

  datatype Day = Day(date: int, blocks: seq<Block>)

  datatype Plan = Plan(days: seq<Day>, assumptions: seq<seq<string>>, total: Cost)

  datatype ConstraintKind = Visit | Avoid | Other

  datatype Constraint = Constraint(kind: ConstraintKind, hard: bool, text: string)

  datatype Brief = Brief(start: int, end: int, destination: string, budget: Cost, constraints: seq<Constraint>)

  datatype Freshness = Fresh | Stale | Expired | Unknown

  datatype Evidence = Evidence(items: map<string, Freshness>, unresolved: seq<bool>)

  datatype Outcome = Pass | Warning | Fail

  datatype Category = Timing | Route | Budget | OpeningHours | HardConstraint

  datatype Check = Check(category: Category, outcome: Outcome)

  const DAY := 86400

  function From(b: Block): int {
    b.start
  }

  function Until(b: Block): int {
    b.end + DAY * b.endDay
  }

  // ---------------------------------------------------------------------------------------------
  // What each check means

  predicate InWindow(brief: Brief, plan: Plan) {
    plan.days != [] && forall i :: 0 <= i < |plan.days| ==> brief.start <= plan.days[i].date <= brief.end
  }

  predicate HasConcretePlace(brief: Brief, plan: Plan) {
    exists i, j :: 0 <= i < |plan.days| && 0 <= j < |plan.days[i].blocks| && plan.days[i].blocks[j].place != brief.destination
  }

  predicate DistinctPlaces(day: Day) {
    forall i, j :: 0 <= i < j < |day.blocks| ==> day.blocks[i].place != day.blocks[j].place
  }

  /** Whole minutes of the interval, rounded down, against the stated duration. */
  predicate DurationOk(b: Block) {
    (Until(b) - From(b)) / 60 == b.minutes
  }

  function RequiredMinutes(b: Block): int {
    if b.transit.Some? then b.transit.value.maxMinutes else 0
  }

  predicate GapOk(previous: Block, b: Block) {
    (From(b) - Until(previous)) / 60 >= RequiredMinutes(b)
  }

  predicate RefsOk(b: Block, ev: Evidence) {
    forall i :: 0 <= i < |b.refs| ==> b.refs[i] in ev.items
  }

  predicate BudgetOk(brief: Brief, plan: Plan) {
    plan.total.currency == brief.budget.currency && plan.total.max <= brief.budget.max
  }

  predicate FoundAt(text: string, part: string, i: int) {
    0 <= i <= |text| - |part| && text[i..i + |part|] == part
  }

  predicate Contains(text: string, part: string) {
    exists i :: 0 <= i <= |text| && FoundAt(text, part, i)
  }

  predicate ConstraintOk(c: Constraint, titles: string) {
    !c.hard || (match c.kind case Visit => Contains(titles, c.text) case Avoid => !Contains(titles, c.text) case Other => true)
  }

  /** The checks on block `j` of a day. */
  predicate BlockOk(day: Day, j: int, ev: Evidence)
    requires 0 <= j < |day.blocks|
  {
    DurationOk(day.blocks[j]) && (j > 0 ==> GapOk(day.blocks[j - 1], day.blocks[j])) && RefsOk(day.blocks[j], ev)
  }

  predicate DayOk(day: Day, ev: Evidence) {
    DistinctPlaces(day) && forall j :: 0 <= j < |day.blocks| ==> BlockOk(day, j, ev)
  }

  /** All block titles of the plan, joined by single spaces. */
  function BlockTitles(blocks: seq<Block>): seq<string> {
    seq(|blocks|, i requires 0 <= i < |blocks| => blocks[i].title)
  }

  function AllTitles(days: seq<Day>): seq<string> {
    if days == [] then [] else AllTitles(days[..|days| - 1]) + BlockTitles(days[|days| - 1].blocks)
  }

  function Join(parts: seq<string>): string {
    if parts == [] then "" else if |parts| == 1 then parts[0] else Join(parts[..|parts| - 1]) + " " + parts[|parts| - 1]
  }

  function Titles(plan: Plan): string {
    Join(AllTitles(plan.days))
  }

  /** The hard part of the validator, declaratively. */
  predicate Valid(brief: Brief, plan: Plan, ev: Evidence) {
    && InWindow(brief, plan)
    && HasConcretePlace(brief, plan)
    && (forall i :: 0 <= i < |plan.days| ==> DayOk(plan.days[i], ev))
    && BudgetOk(brief, plan)
    && (forall i :: 0 <= i < |brief.constraints| ==> ConstraintOk(brief.constraints[i], Titles(plan)))
  }

  // ---------------------------------------------------------------------------------------------
  // The validator

  predicate NoFail(checks: seq<Check>) {
    forall i :: 0 <= i < |checks| ==> !checks[i].outcome.Fail?
  }

  predicate NoWarning(checks: seq<Check>) {
    forall i :: 0 <= i < |checks| ==> !checks[i].outcome.Warning?
  }

  function Judged(category: Category, ok: bool): Check {
    Check(category, if ok then Pass else Fail)
  }

  lemma NoFailAppend(checks: seq<Check>, more: seq<Check>)
    ensures NoFail(checks + more) <==> NoFail(checks) && NoFail(more)
    ensures NoWarning(checks + more) <==> NoWarning(checks) && NoWarning(more)
  {
    assert forall i :: 0 <= i < |checks| ==> checks[i] == (checks + more)[i];
    assert forall i :: 0 <= i < |more| ==> more[i] == (checks + more)[|checks| + i];
  }

  lemma NoFailOne(checks: seq<Check>, c: Check)
    ensures NoFail(checks + [c]) <==> NoFail(checks) && !c.outcome.Fail?
    ensures NoWarning(checks + [c]) <==> NoWarning(checks) && !c.outcome.Warning?
  {
    NoFailAppend(checks, [c]);
    assert [c][0] == c;
  }

  /** The dates test: `min` and `max` over the list of dates. */
  method CheckDates(brief: Brief, plan: Plan) returns (ok: bool)
    ensures ok == InWindow(brief, plan)
  {
    if plan.days == [] {
      return false;
    }
    var least, most := plan.days[0].date, plan.days[0].date;
    for i := 1 to |plan.days|
      invariant forall k :: 0 <= k < i ==> least <= plan.days[k].date <= most
      invariant exists k :: 0 <= k < i && plan.days[k].date == least
      invariant exists k :: 0 <= k < i && plan.days[k].date == most
    {
      if plan.days[i].date < least {
        least := plan.days[i].date;
      }
      if plan.days[i].date > most {
        most := plan.days[i].date;
      }
    }
    return least >= brief.start && most <= brief.end;
  }

  /** The length of the place list against the size of its set. */
  method CheckPlaces(day: Day) returns (ok: bool)
    ensures ok == DistinctPlaces(day)
  {
    var seen: set<string> := {};
    for j := 0 to |day.blocks|
      invariant forall p :: p in seen <==> exists k :: 0 <= k < j && day.blocks[k].place == p
      invariant |seen| <= j
      invariant |seen| == j <==> forall i, k :: 0 <= i < k < j ==> day.blocks[i].place != day.blocks[k].place
    {
      seen := seen + {day.blocks[j].place};
    }
    return |seen| == |day.blocks|;
  }

  /** The blocks of one day, with the running end of the previous block. */
  method CheckBlocks(day: Day, ev: Evidence) returns (checks: seq<Check>)
    ensures NoFail(checks) <==> forall j :: 0 <= j < |day.blocks| ==> BlockOk(day, j, ev)
    ensures NoWarning(checks)
  {
    hide DurationOk, GapOk, RefsOk, NoFail, NoWarning;
    checks := [];
    NoneFails();
    var previous: Option<Block> := None;
    for j := 0 to |day.blocks|
      invariant previous == if j == 0 then None else Some(day.blocks[j - 1])
      invariant NoFail(checks) <==> forall k :: 0 <= k < j ==> BlockOk(day, k, ev)
      invariant NoWarning(checks)
    {
      var b := day.blocks[j];
      ghost var before := NoFail(checks);
      NoFailOne(checks, Judged(Timing, DurationOk(b)));
      checks := checks + [Judged(Timing, DurationOk(b))];
      if previous.Some? {
        NoFailOne(checks, Judged(Route, GapOk(previous.value, b)));
        checks := checks + [Judged(Route, GapOk(previous.value, b))];
      }
      previous := Some(b);
      NoFailOne(checks, Judged(HardConstraint, RefsOk(b, ev)));
      checks := checks + [Judged(HardConstraint, RefsOk(b, ev))];
      assert NoFail(checks) <==> before && BlockOk(day, j, ev);
    }
  }

  lemma NoneFails()
    ensures NoFail([]) && NoWarning([])
  {
  }

  method CheckDays(plan: Plan, ev: Evidence) returns (checks: seq<Check>)
    ensures NoFail(checks) <==> forall i :: 0 <= i < |plan.days| ==> DayOk(plan.days[i], ev)
    ensures NoWarning(checks)
  {
    hide BlockOk, DistinctPlaces, NoFail, NoWarning;
    checks := [];
    NoneFails();
    for i := 0 to |plan.days|
      invariant NoFail(checks) <==> forall k :: 0 <= k < i ==> DayOk(plan.days[k], ev)
      invariant NoWarning(checks)
    {
      var distinct := CheckPlaces(plan.days[i]);
      NoFailOne(checks, Judged(HardConstraint, distinct));
      checks := checks + [Judged(HardConstraint, distinct)];
      var more := CheckBlocks(plan.days[i], ev);
      NoFailAppend(checks, more);
      checks := checks + more;
    }
  }

  method CheckConstraints(brief: Brief, titles: string) returns (checks: seq<Check>)
    ensures NoFail(checks) <==> forall i :: 0 <= i < |brief.constraints| ==> ConstraintOk(brief.constraints[i], titles)
    ensures NoWarning(checks)
  {
    hide Contains, NoFail, NoWarning;
    checks := [];
    NoneFails();
    for i := 0 to |brief.constraints|
      invariant NoFail(checks) <==> forall k :: 0 <= k < i ==> ConstraintOk(brief.constraints[k], titles)
      invariant NoWarning(checks)
    {
      var c := brief.constraints[i];
      if !c.hard || c.kind.Other? {
        continue;
      }
      var mentioned := Contains(titles, c.text);
      var satisfied := if c.kind.Visit? then mentioned else !mentioned;
      NoFailOne(checks, Judged(HardConstraint, satisfied));
      checks := checks + [Judged(HardConstraint, satisfied)];
    }
  }

  /** Evidence that may be out of date only ever warns. */
  predicate Current(b: Block, ev: Evidence) {
    && (exists i :: 0 <= i < |b.refs| && b.refs[i] in ev.items)
    && (forall i :: 0 <= i < |b.refs| && b.refs[i] in ev.items ==> ev.items[b.refs[i]].Fresh?)
  }

  predicate AllCurrent(plan: Plan, ev: Evidence) {
    forall i, j :: 0 <= i < |plan.days| && 0 <= j < |plan.days[i].blocks| ==> Current(plan.days[i].blocks[j], ev)
  }

  method CheckFreshness(plan: Plan, ev: Evidence) returns (checks: seq<Check>)
    ensures NoFail(checks)
    ensures NoWarning(checks) <==> AllCurrent(plan, ev)
  {
    hide Current;
    checks := [];
    for i := 0 to |plan.days|
      invariant NoFail(checks)
      invariant NoWarning(checks) <==>
                forall a, j :: 0 <= a < i && 0 <= j < |plan.days[a].blocks| ==> Current(plan.days[a].blocks[j], ev)
    {
      var day := plan.days[i];
      ghost var before := NoWarning(checks);
      for j := 0 to |day.blocks|
        invariant NoFail(checks)
        invariant NoWarning(checks) <==> before && forall b :: 0 <= b < j ==> Current(day.blocks[b], ev)
      {
        var c := Check(OpeningHours, if Current(day.blocks[j], ev) then Pass else Warning);
        NoFailOne(checks, c);
        checks := checks + [c];
      }
    }
  }

  /** `validate`: it has a failing check exactly when the plan is not valid. */
  method Validate(brief: Brief, plan: Plan, ev: Evidence) returns (checks: seq<Check>, outcome: Outcome)
    ensures NoFail(checks) <==> Valid(brief, plan, ev)
    ensures NoWarning(checks) <==> AllCurrent(plan, ev)
    ensures outcome.Fail? <==> !Valid(brief, plan, ev)
    ensures outcome.Pass? <==> Valid(brief, plan, ev) && AllCurrent(plan, ev)
  {
    hide InWindow, HasConcretePlace, DayOk, ConstraintOk, Titles, BudgetOk, NoFail, NoWarning, AllCurrent;
    var dates := CheckDates(brief, plan);
    NoneFails();
    checks := [];
    NoFailOne(checks, Judged(HardConstraint, dates));
    checks := checks + [Judged(HardConstraint, dates)];
    var concrete := HasConcretePlace(brief, plan);
    NoFailOne(checks, Judged(HardConstraint, concrete));
    checks := checks + [Judged(HardConstraint, concrete)];
    var days := CheckDays(plan, ev);
    NoFailAppend(checks, days);
    checks := checks + days;
    var budget := BudgetOk(brief, plan);
    NoFailOne(checks, Judged(Budget, budget));
    checks := checks + [Judged(Budget, budget)];
    var constraints := CheckConstraints(brief, Titles(plan));
    NoFailAppend(checks, constraints);
    checks := checks + constraints;
    var freshness := CheckFreshness(plan, ev);
    NoFailAppend(checks, freshness);
    checks := checks + freshness;
    outcome := OutcomeOf(checks);
  }

  function OutcomeOf(checks: seq<Check>): (o: Outcome)
    ensures o.Fail? <==> !NoFail(checks)
    ensures o.Pass? <==> NoFail(checks) && NoWarning(checks)
  {
    if exists i :: 0 <= i < |checks| && checks[i].outcome.Fail? then Fail
    else if exists i :: 0 <= i < |checks| && checks[i].outcome.Warning? then Warning
    else Pass
  }

  // ---------------------------------------------------------------------------------------------
  // The semantic verifier and the policy

  datatype Severity = Low | Medium | High | Critical

  predicate Blocking(s: Severity) {
    s.High? || s.Critical?
  }

  predicate Known(refs: seq<string>, ev: Evidence) {
    forall i :: 0 <= i < |refs| ==> refs[i] in ev.items
  }

  predicate Supported(refs: seq<string>, ev: Evidence) {
    refs != [] && Known(refs, ev)
  }

  /** The reference lists of every block, then of every assumption. */
  function BlockRefs(days: seq<Day>): seq<seq<string>> {
    if days == [] then []
    else
      var blocks := days[|days| - 1].blocks;
      BlockRefs(days[..|days| - 1]) + seq(|blocks|, i requires 0 <= i < |blocks| => blocks[i].refs)
  }

  function Used(plan: Plan): seq<seq<string>> {
    BlockRefs(plan.days) + plan.assumptions
  }

  function CountSupported(used: seq<seq<string>>, ev: Evidence): (n: nat)
    ensures n <= |used|
    ensures n == |used| <==> forall i :: 0 <= i < |used| ==> Supported(used[i], ev)
  {
    if used == [] then 0
    else CountSupported(used[..|used| - 1], ev) + if Supported(used[|used| - 1], ev) then 1 else 0
  }

  /** At least nine claims in ten are supported by known evidence. */
  predicate CoverageOk(plan: Plan, ev: Evidence) {
    10 * CountSupported(Used(plan), ev) >= 9 * |Used(plan)|
  }

  predicate NoConflict(ev: Evidence) {
    forall i :: 0 <= i < |ev.unresolved| ==> !ev.unresolved[i]
  }

  datatype SemanticReport = SemanticReport(plan: string, total: nat, supported: nat, risks: seq<Severity>)

  predicate NoHigh(risks: seq<Severity>) {
    forall i :: 0 <= i < |risks| ==> !Blocking(risks[i])
  }

  lemma NoHighOne(risks: seq<Severity>, r: Severity)
    ensures NoHigh(risks + [r]) <==> NoHigh(risks) && !Blocking(r)
  {
    if NoHigh(risks + [r]) {
      assert forall i :: 0 <= i < |risks| ==> risks[i] == (risks + [r])[i];
      assert (risks + [r])[|risks|] == r;
    }
  }

  /** A high risk for every block with an unknown reference. */
  method UnknownReferences(plan: Plan, ev: Evidence) returns (risks: seq<Severity>)
    ensures NoHigh(risks) ==> risks == []
    ensures NoHigh(risks) <==> forall i, j :: 0 <= i < |plan.days| && 0 <= j < |plan.days[i].blocks| ==> RefsOk(plan.days[i].blocks[j], ev)
  {
    hide RefsOk;
    risks := [];
    for i := 0 to |plan.days|
      invariant NoHigh(risks) ==> risks == []
      invariant NoHigh(risks) <==> forall a, j :: 0 <= a < i && 0 <= j < |plan.days[a].blocks| ==> RefsOk(plan.days[a].blocks[j], ev)
    {
      var day := plan.days[i];
      ghost var before := NoHigh(risks);
      for j := 0 to |day.blocks|
        invariant NoHigh(risks) ==> risks == []
        invariant NoHigh(risks) <==> before && forall b :: 0 <= b < j ==> RefsOk(day.blocks[b], ev)
      {
        if !RefsOk(day.blocks[j], ev) {
          NoHighOne(risks, High);
          risks := risks + [High];
        }
      }
    }
  }

  predicate FreshRef(ref: string, ev: Evidence) {
    ref in ev.items ==> ev.items[ref].Fresh?
  }

  predicate FreshRefs(refs: seq<string>, ev: Evidence) {
    forall j :: 0 <= j < |refs| ==> FreshRef(refs[j], ev)
  }

  /** All known evidence in use is fresh. */
  predicate UsedIsFresh(plan: Plan, ev: Evidence) {
    forall i :: 0 <= i < |Used(plan)| ==> FreshRefs(Used(plan)[i], ev)
  }

  predicate AssumptionsCited(plan: Plan) {
    forall i :: 0 <= i < |plan.assumptions| ==> plan.assumptions[i] != []
  }

  /** Evidence in use that is not fresh is a medium risk, once per evidence. */
  method FreshnessRisks(plan: Plan, ev: Evidence) returns (risks: seq<Severity>)
    ensures NoHigh(risks)
    ensures risks == [] <==> UsedIsFresh(plan, ev)
  {
    hide Used;
    risks := [];
    var used := Used(plan);
    var seen: set<string> := {};
    for i := 0 to |used|
      invariant NoHigh(risks)
      invariant risks == [] ==> forall r :: r in seen ==> FreshRef(r, ev)
      invariant risks == [] <==> forall k :: 0 <= k < i ==> FreshRefs(used[k], ev)
    {
      ghost var before := risks == [];
      for j := 0 to |used[i]|
        invariant NoHigh(risks)
        invariant risks == [] ==> forall r :: r in seen ==> FreshRef(r, ev)
        invariant risks == [] <==> before && forall k :: 0 <= k < j ==> FreshRef(used[i][k], ev)
      {
        var ref := used[i][j];
        if ref in ev.items && ref !in seen {
          seen := seen + {ref};
          if !ev.items[ref].Fresh? {
            risks := risks + [Medium];
          }
        }
      }
    }
  }

  /** An assumption without evidence is a medium risk. */
  method AssumptionRisks(plan: Plan) returns (risks: seq<Severity>)
    ensures NoHigh(risks)
    ensures risks == [] <==> AssumptionsCited(plan)
  {
    risks := [];
    for i := 0 to |plan.assumptions|
      invariant NoHigh(risks)
      invariant risks == [] <==> forall k :: 0 <= k < i ==> plan.assumptions[k] != []
    {
      if plan.assumptions[i] == [] {
        risks := risks + [Medium];
      }
    }
  }

  method ConflictRisks(ev: Evidence) returns (risks: seq<Severity>)
    ensures NoHigh(risks) ==> risks == []
    ensures NoHigh(risks) <==> NoConflict(ev)
  {
    risks := [];
    for i := 0 to |ev.unresolved|
      invariant NoHigh(risks) ==> risks == []
      invariant NoHigh(risks) <==> forall k :: 0 <= k < i ==> !ev.unresolved[k]
    {
      if ev.unresolved[i] {
        NoHighOne(risks, High);
        risks := risks + [High];
      }
    }
  }

  predicate AllRefsOk(plan: Plan, ev: Evidence) {
    forall i, j :: 0 <= i < |plan.days| && 0 <= j < |plan.days[i].blocks| ==> RefsOk(plan.days[i].blocks[j], ev)
  }

  /** `verify`. */
  method VerifySemantics(id: string, plan: Plan, ev: Evidence) returns (report: SemanticReport)
    ensures report.plan == id && report.total == |Used(plan)| && report.supported == CountSupported(Used(plan), ev)
    ensures NoHigh(report.risks) <==> AllRefsOk(plan, ev) && NoConflict(ev)
    ensures NoHigh(report.risks) ==> (report.risks == [] <==> UsedIsFresh(plan, ev) && AssumptionsCited(plan))
  {
    hide RefsOk, CountSupported, NoConflict, UsedIsFresh, AssumptionsCited;
    var unknown := UnknownReferences(plan, ev);
    var stale := FreshnessRisks(plan, ev);
    var uncited := AssumptionRisks(plan);
    var conflicts := ConflictRisks(ev);
    hide NoHigh;
    var risks := Both(Both(Both(unknown, stale), uncited), conflicts);
    report := SemanticReport(id, |Used(plan)|, CountSupported(Used(plan), ev), risks);
  }

  function Both(a: seq<Severity>, b: seq<Severity>): (c: seq<Severity>)
    ensures NoHigh(c) <==> NoHigh(a) && NoHigh(b)
    ensures c == [] <==> a == [] && b == []
  {
    assert NoHigh(a + b) ==> NoHigh(a) && NoHigh(b) by {
      if NoHigh(a + b) {
        assert forall i :: 0 <= i < |a| ==> a[i] == (a + b)[i];
        assert forall i :: 0 <= i < |b| ==> b[i] == (a + b)[|a| + i];
      }
    }
    a + b
  }

  datatype ConstraintReport = ConstraintReport(plan: string, checks: seq<Check>)

  datatype Decision = Decision(publishable: bool, verdict: Outcome)

  /** `combine`: reports on another plan are refused; otherwise blockers and warnings decide. */
  method Combine(id: string, constraints: ConstraintReport, semantic: SemanticReport) returns (out: Result<Decision, ()>)
    requires semantic.supported <= semantic.total
    ensures out.Err? <==> constraints.plan != id || semantic.plan != id
    ensures out.Ok? ==>
              var covered := 10 * semantic.supported >= 9 * semantic.total;
              && (out.value.publishable <==> NoFail(constraints.checks) && NoHigh(semantic.risks) && covered)
              && (out.value.verdict.Fail? <==> !out.value.publishable)
              && (out.value.verdict.Pass? <==> out.value.publishable && NoWarning(constraints.checks) && semantic.risks == [])
  {
    if constraints.plan != id || semantic.plan != id {
      return Err(());
    }
    var checks := constraints.checks;
    var blockers, warnings := 0, 0;
    for i := 0 to |checks|
      invariant blockers >= 0 && warnings >= 0
      invariant blockers == 0 <==> forall k :: 0 <= k < i ==> !checks[k].outcome.Fail?
      invariant warnings == 0 <==> forall k :: 0 <= k < i ==> !checks[k].outcome.Warning?
    {
      if checks[i].outcome.Pass? {
        continue;
      }
      if checks[i].outcome.Fail? {
        blockers := blockers + 1;
      } else {
        warnings := warnings + 1;
      }
    }
    ghost var failing, warned := blockers, warnings;
    for i := 0 to |semantic.risks|
      invariant blockers >= failing >= 0 && warnings >= warned >= 0
      invariant blockers == 0 <==> failing == 0 && forall k :: 0 <= k < i ==> !Blocking(semantic.risks[k])
      invariant blockers + warnings == failing + warned + i
    {
      if Blocking(semantic.risks[i]) {
        blockers := blockers + 1;
      } else {
        warnings := warnings + 1;
      }
    }
    var ratio := if semantic.total == 0 then 1.0 else semantic.supported as real / semantic.total as real;
    RatioFloor(semantic.supported, semantic.total);
    if ratio < 0.9 {
      blockers := blockers + 1;
    }
    var verdict := if blockers > 0 then Fail else if warnings > 0 then Warning else Pass;
    return Ok(Decision(blockers == 0, verdict));
  }

  lemma RatioFloor(supported: nat, total: nat)
    requires supported <= total
    ensures (if total == 0 then 1.0 else supported as real / total as real) >= 0.9 <==> 10 * supported >= 9 * total
  {
    if total > 0 {
      var s, t := supported as real, total as real;
      assert s / t >= 0.9 <==> s >= 0.9 * t by {
        assert s == (s / t) * t;
        if s / t >= 0.9 {
          assert (s / t) * t >= 0.9 * t;
        }
        if s / t < 0.9 {
          assert (s / t) * t < 0.9 * t;
        }
      }
      assert s >= 0.9 * t <==> 10.0 * s >= 9.0 * t;
      assert 10.0 * s == (10 * supported) as real && 9.0 * t == (9 * total) as real;
    }
  }

  /** What publication means, without reference to reports, checks or risks. */
  predicate Publishable(brief: Brief, plan: Plan, ev: Evidence) {
    Valid(brief, plan, ev) && NoConflict(ev) && CoverageOk(plan, ev)
  }

  lemma ValidRefs(brief: Brief, plan: Plan, ev: Evidence)
    requires Valid(brief, plan, ev)
    ensures AllRefsOk(plan, ev)
  {
    hide RefsOk, InWindow, HasConcretePlace, BudgetOk, ConstraintOk, DurationOk, GapOk, DistinctPlaces;
    forall i, j | 0 <= i < |plan.days| && 0 <= j < |plan.days[i].blocks|
      ensures RefsOk(plan.days[i].blocks[j], ev)
    {
      assert DayOk(plan.days[i], ev);
      assert BlockOk(plan.days[i], j, ev);
    }
  }

  /** The whole gate: the three services together publish exactly the publishable plans, and say when nothing was flagged at all. */
  method Gate(id: string, brief: Brief, plan: Plan, ev: Evidence) returns (d: Decision)
    ensures d.publishable <==> Publishable(brief, plan, ev)
    ensures d.verdict.Fail? <==> !Publishable(brief, plan, ev)
    ensures d.verdict.Pass? <==> Publishable(brief, plan, ev) && AllCurrent(plan, ev) && UsedIsFresh(plan, ev) && AssumptionsCited(plan)
  {
    hide Valid, NoConflict, NoFail, NoWarning, NoHigh, AllRefsOk, CountSupported, Used, AllCurrent, UsedIsFresh, AssumptionsCited;
    var checks, _ := Validate(brief, plan, ev);
    var semantic := VerifySemantics(id, plan, ev);
    var out := Combine(id, ConstraintReport(id, checks), semantic);
    d := out.value;
    if Valid(brief, plan, ev) {
      ValidRefs(brief, plan, ev);
    }
  }

  // ---------------------------------------------------------------------------------------------
  // What publication guarantees about a day

  /** With durations and transits that are not negative, earlier blocks end before later ones start. */
  lemma {:induction false} BlocksInOrder(day: Day, ev: Evidence, i: nat, j: nat)
    requires DayOk(day, ev) && i < j < |day.blocks|
    requires forall k :: 0 <= k < |day.blocks| ==> day.blocks[k].minutes >= 0 && RequiredMinutes(day.blocks[k]) >= 0
    ensures From(day.blocks[i]) <= Until(day.blocks[i]) <= From(day.blocks[j]) <= Until(day.blocks[j])
    ensures From(day.blocks[j]) >= Until(day.blocks[i]) + 60 * RequiredMinutes(day.blocks[j])
    decreases j
  {
    hide RefsOk, DistinctPlaces, From, Until;
    assert BlockOk(day, i, ev) && BlockOk(day, j, ev) && BlockOk(day, j - 1, ev);
    if i < j - 1 {
      BlocksInOrder(day, ev, i, j - 1);
    }
  }

  /** Any two blocks of a day of a publishable plan are disjoint. */
  lemma PublishableDaysAreDisjoint(brief: Brief, plan: Plan, ev: Evidence, d: nat, i: nat, j: nat)
    requires Publishable(brief, plan, ev) && d < |plan.days| && i < |plan.days[d].blocks| && j < |plan.days[d].blocks| && i != j
    requires forall k :: 0 <= k < |plan.days[d].blocks| ==>
                         plan.days[d].blocks[k].minutes >= 0 && RequiredMinutes(plan.days[d].blocks[k]) >= 0
    ensures var a, b := plan.days[d].blocks[i], plan.days[d].blocks[j]; Until(a) <= From(b) || Until(b) <= From(a)
  {
    hide DayOk, InWindow, HasConcretePlace, BudgetOk, ConstraintOk, NoConflict, CoverageOk;
    assert DayOk(plan.days[d], ev);
    if i < j {
      BlocksInOrder(plan.days[d], ev, i, j);
    } else {
      BlocksInOrder(plan.days[d], ev, j, i);
    }
  }
}

/** The planning agent without regeneration: twelve rounds of planning and checking
    in a two-node graph, each check advancing the month whatever its verdict, then
    the plan taken from the last streamed output and flattened. The language-model
    replies are parameters indexed by round. */
module SimplePlanner {
  import opened Common
  import opened PlanDict
  import opened MonthPlans

  /** What the patterns found in one planner reply: the group after "Theme:", if a
      line matched, and the text after each numbered line, in order. */
  datatype PlannerReply = PlannerReply(themeMatch: Option<string>, taskMatches: seq<string>)

  /** The fields read from a checker reply. */
  datatype Verdict = Verdict(passed: bool, explanation: string)

  datatype Route = ToPlanner | End

  /** One streamed output as the generation loop inspects it: the plan at its top
      level, if there is one, and the plan under a "checker" key, if there is one. */
  datatype Chunk = Chunk(topPlan: Option<Dict<MonthPlan<string>>>, checkerPlan: Option<Dict<MonthPlan<string>>>)

  /** How `generate_plan` ends: an exception from a checker reply, two empty frames,
      or what flattening the selected plan gives. */
  datatype Generation =
    | Raised
    | NoPlan
    | Built(frames: FrameResult<string>)

  /** The plan the loop goes on with: the top-level plan of the last output, else the
      checker's plan in it, else none. */
  function SelectPlan(final: Option<Chunk>): (plan: Option<Dict<MonthPlan<string>>>)
    ensures final.None? ==> plan.None?
    ensures final.Some? && final.value.topPlan.Some? ==> plan == final.value.topPlan
    ensures final.Some? && final.value.topPlan.None? ==> plan == final.value.checkerPlan
  {
    match final
    case None => None
    case Some(chunk) => if chunk.topPlan.Some? then chunk.topPlan else chunk.checkerPlan
  }

  /** The entry a planner reply gives its month. */
  function PlanOf(reply: PlannerReply): MonthPlan<string> {
    MonthPlan(ThemeOf(reply.themeMatch), reply.taskMatches)
  }

  /** The first `n` entries of the plan come from the planner's first `n` replies. */
  ghost predicate Planned(plan: Dict<MonthPlan<string>>, planner: nat -> PlannerReply, n: nat) {
    n <= |plan| && forall i :: 0 <= i < n ==> plan[i].1 == PlanOf(planner(i))
  }

  /** The checker's first `n` replies could be read. */
  ghost predicate AllChecked(checker: nat -> Option<Verdict>, n: nat) {
    forall k :: 0 <= k < n ==> checker(k).Some?
  }

  /** Appending the entry of the next reply keeps the plan in step with the replies. */
  lemma PlannedStep(plan: Dict<MonthPlan<string>>, planner: nat -> PlannerReply, n: nat, key: string)
    requires Planned(plan, planner, n) && |plan| == n
    ensures Planned(plan + [(key, PlanOf(planner(n)))], planner, n + 1)
  {
    var next := plan + [(key, PlanOf(planner(n)))];
    assert forall i :: 0 <= i < n ==> next[i] == plan[i];
  }

  class PlanState {
    var currentMonth: nat
    var plan: Dict<MonthPlan<string>>
    var check: Option<Verdict>   // absent until the first check

    /** Between rounds: months 1 to `currentMonth - 1` are planned. */
    ghost predicate Between()
      reads this
    {
      1 <= currentMonth <= LastMonth + 1 && |plan| == currentMonth - 1 && MonthsInOrder(plan)
    }

    constructor ()
      ensures currentMonth == 1 && plan == [] && check == None
      ensures Between()
    {
      currentMonth := 1;
      plan := [];
      check := None;
    }

    /** `plan_month`: the current month's entry is written from the reply and
        nothing else changes. */
    method PlanMonth(reply: PlannerReply)
      requires DistinctKeys(plan)
      modifies this
      ensures plan == Set(old(plan), MonthKey(currentMonth), PlanOf(reply))
      ensures currentMonth == old(currentMonth) && check == old(check)
    {
      plan := Set(plan, MonthKey(currentMonth), PlanOf(reply));
    }

    /** `check_plan`: the current month's entry is read (so it must be there); a reply
        that is not JSON or lacks a key raises and changes nothing; otherwise the
        verdict is stored and the month advances by one, passed or not. */
    method CheckPlan(reply: Option<Verdict>) returns (raised: bool)
      requires MonthKey(currentMonth) in Keys(plan)
      modifies this
      ensures raised <==> reply.None?
      ensures raised ==> currentMonth == old(currentMonth) && check == old(check)
      ensures !raised ==> currentMonth == old(currentMonth) + 1 && check == reply
      ensures plan == old(plan)
    {
      if reply.None? {
        return true;
      }
      raised := false;
      check := reply;
      currentMonth := currentMonth + 1;
    }

    /** One round: the planner node, then the checker node. From a state between
        rounds that is not past month 12, the month's entry is appended; unless
        the check raises, the month advances and the state is between rounds again. */
    method Round(reply: PlannerReply, verdict: Option<Verdict>) returns (raised: bool)
      requires Between() && currentMonth <= LastMonth
      modifies this
      ensures raised <==> verdict.None?
      ensures plan == old(plan) + [(MonthKey(old(currentMonth)), PlanOf(reply))]
      ensures !raised ==> Between() && currentMonth == old(currentMonth) + 1
    {
      MonthsInOrderKeys(plan);
      MonthKeysDistinct(plan, currentMonth - 1);
      MonthKeysExclude(currentMonth, currentMonth - 1);
      SetNewKey(plan, MonthKey(currentMonth), PlanOf(reply));
      PlanMonth(reply);
      raised := CheckPlan(verdict);
    }

    /** Round `n` of a run, with the replies of round `n`: the plan keeps coming
        from the planner's replies in order. */
    method PlannedRound(planner: nat -> PlannerReply, checker: nat -> Option<Verdict>, n: nat)
      returns (raised: bool)
      requires Between() && currentMonth <= LastMonth && n == currentMonth - 1
      requires Planned(plan, planner, n)
      modifies this
      ensures raised <==> checker(n).None?
      ensures Planned(plan, planner, n + 1)
      ensures !raised ==> Between() && currentMonth == n + 2
    {
      ghost var before := plan;
      raised := Round(planner(n), checker(n));
      PlannedStep(before, planner, n, MonthKey(n + 1));
    }

    /** `router`: the graph ends exactly when the month is past 12. */
    function Router(): (route: Route)
      reads this
      ensures route == End <==> currentMonth > LastMonth
    {
      if currentMonth > LastMonth then End else ToPlanner
    }
  }

  /** The output of `generate_plan` from its last streamed output: the frames of the
      selected plan, or two empty frames when there is no plan. (A key that is not
      "month_<n>" would raise, so none is allowed.) */
  method Finish(final: Option<Chunk>) returns (outcome: Generation)
    requires SelectPlan(final).Some? ==> MonthKeyed(SelectPlan(final).value)
    ensures SelectPlan(final).None? ==> outcome == NoPlan
    ensures SelectPlan(final).Some? ==> outcome.Built? && FramesOf(SelectPlan(final).value, outcome.frames)
  {
    var selected := SelectPlan(final);
    if selected.None? {
      return NoPlan;
    }
    var frames := BuildFrames(selected.value);
    outcome := Built(frames);
  }

  /** The streamed graph run: planner and checker alternate from month 1 with an
      empty plan until the router ends or a check raises. Round k takes
      `planner(k)` and `checker(k)`. */
  method RunGraph(planner: nat -> PlannerReply, checker: nat -> Option<Verdict>)
    returns (rounds: nat, raised: bool, plan: Dict<MonthPlan<string>>, final: Option<Chunk>)
    ensures raised <==> !AllChecked(checker, rounds)
    ensures raised ==> 1 <= rounds <= LastMonth && checker(rounds - 1).None?
    ensures raised ==> AllChecked(checker, rounds - 1)
    ensures !raised ==>
      && rounds == LastMonth && |plan| == rounds && MonthsInOrder(plan)
      && Planned(plan, planner, rounds)
      && final == Some(Chunk(None, Some(plan)))
  {
    var state := new PlanState();
    final := None;
    rounds := 0;
    raised := false;
    while !raised && state.Router() == ToPlanner
      invariant rounds <= LastMonth
      invariant Planned(state.plan, planner, rounds)
      invariant !raised ==> state.Between() && rounds == state.currentMonth - 1 && AllChecked(checker, rounds)
      invariant !raised && rounds > 0 ==> final == Some(Chunk(None, Some(state.plan)))
      invariant raised ==> 1 <= rounds && checker(rounds - 1).None? && AllChecked(checker, rounds - 1)
      decreases LastMonth - rounds
    {
      raised := state.PlannedRound(planner, checker, rounds);
      final := Some(Chunk(None, if raised then None else Some(state.plan)));
      rounds := rounds + 1;
    }
    plan := state.plan;
  }

  /** `generate_plan`: the graph run, then the plan of its last streamed output (the
      checker's) flattened. Unless a checker reply raises, exactly twelve rounds
      run and month k's entry comes from round k - 1; then a plan without tasks
      raises when its rows are sorted, and otherwise the frames hold "month_1" to
      "month_12" in order with the plan's task rows ordered by month. */
  method GeneratePlan(planner: nat -> PlannerReply, checker: nat -> Option<Verdict>)
    returns (rounds: nat, plan: Dict<MonthPlan<string>>, outcome: Generation)
    ensures outcome.Raised? <==> exists k :: 0 <= k < rounds && checker(k).None?
    ensures outcome.Raised? ==> rounds <= LastMonth && checker(rounds - 1).None?
    ensures outcome.Raised? ==> forall k :: 0 <= k < rounds - 1 ==> checker(k).Some?
    ensures !outcome.Raised? ==> rounds == LastMonth && outcome.Built?
    ensures !outcome.Raised? ==>
      && Keys(plan) == MonthKeys(LastMonth)
      && (forall i :: 0 <= i < LastMonth ==> plan[i].1 == PlanOf(planner(i)))
      && MonthKeyed(plan)
      && SortedBy(FlatRows(plan), RowMonth)
      && (outcome.frames.MonthColumnMissing? <==> TaskCount(plan) == 0)
      && (outcome.frames.Frames? ==>
            && outcome.frames.themes == ThemeEntries(plan)
            && SortedBy(outcome.frames.rows, RowMonth)
            && multiset(outcome.frames.rows) == multiset(FlatRows(plan))
            && |outcome.frames.rows| == TaskCount(plan))
  {
    var raised, final;
    rounds, raised, plan, final := RunGraph(planner, checker);
    if raised {
      return rounds, plan, Raised;
    }
    MonthsInOrderKeys(plan);
    FlatRowsOrdered(plan, LastMonth);
    FlatThemesOfMonths(plan, LastMonth);
    outcome := Finish(final);
  }
}

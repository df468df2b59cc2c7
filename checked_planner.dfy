/** The planning agent with a checker: each month is planned, checked, and either
    kept (the month advances) or deleted and planned again, until month 12 passes.
    The language-model replies are parameters: for the planner, the groups its
    patterns matched in the reply; for the checker, the parsed JSON reply. */
module CheckedPlanner {
  import opened Common
  import opened Text
  import opened PlanDict
  import opened MonthPlans

  /** An extracted task: its number and its formatted outline. */
  datatype Task = Task(number: nat, content: string)

  /** One match of the task pattern: number, title, description and time frame. */
  datatype TaskMatch = TaskMatch(number: nat, title: string, description: string, timeFrame: string)

  /** What the patterns found in one planner reply: the group after "Theme:", if a
      line matched, and the task matches in order. */
  datatype PlannerReply = PlannerReply(themeMatch: Option<string>, taskMatches: seq<TaskMatch>)

  /** A checker reply: not JSON, or a JSON object with each of its three keys
      present or missing. */
  datatype CheckReply =
    | Unparsable
    | Parsed(result: Option<bool>, explanation: Option<string>, suggestions: Option<seq<string>>)

  /** What a check leaves in the state. */
  datatype Verdict = Verdict(passed: bool, explanation: string, suggestions: seq<string>)

  /** The next node chosen by the router. */
  datatype Route = ToPlanner | End

  const UnparsableExplanation := "Unable to parse AI response. Plan needs revision."
  const RegenerateSuggestion := "Please generate a new plan addressing repetition and alignment issues."
  const NoExplanation := "No explanation provided."
  const FramePrefix := "\n(Expected time frame: "

  /** The first line of an outline: the stripped title in bold. */
  function Opening(m: TaskMatch): string {
    "**" + Strip(m.title, IsPySpace) + "**\n"
  }

  /** The last line of an outline: the stripped time frame in parentheses. */
  function Closing(m: TaskMatch): string {
    FramePrefix + Strip(m.timeFrame, IsPySpace) + ")"
  }

  /** The outline of a task: the opening line, the stripped description, and the
      closing line. */
  function TaskContent(m: TaskMatch): string {
    Opening(m) + Strip(m.description, IsPySpace) + Closing(m)
  }

  /** An outline starts with its opening line, ends with its closing line, and
      holds the stripped description between them. */
  lemma TaskContentFormat(m: TaskMatch)
    ensures var content := TaskContent(m);
      var opening := Opening(m);
      var closing := Closing(m);
      && |content| == |opening| + |Strip(m.description, IsPySpace)| + |closing|
      && content[..|opening|] == opening
      && content[|opening|..|content| - |closing|] == Strip(m.description, IsPySpace)
      && content[|content| - |closing|..] == closing
  {
  }

  /** The task extracted from one match. */
  function TaskOf(m: TaskMatch): Task {
    Task(m.number, TaskContent(m))
  }

  /** The tasks of a reply: one per match, in match order. */
  function ExtractedTasks(matches: seq<TaskMatch>): (tasks: seq<Task>)
    ensures |tasks| == |matches|
    ensures forall i :: 0 <= i < |matches| ==> tasks[i] == TaskOf(matches[i])
  {
    MapSeq(TaskOf, matches)
  }

  /** `extract_tasks`: the loop that appends one task per match. */
  method ExtractTasks(matches: seq<TaskMatch>) returns (tasks: seq<Task>)
    ensures tasks == ExtractedTasks(matches)
  {
    tasks := MapLoop(TaskOf, matches);
  }

  /** The check outcome with the defaults of `check_plan`: an unparsable reply fails
      with one fixed suggestion; a missing key fails, explains nothing, suggests
      nothing. */
  function CheckVerdict(reply: CheckReply): (v: Verdict)
    ensures reply.Unparsable? ==> v == Verdict(false, UnparsableExplanation, [RegenerateSuggestion])
    ensures reply.Parsed? ==> (v.passed <==> reply.result == Some(true))
    ensures reply.Parsed? && reply.explanation.None? ==> v.explanation == NoExplanation
    ensures reply.Parsed? && reply.explanation.Some? ==> v.explanation == reply.explanation.value
    ensures reply.Parsed? && reply.suggestions.None? ==> v.suggestions == []
    ensures reply.Parsed? && reply.suggestions.Some? ==> v.suggestions == reply.suggestions.value
  {
    match reply
    case Unparsable => Verdict(false, UnparsableExplanation, [RegenerateSuggestion])
    case Parsed(result, explanation, suggestions) =>
      Verdict(
        result.Some? && result.value,
        if explanation.Some? then explanation.value else NoExplanation,
        if suggestions.Some? then suggestions.value else [])
  }

  /** The entry a planner reply gives its month. */
  function PlanOf(reply: PlannerReply): MonthPlan<Task> {
    MonthPlan(ThemeOf(reply.themeMatch), ExtractedTasks(reply.taskMatches))
  }

  /** The entry is the one a round among the first `n` planned, in a round whose
      check passed. */
  ghost predicate FromPassedRound(entry: MonthPlan<Task>, rounds: seq<(PlannerReply, CheckReply)>, n: nat)
    requires n <= |rounds|
  {
    exists k :: 0 <= k < n && CheckVerdict(rounds[k].1).passed && entry == PlanOf(rounds[k].0)
  }

  /** Every entry of the plan comes from a passing round among the first `n`. */
  ghost predicate FromPassedRounds(plan: Dict<MonthPlan<Task>>, rounds: seq<(PlannerReply, CheckReply)>, n: nat) {
    n <= |rounds| && forall i :: 0 <= i < |plan| ==> FromPassedRound(plan[i].1, rounds, n)
  }

  /** A round kept after a passing check extends the plan with that round's entry. */
  lemma FromPassedRoundsStep(plan: Dict<MonthPlan<Task>>, rounds: seq<(PlannerReply, CheckReply)>, n: nat, key: string)
    requires FromPassedRounds(plan, rounds, n) && n < |rounds|
    requires CheckVerdict(rounds[n].1).passed
    ensures FromPassedRounds(plan + [(key, PlanOf(rounds[n].0))], rounds, n + 1)
  {
    var next := plan + [(key, PlanOf(rounds[n].0))];
    forall i | 0 <= i < |next|
      ensures FromPassedRound(next[i].1, rounds, n + 1)
    {
      if i < |plan| {
        var k :| 0 <= k < n && CheckVerdict(rounds[k].1).passed && plan[i].1 == PlanOf(rounds[k].0);
        assert next[i] == plan[i];
      } else {
        assert next[i].1 == PlanOf(rounds[n].0);
      }
    }
  }

  /** A round that keeps nothing leaves the plan's entries accounted for. */
  lemma FromPassedRoundsLater(plan: Dict<MonthPlan<Task>>, rounds: seq<(PlannerReply, CheckReply)>, n: nat)
    requires FromPassedRounds(plan, rounds, n) && n < |rounds|
    ensures FromPassedRounds(plan, rounds, n + 1)
  {
    forall i | 0 <= i < |plan|
      ensures FromPassedRound(plan[i].1, rounds, n + 1)
    {
      var k :| 0 <= k < n && CheckVerdict(rounds[k].1).passed && plan[i].1 == PlanOf(rounds[k].0);
      assert 0 <= k < n + 1 && CheckVerdict(rounds[k].1).passed && plan[i].1 == PlanOf(rounds[k].0);
    }
  }

  /** The shared planning state, changed in place by every node. */
  class PlanningState {
    var currentMonth: nat
    var plan: Dict<MonthPlan<Task>>
    var checkResult: bool
    var checkExplanation: string
    var checkSuggestions: seq<string>

    /** Between rounds: months 1 to `currentMonth - 1` are planned and kept, and
        nothing else is. */
    ghost predicate Between()
      reads this
    {
      1 <= currentMonth <= LastMonth && Keys(plan) == MonthKeys(currentMonth - 1)
    }

    /** The initial state: month 1, an empty plan, a passing check. */
    constructor ()
      ensures currentMonth == 1 && plan == [] && checkResult
      ensures checkExplanation == "" && checkSuggestions == []
      ensures Between()
    {
      currentMonth := 1;
      plan := [];
      checkResult := true;
      checkExplanation := "";
      checkSuggestions := [];
    }

    /** `plan_month`: the current month's entry is written from the reply, the
        suggestions are cleared, and nothing else changes. */
    method PlanMonth(reply: PlannerReply)
      requires DistinctKeys(plan)
      modifies this
      ensures plan == Set(old(plan), MonthKey(currentMonth), PlanOf(reply))
      ensures checkSuggestions == []
      ensures currentMonth == old(currentMonth) && checkResult == old(checkResult)
      ensures checkExplanation == old(checkExplanation)
    {
      var theme := ThemeOf(reply.themeMatch);
      var tasks := ExtractTasks(reply.taskMatches);
      plan := Set(plan, MonthKey(currentMonth), MonthPlan(theme, tasks));
      checkSuggestions := [];
    }

    /** `check_plan`: the current month's entry is read (so it must be there), and
        the verdict is stored with its defaults. */
    method CheckPlan(reply: CheckReply)
      requires MonthKey(currentMonth) in Keys(plan)
      modifies this
      ensures var v := CheckVerdict(reply);
        checkResult == v.passed && checkExplanation == v.explanation
        && checkSuggestions == v.suggestions
      ensures currentMonth == old(currentMonth) && plan == old(plan)
    {
      var v := CheckVerdict(reply);
      checkResult := v.passed;
      checkExplanation := v.explanation;
      checkSuggestions := v.suggestions;
    }

    /** `router`: past month 12 it ends and touches nothing; after a failed check it
        deletes the month's entry and plans the month again; after a passed check it
        ends at month 12 and otherwise advances one month. The deletion needs the
        entry to be there. */
    method Router() returns (route: Route)
      requires currentMonth <= LastMonth && !checkResult ==>
        DistinctKeys(plan) && MonthKey(currentMonth) in Keys(plan)
      modifies this
      ensures old(currentMonth) > LastMonth ==> route == End && plan == old(plan) && currentMonth == old(currentMonth)
      ensures old(currentMonth) <= LastMonth && !old(checkResult) ==>
        route == ToPlanner && plan == Del(old(plan), MonthKey(old(currentMonth)))
        && currentMonth == old(currentMonth)
      ensures old(currentMonth) == LastMonth && old(checkResult) ==>
        route == End && plan == old(plan) && currentMonth == old(currentMonth)
      ensures old(currentMonth) < LastMonth && old(checkResult) ==>
        route == ToPlanner && plan == old(plan) && currentMonth == old(currentMonth) + 1
      ensures checkResult == old(checkResult) && checkExplanation == old(checkExplanation)
      ensures checkSuggestions == old(checkSuggestions)
    {
      if currentMonth > LastMonth {
        return End;
      }
      if !checkResult {
        plan := Del(plan, MonthKey(currentMonth));
        return ToPlanner;
      }
      if currentMonth == LastMonth {
        return End;
      }
      currentMonth := currentMonth + 1;
      route := ToPlanner;
    }

    /** One round of the loop: plan, check, route. From a state between rounds it
        leaves either a state between rounds again or, on `End`, a full plan of
        months 1 to 12. */
    method Round(reply: PlannerReply, check: CheckReply) returns (route: Route)
      requires Between()
      modifies this
      ensures route == ToPlanner ==> Between()
      ensures route == End ==> Keys(plan) == MonthKeys(LastMonth)
      ensures route == End <==> (old(currentMonth) == LastMonth && CheckVerdict(check).passed)
      ensures route == ToPlanner && CheckVerdict(check).passed ==> currentMonth == old(currentMonth) + 1
      ensures CheckVerdict(check).passed ==> plan == old(plan) + [(MonthKey(old(currentMonth)), PlanOf(reply))]
      ensures !CheckVerdict(check).passed ==>
        route == ToPlanner && currentMonth == old(currentMonth) && plan == old(plan)
    {
      ghost var month := currentMonth;
      MonthKeysDistinct(plan, month - 1);
      MonthKeysExclude(month, month - 1);
      PlanMonth(reply);
      assert Keys(plan) == MonthKeys(month);
      SetNewKey(old(plan), MonthKey(month), PlanOf(reply));
      CheckPlan(check);
      MonthKeysDistinct(plan, month);
      route := Router();
      if !CheckVerdict(check).passed {
        ghost var gone := MonthKey(month);
        DelUndoesSet(old(plan), gone, PlanOf(reply));
      }
    }
  }

  /** `generate_plan`, given the replies of the rounds in order. Planning starts at
      month 1 with an empty plan; each round plans, checks and routes. When the
      router ends, the plan holds "month_1" to "month_12" and is flattened into the
      theme frame and the task frame ordered by month; a plan without any task
      raises when its rows are sorted. The loop has no bound on regenerations: when
      the replies run out first, `finished` is false and nothing is flattened. */
  method GeneratePlan(rounds: seq<(PlannerReply, CheckReply)>)
    returns (finished: bool, plan: Dict<MonthPlan<Task>>, frames: Option<FrameResult<Task>>)
    ensures finished <==> frames.Some?
    ensures finished ==> Keys(plan) == MonthKeys(LastMonth) && MonthKeyed(plan)
    ensures finished ==> FromPassedRounds(plan, rounds, |rounds|)
    ensures finished ==> SortedBy(FlatRows(plan), RowMonth)
    ensures finished ==> (frames.value.MonthColumnMissing? <==> TaskCount(plan) == 0)
    ensures finished && frames.value.Frames? ==>
      && frames.value.themes == ThemeEntries(plan)
      && SortedBy(frames.value.rows, RowMonth)
      && multiset(frames.value.rows) == multiset(FlatRows(plan))
      && |frames.value.rows| == TaskCount(plan)
  {
    var state := new PlanningState();
    finished := false;
    var k := 0;
    while !finished && k < |rounds|
      invariant 0 <= k <= |rounds|
      invariant !finished ==> state.Between()
      invariant finished ==> Keys(state.plan) == MonthKeys(LastMonth)
      invariant FromPassedRounds(state.plan, rounds, k)
      decreases |rounds| - k, !finished
    {
      var (reply, check) := rounds[k];
      ghost var before, month := state.plan, state.currentMonth;
      var route := state.Round(reply, check);
      if CheckVerdict(check).passed {
        FromPassedRoundsStep(before, rounds, k, MonthKey(month));
      } else {
        FromPassedRoundsLater(before, rounds, k);
      }
      finished := route == End;
      k := k + 1;
    }
    plan := state.plan;
    frames := None;
    if finished {
      FlatRowsOrdered(plan, LastMonth);
      FlatThemesOfMonths(plan, LastMonth);
      var built := BuildFrames(plan);
      frames := Some(built);
    }
  }
}

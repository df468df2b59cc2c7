/** What the two planning agents share: the month plan they store under
    "month_<n>", the theme fallback, the flattening of the finished plan into a
    theme dictionary and task rows, and the ordering of the rows by month as
    `DataFrame.sort_values('month')` does. That sort is not stable, so of it only
    this is promised: the rows come out ordered by month and are a rearrangement of
    the rows that went in; `SortByMonth` is one sort with that contract. */
module MonthPlans {
  import opened Common
  import opened Text
  import opened PlanDict

  /** The value stored under a month key: a theme and the month's tasks. */
  datatype MonthPlan<T> = MonthPlan(theme: string, tasks: seq<T>)

  /** One task row of the flattened plan. */
  datatype PlanRow<T> = PlanRow(month: nat, task: T)

  const NoTheme := "No theme specified"

  /** The last month of a plan. */
  const LastMonth := 12

  /** The theme of a planner reply: the text after "Theme:" on its line, stripped,
      or the fallback when no line matches. Either way it is already stripped. */
  function ThemeOf(themeMatch: Option<string>): (theme: string)
    ensures themeMatch.None? ==> theme == NoTheme
    ensures themeMatch.Some? ==> theme == Strip(themeMatch.value, IsPySpace)
    ensures Strip(theme, IsPySpace) == theme
  {
    match themeMatch
    case None =>
      assert Strip(NoTheme, IsPySpace) == NoTheme by {
        assert TrimStart(NoTheme, IsPySpace) == NoTheme;
        assert TrimEnd(NoTheme, IsPySpace) == NoTheme;
      }
      NoTheme
    case Some(group) =>
      StripIdempotent(group, IsPySpace);
      Strip(group, IsPySpace)
  }

  // Flattening

  /** Every key of the plan reads back as a month number. */
  predicate MonthKeyed<T>(plan: Dict<MonthPlan<T>>) {
    forall i :: 0 <= i < |plan| ==> ParseMonthKey(plan[i].0).Some?
  }

  /** The rows of one month, one per task, in task order. */
  function MonthRows<T>(month: nat, tasks: seq<T>): (rows: seq<PlanRow<T>>)
    ensures |rows| == |tasks|
    ensures forall j :: 0 <= j < |tasks| ==> rows[j] == PlanRow(month, tasks[j])
  {
    seq(|tasks|, j requires 0 <= j < |tasks| => PlanRow(month, tasks[j]))
  }

  /** The task rows of the plan: month by month in key order, task by task. */
  function FlatRows<T>(plan: Dict<MonthPlan<T>>): seq<PlanRow<T>>
    requires MonthKeyed(plan)
    decreases |plan|
  {
    if plan == [] then []
    else
      var last := plan[|plan| - 1];
      FlatRows(plan[..|plan| - 1]) + MonthRows(ParseMonthKey(last.0).value, last.1.tasks)
  }

  /** The theme dictionary: `themes[f'month_{n}'] = theme` for each entry in key order. */
  function FlatThemes<T>(plan: Dict<MonthPlan<T>>): (themes: Dict<string>)
    requires MonthKeyed(plan)
    ensures DistinctKeys(themes)
    decreases |plan|
  {
    if plan == [] then []
    else
      var last := plan[|plan| - 1];
      Set(FlatThemes(plan[..|plan| - 1]), MonthKey(ParseMonthKey(last.0).value), last.1.theme)
  }

  /** The loops that flatten the plan: one theme entry per month key, and one row
      per task appended month by month. A key that is not "month_<n>" would raise,
      so the plan is required to have none. */
  method Flatten<T>(plan: Dict<MonthPlan<T>>) returns (themes: Dict<string>, rows: seq<PlanRow<T>>)
    requires MonthKeyed(plan)
    ensures themes == FlatThemes(plan) && rows == FlatRows(plan)
  {
    themes := [];
    rows := [];
    for i := 0 to |plan|
      invariant themes == FlatThemes(plan[..i]) && rows == FlatRows(plan[..i])
    {
      var (key, monthPlan) := plan[i];
      var month := ParseMonthKey(key).value;
      assert plan[..i + 1][..i] == plan[..i];
      themes := Set(themes, MonthKey(month), monthPlan.theme);
      rows := AppendMonthRows(rows, month, monthPlan.tasks);
    }
    assert plan[..|plan|] == plan;
  }

  /** The inner loop: one row per task of the month, appended in task order. */
  method AppendMonthRows<T>(before: seq<PlanRow<T>>, month: nat, tasks: seq<T>)
    returns (rows: seq<PlanRow<T>>)
    ensures rows == before + MonthRows(month, tasks)
  {
    rows := before;
    for j := 0 to |tasks|
      invariant rows == before + MonthRows(month, tasks[..j])
    {
      assert MonthRows(month, tasks[..j + 1]) == MonthRows(month, tasks[..j]) + [PlanRow(month, tasks[j])];
      rows := rows + [PlanRow(month, tasks[j])];
    }
    assert tasks[..|tasks|] == tasks;
  }

  /** The number of tasks in the plan. */
  function TaskCount<T>(plan: Dict<MonthPlan<T>>): nat {
    if plan == [] then 0 else TaskCount(plan[..|plan| - 1]) + |plan[|plan| - 1].1.tasks|
  }

  /** One row per task: no task is lost or doubled. */
  lemma {:induction false} FlatRowsCount<T>(plan: Dict<MonthPlan<T>>)
    requires MonthKeyed(plan)
    ensures |FlatRows(plan)| == TaskCount(plan)
    decreases |plan|
  {
    if plan != [] {
      FlatRowsCount(plan[..|plan| - 1]);
    }
  }

  /** A row of month m holding task t is there exactly when some key of the plan
      reads as m and t is one of that entry's tasks. */
  lemma {:induction false} FlatRowsMembers<T>(plan: Dict<MonthPlan<T>>, m: nat, t: T)
    requires MonthKeyed(plan)
    ensures PlanRow(m, t) in FlatRows(plan) <==>
      (exists i :: 0 <= i < |plan| && ParseMonthKey(plan[i].0) == Some(m) && t in plan[i].1.tasks)
    decreases |plan|
  {
    if plan != [] {
      var prefix := plan[..|plan| - 1];
      var last := plan[|plan| - 1];
      FlatRowsMembers(prefix, m, t);
      var block := MonthRows(ParseMonthKey(last.0).value, last.1.tasks);
      assert PlanRow(m, t) in block <==> ParseMonthKey(last.0) == Some(m) && t in last.1.tasks by {
        if t in last.1.tasks && ParseMonthKey(last.0) == Some(m) {
          var j :| 0 <= j < |last.1.tasks| && last.1.tasks[j] == t;
          assert block[j] == PlanRow(m, t);
        }
      }
      assert forall i :: 0 <= i < |prefix| ==> prefix[i] == plan[i];
    }
  }

  /** A plan keyed "month_1" to "month_n" in order flattens to rows already ordered by
      month, every month between 1 and n. */
  lemma {:induction false} FlatRowsOrdered<T>(plan: Dict<MonthPlan<T>>, n: nat)
    requires Keys(plan) == MonthKeys(n)
    ensures MonthKeyed(plan)
    ensures SortedBy(FlatRows(plan), RowMonth)
    ensures forall j :: 0 <= j < |FlatRows(plan)| ==> 1 <= FlatRows(plan)[j].month <= n
    decreases n
  {
    MonthKeysRead(plan, n);
    if n > 0 {
      var prefix := plan[..n - 1];
      assert Keys(prefix) == MonthKeys(n - 1) by {
        assert forall i :: 0 <= i < n - 1 ==> Keys(prefix)[i] == Keys(plan)[i];
      }
      FlatRowsOrdered(prefix, n - 1);
      assert ParseMonthKey(plan[n - 1].0) == Some(n);
      var block := MonthRows(n, plan[n - 1].1.tasks);
      assert FlatRows(plan) == FlatRows(prefix) + block;
      OrderedAppend(FlatRows(prefix), block, n);
    }
  }

  /** Rows of months before n followed by rows of month n stay ordered. */
  lemma OrderedAppend<T>(earlier: seq<PlanRow<T>>, block: seq<PlanRow<T>>, n: nat)
    requires SortedBy(earlier, RowMonth)
    requires forall j :: 0 <= j < |earlier| ==> 1 <= earlier[j].month <= n - 1
    requires n >= 1 && forall j :: 0 <= j < |block| ==> block[j].month == n
    ensures SortedBy(earlier + block, RowMonth)
    ensures forall j :: 0 <= j < |earlier + block| ==> 1 <= (earlier + block)[j].month <= n
  {
    var all := earlier + block;
    assert forall j :: 0 <= j < |all| ==> all[j] == if j < |earlier| then earlier[j] else block[j - |earlier|];
  }

  /** Each key of such a plan reads back as its position plus one. */
  lemma MonthKeysRead<T>(plan: Dict<MonthPlan<T>>, n: nat)
    requires Keys(plan) == MonthKeys(n)
    ensures MonthKeyed(plan)
    ensures forall i :: 0 <= i < n ==> ParseMonthKey(plan[i].0) == Some(i + 1)
  {
    forall i | 0 <= i < n ensures ParseMonthKey(plan[i].0) == Some(i + 1) {
      assert Keys(plan)[i] == MonthKey(i + 1);
      ParseMonthKeyRoundTrip(i + 1);
    }
  }

  /** The themes of a plan keyed "month_1" to "month_n", under the same keys. */
  function ThemeEntries<T>(plan: Dict<MonthPlan<T>>): (themes: Dict<string>)
    ensures |themes| == |plan|
    ensures forall i :: 0 <= i < |plan| ==> themes[i] == (MonthKey(i + 1), plan[i].1.theme)
    ensures Keys(themes) == MonthKeys(|plan|)
  {
    if plan == [] then []
    else ThemeEntries(plan[..|plan| - 1]) + [(MonthKey(|plan|), plan[|plan| - 1].1.theme)]
  }

  /** For such a plan the theme dictionary has the same keys in the same order,
      each with its month's theme. */
  lemma {:induction false} FlatThemesOfMonths<T>(plan: Dict<MonthPlan<T>>, n: nat)
    requires Keys(plan) == MonthKeys(n)
    ensures MonthKeyed(plan)
    ensures FlatThemes(plan) == ThemeEntries(plan)
    decreases n
  {
    MonthKeysRead(plan, n);
    if n > 0 {
      var prefix := plan[..n - 1];
      assert Keys(prefix) == MonthKeys(n - 1) by {
        assert forall i :: 0 <= i < n - 1 ==> Keys(prefix)[i] == Keys(plan)[i];
      }
      FlatThemesOfMonths(prefix, n - 1);
      var before := FlatThemes(prefix);
      var key := MonthKey(n);
      MonthKeysExclude(n, n - 1);
      assert ParseMonthKey(plan[n - 1].0) == Some(n);
      SetNewKey(before, key, plan[n - 1].1.theme);
    }
  }

  function RowMonth<T>(row: PlanRow<T>): int {
    row.month
  }

  // Ordering by month

  /** Rows ordered by the month the key function reads off them. */
  predicate SortedBy<R>(rows: seq<R>, month: R -> int) {
    forall i, j :: 0 <= i < j < |rows| ==> month(rows[i]) <= month(rows[j])
  }

  /** Inserts a row before the first row of a later month. */
  function InsertByMonth<R>(x: R, rows: seq<R>, month: R -> int): (r: seq<R>)
    ensures |r| == |rows| + 1
    ensures multiset(r) == multiset(rows) + multiset{x}
    decreases |rows|
  {
    if rows == [] || month(x) <= month(rows[0]) then [x] + rows
    else
      assert rows == [rows[0]] + rows[1..];
      [rows[0]] + InsertByMonth(x, rows[1..], month)
  }

  /** A bound below the inserted row and below every row is below every row after
      the insertion. */
  lemma {:induction false} InsertLowerBound<R>(x: R, rows: seq<R>, month: R -> int, b: int)
    requires b <= month(x)
    requires forall i :: 0 <= i < |rows| ==> b <= month(rows[i])
    ensures forall i :: 0 <= i < |rows| + 1 ==> b <= month(InsertByMonth(x, rows, month)[i])
    decreases |rows|
  {
    if rows != [] && month(x) > month(rows[0]) {
      InsertLowerBound(x, rows[1..], month, b);
    }
  }

  /** Inserting into ordered rows keeps them ordered. */
  lemma {:induction false} InsertSorted<R>(x: R, rows: seq<R>, month: R -> int)
    requires SortedBy(rows, month)
    ensures SortedBy(InsertByMonth(x, rows, month), month)
    decreases |rows|
  {
    if rows != [] && month(x) > month(rows[0]) {
      var tail := rows[1..];
      InsertSorted(x, tail, month);
      InsertLowerBound(x, tail, month, month(rows[0]));
    }
  }

  /** The rows ordered by month. */
  function SortByMonth<R>(rows: seq<R>, month: R -> int): (r: seq<R>)
    ensures SortedBy(r, month)
    ensures multiset(r) == multiset(rows)
    ensures |r| == |rows|
    decreases |rows|
  {
    if rows == [] then []
    else
      assert rows == [rows[0]] + rows[1..];
      var sortedTail := SortByMonth(rows[1..], month);
      InsertSorted(rows[0], sortedTail, month);
      InsertByMonth(rows[0], sortedTail, month)
  }

  // The frames

  /** What the end of `generate_plan` gives: the theme frame and the task frame, or
      the `KeyError` of sorting a task frame built from no records, which has no
      "month" column. */
  datatype FrameResult<T> =
    | MonthColumnMissing
    | Frames(themes: Dict<string>, rows: seq<PlanRow<T>>)

  /** The frames of a finished plan: a plan without any task raises; otherwise the
      themes are those of the plan and the rows are its task rows, one per task,
      rearranged into month order. Which of the rows of one month comes first is
      left open, as the sort does not keep their order. */
  ghost predicate FramesOf<T>(plan: Dict<MonthPlan<T>>, out: FrameResult<T>)
    requires MonthKeyed(plan)
  {
    && (out.MonthColumnMissing? <==> TaskCount(plan) == 0)
    && (out.Frames? ==>
          && out.themes == FlatThemes(plan)
          && SortedBy(out.rows, RowMonth)
          && multiset(out.rows) == multiset(FlatRows(plan))
          && |out.rows| == TaskCount(plan))
  }

  /** Flattening the finished plan and sorting the task rows by month. */
  method BuildFrames<T>(plan: Dict<MonthPlan<T>>) returns (out: FrameResult<T>)
    requires MonthKeyed(plan)
    ensures FramesOf(plan, out)
  {
    var themes, rows := Flatten(plan);
    FlatRowsCount(plan);
    if rows == [] {
      return MonthColumnMissing;
    }
    out := Frames(themes, SortByMonth(rows, RowMonth));
  }
}

/** The career-plan page: it fetches the theme row and the task rows of a user,
    groups the task outlines by month, builds one tab per "month_" theme key, and
    shows the selected month's theme and tasks. The two queries are parameters
    saying how each ended. */
module PlanDisplay {
  import opened Common
  import opened Text
  import opened PlanDict

  /** One row of the task-outline table. */
  datatype TaskRow = TaskRow(month: int, outline: string)

  /** The months that occur in the rows. */
  function MonthSet(rows: seq<TaskRow>): set<int> {
    set j | 0 <= j < |rows| :: rows[j].month
  }

  /** The reference grouping: the outlines of the rows of one month, in row order.
      It is empty exactly when no row has that month. */
  function Outlines(rows: seq<TaskRow>, m: int): (r: seq<string>)
    ensures r == [] <==> m !in MonthSet(rows)
    ensures |r| <= |rows|
    decreases |rows|
  {
    if rows == [] then []
    else
      var prefix := rows[..|rows| - 1];
      var last := rows[|rows| - 1];
      assert MonthSet(rows) == MonthSet(prefix) + {last.month} by {
        assert forall j :: 0 <= j < |prefix| ==> prefix[j] == rows[j];
      }
      Outlines(prefix, m) + (if last.month == m then [last.outline] else [])
  }

  /** A month-to-outlines map that holds exactly the months of the rows, each with
      its outlines in row order. */
  ghost predicate GroupsOf(acc: map<int, seq<string>>, rows: seq<TaskRow>) {
    forall m :: (m in acc <==> m in MonthSet(rows)) && (m in acc ==> acc[m] == Outlines(rows, m))
  }

  /** The `reduce` over the task rows: each outline is pushed onto the list of its
      month, which is created on the month's first row. */
  method GroupByMonth(rows: seq<TaskRow>) returns (acc: map<int, seq<string>>)
    ensures GroupsOf(acc, rows)
  {
    acc := map[];
    for i := 0 to |rows|
      invariant GroupsOf(acc, rows[..i])
    {
      var task := rows[i];
      assert rows[..i + 1][..i] == rows[..i];
      assert MonthSet(rows[..i + 1]) == MonthSet(rows[..i]) + {task.month} by {
        assert forall j :: 0 <= j < i ==> rows[..i + 1][j] == rows[..i][j];
        assert rows[..i + 1][i] == task;
      }
      if task.month !in acc {
        acc := acc[task.month := []];
      }
      acc := acc[task.month := acc[task.month] + [task.outline]];
    }
    assert rows[..|rows|] == rows;
  }

  // Every row lands in exactly one list.

  /** The number of outlines listed under the months `ms`. */
  function ListedCount(rows: seq<TaskRow>, ms: seq<int>): nat {
    if ms == [] then 0 else |Outlines(rows, ms[0])| + ListedCount(rows, ms[1..])
  }

  /** How many times `m` occurs in `ms`. */
  function Occurrences(ms: seq<int>, m: int): nat {
    if ms == [] then 0 else (if ms[0] == m then 1 else 0) + Occurrences(ms[1..], m)
  }

  predicate Distinct(ms: seq<int>) {
    forall i, j :: 0 <= i < j < |ms| ==> ms[i] != ms[j]
  }

  lemma {:induction false} OccursOnce(ms: seq<int>, m: int)
    requires Distinct(ms) && m in ms
    ensures Occurrences(ms, m) == 1
  {
    if ms[0] == m {
      OccursNot(ms[1..], m);
    } else {
      OccursOnce(ms[1..], m);
    }
  }

  lemma {:induction false} OccursNot(ms: seq<int>, m: int)
    requires m !in ms
    ensures Occurrences(ms, m) == 0
  {
    if ms != [] {
      OccursNot(ms[1..], m);
    }
  }

  /** One more row adds one outline under each occurrence of its month. */
  lemma {:induction false} ListedCountStep(rows: seq<TaskRow>, row: TaskRow, ms: seq<int>)
    ensures ListedCount(rows + [row], ms) == ListedCount(rows, ms) + Occurrences(ms, row.month)
  {
    if ms != [] {
      var all := rows + [row];
      assert all[..|all| - 1] == rows;
      ListedCountStep(rows, row, ms[1..]);
    }
  }

  /** Listed under all their months, each month once, the lists hold as many
      outlines as there are rows: no row is lost or listed twice. */
  lemma {:induction false} GroupingKeepsEveryRow(rows: seq<TaskRow>, ms: seq<int>)
    requires Distinct(ms)
    requires forall j :: 0 <= j < |rows| ==> rows[j].month in ms
    ensures ListedCount(rows, ms) == |rows|
    decreases |rows|
  {
    if rows == [] {
      ListedCountEmpty(ms);
    } else {
      var prefix := rows[..|rows| - 1];
      var last := rows[|rows| - 1];
      assert rows == prefix + [last];
      GroupingKeepsEveryRow(prefix, ms);
      ListedCountStep(prefix, last, ms);
      OccursOnce(ms, last.month);
    }
  }

  lemma {:induction false} ListedCountEmpty(ms: seq<int>)
    ensures ListedCount([], ms) == 0
  {
    if ms != [] {
      ListedCountEmpty(ms[1..]);
    }
  }

  // Tabs and the selected month

  /** The theme keys that get a tab: those starting with "month_", in key order. */
  function TabKeys(keys: seq<string>): (tabs: seq<string>)
    ensures forall k :: k in tabs <==> k in keys && StartsWith(k, MonthPrefix)
    ensures |tabs| <= |keys|
  {
    if keys == [] then []
    else (if StartsWith(keys[0], MonthPrefix) then [keys[0]] else []) + TabKeys(keys[1..])
  }

  /** A tab: the theme key it was built from and the month number it selects. */
  datatype Tab = Tab(key: string, month: nat)

  /** One tab per month key, labelled and selecting 1, 2, … in key order. */
  function MonthTabs(keys: seq<string>): (tabs: seq<Tab>)
    ensures |tabs| == |TabKeys(keys)|
    ensures forall i :: 0 <= i < |tabs| ==> tabs[i] == Tab(TabKeys(keys)[i], i + 1)
  {
    var t := TabKeys(keys);
    seq(|t|, i requires 0 <= i < |t| => Tab(t[i], i + 1))
  }

  lemma {:induction false} TabKeysAppend(a: seq<string>, b: seq<string>)
    ensures TabKeys(a + b) == TabKeys(a) + TabKeys(b)
  {
    if a == [] {
      assert a + b == b;
    } else {
      assert (a + b)[0] == a[0];
      assert (a + b)[1..] == a[1..] + b;
      TabKeysAppend(a[1..], b);
    }
  }

  lemma {:induction false} NoTabKeys(keys: seq<string>)
    requires forall k :: k in keys ==> !StartsWith(k, MonthPrefix)
    ensures TabKeys(keys) == []
  {
    if keys != [] {
      NoTabKeys(keys[1..]);
    }
  }

  lemma {:induction false} TabKeysOfMonthKeys(n: nat)
    ensures TabKeys(MonthKeys(n)) == MonthKeys(n)
  {
    if n > 0 {
      TabKeysOfMonthKeys(n - 1);
      TabKeysAppend(MonthKeys(n - 1), [MonthKey(n)]);
      assert TabKeys([MonthKey(n)]) == [MonthKey(n)] by {
        assert StartsWith(MonthKey(n), MonthPrefix);
      }
    }
  }

  /** For a theme row whose other columns come first and whose month columns are
      "month_1" to "month_n" in order, tab i is labelled i and built from
      "month_i", so selecting it shows that month's theme. */
  lemma TabsOfThemeRow(others: seq<string>, n: nat)
    requires forall k :: k in others ==> !StartsWith(k, MonthPrefix)
    ensures var tabs := MonthTabs(others + MonthKeys(n));
      |tabs| == n && forall i :: 0 <= i < n ==> tabs[i] == Tab(MonthKey(i + 1), i + 1)
  {
    TabKeysAppend(others, MonthKeys(n));
    TabKeysOfMonthKeys(n);
    NoTabKeys(others);
    assert TabKeys(others + MonthKeys(n)) == MonthKeys(n);
  }

  /** `obj[key]` on the theme row: the value, or `None` for `undefined`. */
  function Lookup(d: Dict<string>, key: string): (v: Option<string>)
    ensures v.Some? <==> key in Keys(d)
    ensures v.Some? ==> exists i :: 0 <= i < |d| && d[i] == (key, v.value)
    ensures v.Some? ==> v.value == d[IndexOf(d, key)].1
  {
    if key in Keys(d) then Some(d[IndexOf(d, key)].1) else None
  }

  /** `tasks[month]?.map(…)`: the month's list, or nothing when the month has no key. */
  function TasksFor(tasks: map<int, seq<string>>, month: int): (shown: seq<string>)
    ensures month !in tasks ==> shown == []
    ensures month in tasks ==> shown == tasks[month]
  {
    if month in tasks then tasks[month] else []
  }

  class PlanDisplayView {
    var themes: Dict<string>
    var tasks: map<int, seq<string>>
    var loading: bool
    var error: Option<string>
    var selectedMonth: nat

    /** The first render: nothing loaded, loading, month 1 selected. */
    constructor ()
      ensures themes == [] && tasks == map[] && loading && error == None && selectedMonth == 1
    {
      themes := [];
      tasks := map[];
      loading := true;
      error := None;
      selectedMonth := 1;
    }

    /** `fetchPlanData`: a failed theme query sets the error and the task query is
        never made; a failed task query sets the error and leaves themes and tasks
        alone; otherwise the theme row and the grouped tasks are stored. Loading
        ends in every case. */
    method FetchPlanData(themeResult: Result<Dict<string>>, taskResult: Result<seq<TaskRow>>)
      returns (tasksQueried: bool)
      modifies this
      ensures !loading && selectedMonth == old(selectedMonth)
      ensures tasksQueried <==> themeResult.Ok?
      ensures themeResult.Err? ==>
        error == Some(themeResult.message) && themes == old(themes) && tasks == old(tasks)
      ensures themeResult.Ok? && taskResult.Err? ==>
        error == Some(taskResult.message) && themes == old(themes) && tasks == old(tasks)
      ensures themeResult.Ok? && taskResult.Ok? ==>
        && error == old(error) && themes == themeResult.value
        && GroupsOf(tasks, taskResult.value)
        && forall m :: TasksFor(tasks, m) == Outlines(taskResult.value, m)
    {
      loading := true;
      tasksQueried := false;
      if themeResult.Err? {
        error := Some(themeResult.message);
      } else {
        tasksQueried := true;
        if taskResult.Err? {
          error := Some(taskResult.message);
        } else {
          themes := themeResult.value;
          var grouped := GroupByMonth(taskResult.value);
          tasks := grouped;
        }
      }
      loading := false;
    }

    /** A tab click. */
    method SelectMonth(month: nat)
      modifies this
      ensures selectedMonth == month
      ensures themes == old(themes) && tasks == old(tasks)
      ensures loading == old(loading) && error == old(error)
    {
      selectedMonth := month;
    }

    /** The selected month's theme, `themes[`month_${selectedMonth}`]`. */
    function ShownTheme(): (theme: Option<string>)
      reads this
      ensures theme.Some? <==> MonthKey(selectedMonth) in Keys(themes)
      ensures theme.Some? ==> exists i :: 0 <= i < |themes| && themes[i] == (MonthKey(selectedMonth), theme.value)
      ensures theme.Some? ==> theme.value == themes[IndexOf(themes, MonthKey(selectedMonth))].1
    {
      Lookup(themes, MonthKey(selectedMonth))
    }

    /** The selected month's task list; empty for a month without tasks. */
    function ShownTasks(): (shown: seq<string>)
      reads this
      ensures selectedMonth !in tasks ==> shown == []
      ensures selectedMonth in tasks ==> shown == tasks[selectedMonth]
    {
      TasksFor(tasks, selectedMonth)
    }
  }
}

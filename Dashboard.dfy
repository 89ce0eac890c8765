/** The overview page (src/components/Dashboard.tsx): the five summary figures computed
    from the collections, the "completed/total" label, and the three short lists (recent
    tasks, recent expenses, the sleep-quality trend). The page holds no state; each
    figure is a function of the collections and of the current calendar day. */
module Dashboard {
  import opened Types
  import opened Seqs
  import opened Text
  import TodoList
  import PomodoroTimer
  import SleepTracker
  import ExpenseTracker
  import MedicineTracker

  /** The figures on the five summary cards, before formatting. */
  datatype Summary = Summary(
    completedTasks: nat,
    totalTasks: nat,
    todaySessions: nat,
    lastSleep: Option<SleepRecord>,
    totalUnpaid: int,
    activeMedicines: nat)

  /** The summary figures: how many tasks are completed out of how many, how many
      sessions were completed on `today`, the last sleep record if there is one, the sum
      of the unpaid amounts and how many medicines are active. Each count is the number
      of positions that satisfy its condition, and each figure is tied to its complement
      on the tracker page. */
  function Summarize(
    tasks: seq<Task>,
    sessions: seq<PomodoroSession>,
    sleepRecords: seq<SleepRecord>,
    expenses: seq<Expense>,
    medicines: seq<Medicine>,
    today: int): (s: Summary)
    ensures s.totalTasks == |tasks| && s.completedTasks <= s.totalTasks
    ensures s.completedTasks == |Positions(tasks, TodoList.IsCompleted)|
    ensures s.completedTasks + |TodoList.PendingTasks(tasks)| == |tasks|
    ensures s.todaySessions <= |sessions|
    ensures s.todaySessions == |Positions(sessions, (x: PomodoroSession) => x.completedAt.day == today)|
    ensures s.todaySessions == PomodoroTimer.WorkSessions(sessions, today) + PomodoroTimer.BreakSessions(sessions, today)
    ensures s.lastSleep == None <==> sleepRecords == []
    ensures s.lastSleep != None ==> s.lastSleep.value == sleepRecords[|sleepRecords| - 1]
    ensures s.totalUnpaid == ExpenseTracker.TotalAmount(expenses) - ExpenseTracker.TotalPaid(expenses)
    ensures s.activeMedicines == |Positions(medicines, MedicineTracker.IsActive)|
    ensures s.activeMedicines + |MedicineTracker.InactiveMedicines(medicines)| == |medicines|
  {
    TodoList.CompletedPendingPartition(tasks);
    FilterCountsPositions(tasks, TodoList.IsCompleted);
    PomodoroTimer.WorkPlusBreakIsToday(sessions, today);
    FilterCountsPositions(sessions, (x: PomodoroSession) => x.completedAt.day == today);
    ExpenseTracker.PaidUnpaidPartition(expenses);
    MedicineTracker.ActiveInactivePartition(medicines);
    FilterCountsPositions(medicines, MedicineTracker.IsActive);
    Summary(
      |TodoList.CompletedTasks(tasks)|,
      |tasks|,
      |PomodoroTimer.TodaySessions(sessions, today)|,
      if sleepRecords == [] then None else Some(sleepRecords[|sleepRecords| - 1]),
      ExpenseTracker.TotalUnpaid(expenses),
      |MedicineTracker.ActiveMedicines(medicines)|)
  }

  /** Reads a "<a>/<b>" label back into its two numbers. */
  function ParseLabel(s: string): Option<(nat, nat)>
  {
    var (left, rest) := SplitDigits(s);
    if left == [] || rest == [] || rest[0] != '/' then None
    else
      var (right, tail) := SplitDigits(rest[1..]);
      if right == [] || tail != [] then None
      else Some((ParseNat(left), ParseNat(right)))
  }

  /** The "Tasks Completed" card: "<completed>/<total>". It shows both numbers: reading
      it back gives the completed count and the total, and neither is padded with zeros. */
  function CompletedLabel(completed: nat, total: nat): (r: string)
    ensures ParseLabel(r) == Some((completed, total))
    ensures |r| == |NatToString(completed)| + |NatToString(total)| + 1
  {
    var a, b := NatToString(completed), NatToString(total);
    SplitDigitsOf(a, "/" + b);
    assert ("/" + b)[1..] == b + [];
    SplitDigitsOf(b, []);
    assert b + [] == b;
    ParseNatToString(completed);
    ParseNatToString(total);
    a + ("/" + b)
  }

  /** "Recent Tasks": the first five tasks, in insertion order. */
  function RecentTasks(tasks: seq<Task>): (r: seq<Task>)
    ensures |r| == Min(5, |tasks|)
    ensures forall i :: 0 <= i < |r| ==> r[i] == tasks[i]
  {
    TakeFirst(tasks, 5)
  }

  /** "Recent Expenses": the last five expenses, newest first. */
  function RecentExpenses(expenses: seq<Expense>): (r: seq<Expense>)
    ensures |r| == Min(5, |expenses|)
    ensures forall i :: 0 <= i < |r| ==> r[i] == expenses[|expenses| - 1 - i]
  {
    Reverse(TakeLast(expenses, 5))
  }

  /** One dot of the sleep-quality trend. */
  datatype TrendPoint = TrendPoint(record: SleepRecord, tier: SleepTracker.Tier)

  /** "Sleep Quality Trend": the last seven records in the order they were logged, each
      with its colour tier (good from four, fair at three, poor below). */
  function SleepTrend(records: seq<SleepRecord>): (r: seq<TrendPoint>)
    ensures |r| == Min(7, |records|)
    ensures forall i :: 0 <= i < |r| ==> r[i].record == records[|records| - |r| + i]
    ensures forall i :: 0 <= i < |r| ==>
      (r[i].tier == SleepTracker.Good <==> r[i].record.quality >= 4) &&
      (r[i].tier == SleepTracker.Fair <==> r[i].record.quality == 3) &&
      (r[i].tier == SleepTracker.Poor <==> r[i].record.quality <= 2)
  {
    var last := TakeLast(records, 7);
    seq(|last|, i requires 0 <= i < |last| => TrendPoint(last[i], SleepTracker.QualityTier(last[i].quality)))
  }

  /** Logging one more night moves the trend window by one: it ends with the new record
      and, once full, drops the oldest. */
  lemma {:induction false} SleepTrendSlides(records: seq<SleepRecord>, rec: SleepRecord)
    ensures var t, t' := SleepTrend(records), SleepTrend(records + [rec]);
      t'[|t'| - 1].record == rec &&
      (|records| < 7 ==> t'[..|t'| - 1] == t) &&
      (|records| >= 7 ==> t'[..|t'| - 1] == t[1..])
  {
    var t, t' := SleepTrend(records), SleepTrend(records + [rec]);
    var s := records + [rec];
    if |records| < 7 {
      assert |t'| == |t| + 1;
      forall i | 0 <= i < |t|
        ensures t'[i] == t[i]
      {
        assert t'[i].record == s[i] == records[i] == t[i].record;
      }
    } else {
      assert |t'| == |t| == 7;
      forall i | 0 <= i < 6
        ensures t'[i] == t[i + 1]
      {
        assert t'[i].record == s[|s| - 7 + i] == records[|records| - 7 + i + 1] == t[i + 1].record;
      }
    }
  }
}

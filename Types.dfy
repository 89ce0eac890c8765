/** The record shapes of the dashboard (src/types/index.ts). Every record carries a
    string id; the optional fields of the TypeScript interfaces are `Option`s; the
    string unions become datatypes and the quality scale a subset type. Money is in
    integer cents, times of day in minutes since midnight, and an instant is a local
    calendar day together with the milliseconds elapsed in it. */
module Types {

  datatype Option<T> = None | Some(value: T)

  /** A point in time: the local calendar day (as a day number) and the milliseconds into it. */
  datatype Instant = Instant(day: int, millis: nat)

  /** A time of day, in minutes since midnight. */
  type MinuteOfDay = m: int | 0 <= m < 1440

  datatype Priority = Low | Medium | High

  datatype Task = Task(
    id: string,
    title: string,
    description: Option<string>,
    completed: bool,
    priority: Priority,
    dueDate: Option<string>,
    createdAt: Instant)

  datatype SessionType = Work | ShortBreak | LongBreak

  datatype PomodoroSession = PomodoroSession(
    id: string,
    sessionType: SessionType,
    duration: nat,   // seconds
    completedAt: Instant)

  /** The quality of a night's sleep, `1 | 2 | 3 | 4 | 5`. */
  type Quality = q: int | 1 <= q <= 5 witness 3

  datatype SleepRecord = SleepRecord(
    id: string,
    date: string,
    bedtime: MinuteOfDay,
    wakeTime: MinuteOfDay,
    duration: int,   // minutes
    quality: Quality,
    notes: Option<string>)

  datatype Expense = Expense(
    id: string,
    title: string,
    amount: int,     // cents
    category: string,
    isPaid: bool,
    date: Instant,
    description: Option<string>)

  datatype ExpenseCategory = ExpenseCategory(id: string, name: string, color: string)

  datatype Timing = BeforeMeal | AfterMeal | WithMeal

  datatype Medicine = Medicine(
    id: string,
    name: string,
    dosage: string,
    timing: Timing,
    frequency: string,
    notes: Option<string>,
    isActive: bool)

  /** The string a `Priority` stands for in the TypeScript union. */
  function PriorityName(p: Priority): string
  {
    match p
    case Low => "low"
    case Medium => "medium"
    case High => "high"
  }

  /** The string a `Timing` stands for in the TypeScript union. */
  function TimingName(t: Timing): string
  {
    match t
    case BeforeMeal => "before-meal"
    case AfterMeal => "after-meal"
    case WithMeal => "with-meal"
  }

  /** `text || undefined`: an empty form field becomes an absent optional field. */
  function Optional(text: string): (r: Option<string>)
    ensures r == None <==> text == ""
    ensures r != None ==> r.value == text
  {
    if text == "" then None else Some(text)
  }
}

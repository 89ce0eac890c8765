/** The Pomodoro timer (src/components/PomodoroTimer.tsx): a countdown over the current
    session type that, on reaching zero, records the finished session and moves on to
    the next type, a long break after every fourth work session.

    The component's four pieces of React state, together with the sessions collection it
    appends to, are the fields of class `Timer`. Each of its methods is specified by a
    pure transition on `TimerState` (`AfterTick`, `AfterToggle`, ...), and the lemmas
    below state what the component promises about those transitions. The one-second
    `setInterval` driver becomes the explicit method `Timer.Tick`; the id and the
    completion instant that the source takes from the clock are parameters. */
module PomodoroTimer {
  import opened Types
  import opened Seqs
  import opened Text

  /** `sessionTimes`: the fixed length of each session type, in seconds. Every length is
      a positive whole number of five-minute blocks, and a work session is the longest. */
  function Duration(t: SessionType): (d: nat)
    ensures 0 < d <= 25 * 60 && d % (5 * 60) == 0
    ensures t == Work <==> d == 25 * 60
  {
    match t
    case Work => 25 * 60
    case ShortBreak => 5 * 60
    case LongBreak => 15 * 60
  }

  /** The type that follows a finished work session, computed as the source does from
      the number of work sessions completed BEFORE it. */
  function NextAfterWork(completedBefore: nat): SessionType
  {
    if completedBefore > 0 && (completedBefore + 1) % 4 == 0 then LongBreak else ShortBreak
  }

  /** A long break comes exactly when the new number of completed work sessions is a
      multiple of four (and it is positive, being at least one). */
  lemma LongBreakEveryFourth(completedBefore: nat)
    ensures NextAfterWork(completedBefore) == LongBreak <==> (completedBefore + 1) % 4 == 0
    ensures NextAfterWork(completedBefore) != Work
  {
  }

  /** The component's state: the four `useState` values and the sessions collection. */
  datatype TimerState = TimerState(
    timeLeft: int,
    isActive: bool,
    sessionType: SessionType,
    completedSessions: nat,
    sessions: seq<PomodoroSession>)

  /** The countdown stays between zero and the length of the current session type. */
  predicate Invariant(s: TimerState)
  {
    0 <= s.timeLeft <= Duration(s.sessionType)
  }

  /** The state on mounting: a paused, full-length work session and no completions yet. */
  function Initial(sessions: seq<PomodoroSession>): TimerState
  {
    TimerState(25 * 60, false, Work, 0, sessions)
  }

  /** The completion branch: record the finished session, pause, and move to the next type. */
  function Completed(s: TimerState, id: string, now: Instant): TimerState
    requires s.timeLeft == 0
  {
    var session := PomodoroSession(id, s.sessionType, Duration(s.sessionType), now);
    var next := if s.sessionType == Work then NextAfterWork(s.completedSessions) else Work;
    TimerState(
      Duration(next),
      false,
      next,
      if s.sessionType == Work then s.completedSessions + 1 else s.completedSessions,
      s.sessions + [session])
  }

  /** One run of the effect: a second elapses while the countdown runs, or the
      completion branch fires once it has reached zero; otherwise nothing happens. */
  function AfterTick(s: TimerState, id: string, now: Instant): TimerState
  {
    if s.isActive && s.timeLeft > 0 then s.(timeLeft := s.timeLeft - 1)
    else if s.timeLeft == 0 then Completed(s, id, now)
    else s
  }

  /** `toggleTimer`. */
  function AfterToggle(s: TimerState): TimerState
  {
    s.(isActive := !s.isActive)
  }

  /** `resetTimer`. */
  function AfterReset(s: TimerState): TimerState
  {
    s.(isActive := false, timeLeft := Duration(s.sessionType))
  }

  /** `switchSession(t)`. */
  function AfterSwitch(s: TimerState, t: SessionType): TimerState
  {
    s.(sessionType := t, timeLeft := Duration(t), isActive := false)
  }

  /** `n` runs of the effect with the same id and instant supplied each time. */
  function Run(s: TimerState, n: nat, id: string, now: Instant): TimerState
  {
    if n == 0 then s else AfterTick(Run(s, n - 1, id, now), id, now)
  }

  // ---------------------------------------------------------------------------------
  // What the transitions promise

  /** The initial state: a paused work session of 1500 seconds with no completions. */
  lemma InitialState(sessions: seq<PomodoroSession>)
    ensures var s := Initial(sessions);
      Invariant(s) && s.sessionType == Work && s.timeLeft == 1500 && !s.isActive &&
      s.completedSessions == 0 && s.sessions == sessions
    ensures Duration(Work) == 1500 && Duration(ShortBreak) == 300 && Duration(LongBreak) == 900
  {
  }

  /** Every transition keeps the countdown within the current session's length, so it
      never goes negative. */
  lemma TransitionsKeepInvariant(s: TimerState, id: string, now: Instant, t: SessionType)
    requires Invariant(s)
    ensures Invariant(AfterTick(s, id, now))
    ensures Invariant(AfterToggle(s))
    ensures Invariant(AfterReset(s))
    ensures Invariant(AfterSwitch(s, t))
  {
  }

  /** A running, unfinished countdown loses exactly one second and nothing else changes. */
  lemma TickCountsDown(s: TimerState, id: string, now: Instant)
    requires s.isActive && s.timeLeft > 0
    ensures AfterTick(s, id, now).timeLeft == s.timeLeft - 1 >= 0
    ensures AfterTick(s, id, now) == s.(timeLeft := s.timeLeft - 1)
  {
  }

  /** While paused with time left, a tick has no effect at all. */
  lemma PausedTickIsNoop(s: TimerState, id: string, now: Instant)
    requires !s.isActive && s.timeLeft > 0
    ensures AfterTick(s, id, now) == s
  {
  }

  /** Reaching zero records exactly one session, of the current type and its full length,
      keeps the earlier sessions as an unchanged prefix, and pauses the timer. */
  lemma CompletionRecordsOneSession(s: TimerState, id: string, now: Instant)
    requires s.timeLeft == 0
    ensures var r := AfterTick(s, id, now);
      |r.sessions| == |s.sessions| + 1 &&
      r.sessions[..|s.sessions|] == s.sessions &&
      r.sessions[|s.sessions|] == PomodoroSession(id, s.sessionType, Duration(s.sessionType), now) &&
      !r.isActive
  {
    var r := AfterTick(s, id, now);
    assert r.sessions == s.sessions + [PomodoroSession(id, s.sessionType, Duration(s.sessionType), now)];
  }

  /** Finishing a work session counts it, and goes on to a long break when the new count
      is a multiple of four, to a short break otherwise, with the full length of that break. */
  lemma CompletingWork(s: TimerState, id: string, now: Instant)
    requires s.timeLeft == 0 && s.sessionType == Work
    ensures var r := AfterTick(s, id, now);
      r.completedSessions == s.completedSessions + 1 &&
      (r.sessionType == LongBreak <==> r.completedSessions % 4 == 0) &&
      (r.sessionType == ShortBreak <==> r.completedSessions % 4 != 0) &&
      r.timeLeft == Duration(r.sessionType)
  {
    LongBreakEveryFourth(s.completedSessions);
  }

  /** Finishing a break returns to a full work session and leaves the count alone. */
  lemma CompletingBreak(s: TimerState, id: string, now: Instant)
    requires s.timeLeft == 0 && s.sessionType != Work
    ensures var r := AfterTick(s, id, now);
      r.sessionType == Work && r.timeLeft == 1500 && r.completedSessions == s.completedSessions
  {
  }

  /** After a completion time is left again, so the next run of the effect cannot
      complete a second time: it records nothing. */
  lemma CompletionFiresOnce(s: TimerState, id: string, now: Instant, id': string, now': Instant)
    requires s.timeLeft == 0
    ensures AfterTick(s, id, now).timeLeft > 0
    ensures AfterTick(AfterTick(s, id, now), id', now').sessions == AfterTick(s, id, now).sessions
  {
  }

  /** `switchSession(t)`: the chosen type at its full length, paused; no session is
      recorded and the count is untouched. */
  lemma SwitchSetsType(s: TimerState, t: SessionType)
    ensures var r := AfterSwitch(s, t);
      r.sessionType == t && r.timeLeft == Duration(t) && !r.isActive &&
      r.sessions == s.sessions && r.completedSessions == s.completedSessions
  {
  }

  /** `resetTimer` pauses and refills the current type; `toggleTimer` flips only the run
      flag, so toggling twice changes nothing. */
  lemma ResetAndToggle(s: TimerState)
    ensures var r := AfterReset(s);
      !r.isActive && r.timeLeft == Duration(s.sessionType) && r.sessionType == s.sessionType &&
      r.sessions == s.sessions && r.completedSessions == s.completedSessions
    ensures AfterToggle(s).isActive == !s.isActive
    ensures AfterToggle(s).(isActive := s.isActive) == s
    ensures AfterToggle(AfterToggle(s)) == s
  {
  }

  /** While running, `k` ticks take exactly `k` seconds off and record nothing. */
  lemma {:induction false} CountDown(s: TimerState, k: nat, id: string, now: Instant)
    requires s.isActive && k <= s.timeLeft
    ensures Run(s, k, id, now) == s.(timeLeft := s.timeLeft - k)
    decreases k
  {
    if k > 0 {
      CountDown(s, k - 1, id, now);
    }
  }

  /** A full work session: started at 1500 seconds, 1501 runs of the effect (1500 ticks
      and the completion) record exactly one work session of 1500 seconds and move on
      to the break the count calls for. */
  lemma FullWorkSession(s: TimerState, id: string, now: Instant)
    requires s.sessionType == Work && s.timeLeft == 1500 && s.isActive
    ensures var r := Run(s, 1501, id, now);
      r.sessions == s.sessions + [PomodoroSession(id, Work, 1500, now)] &&
      r.completedSessions == s.completedSessions + 1 &&
      r.sessionType == (if r.completedSessions % 4 == 0 then LongBreak else ShortBreak) &&
      r.timeLeft == Duration(r.sessionType) && !r.isActive
  {
    CountDown(s, 1500, id, now);
    LongBreakEveryFourth(s.completedSessions);
  }

  // ---------------------------------------------------------------------------------
  // The component

  class Timer {
    var timeLeft: int
    var isActive: bool
    var sessionType: SessionType
    var completedSessions: nat
    /** The sessions collection the component appends to through `onSessionsChange`. */
    var sessions: seq<PomodoroSession>

    function State(): TimerState
      reads this
    {
      TimerState(timeLeft, isActive, sessionType, completedSessions, sessions)
    }

    ghost predicate Valid()
      reads this
    {
      Invariant(State())
    }

    constructor (sessions: seq<PomodoroSession>)
      ensures Valid() && State() == Initial(sessions)
      ensures timeLeft == 1500 && !isActive && sessionType == Work && completedSessions == 0
    {
      this.timeLeft := 25 * 60;
      this.isActive := false;
      this.sessionType := Work;
      this.completedSessions := 0;
      this.sessions := sessions;
    }

    /** One run of the `useEffect` body. */
    method Tick(id: string, now: Instant)
      requires Valid()
      modifies this
      ensures Valid() && State() == AfterTick(old(State()), id, now)
    {
      if isActive && timeLeft > 0 {
        timeLeft := timeLeft - 1;
      } else if timeLeft == 0 {
        CompleteSession(id, now);
      }
    }

    /** The completion branch of the effect, entered when the countdown is at zero. */
    method CompleteSession(id: string, now: Instant)
      requires Valid() && timeLeft == 0
      modifies this
      ensures Valid() && State() == Completed(old(State()), id, now)
    {
      var session := PomodoroSession(id, sessionType, Duration(sessionType), now);
      sessions := sessions + [session];
      isActive := false;
      if sessionType == Work {
        var nextType := NextAfterWork(completedSessions);
        completedSessions := completedSessions + 1;
        sessionType := nextType;
        timeLeft := Duration(nextType);
      } else {
        sessionType := Work;
        timeLeft := Duration(Work);
      }
    }

    method ToggleTimer()
      requires Valid()
      modifies this
      ensures Valid() && State() == AfterToggle(old(State()))
    {
      isActive := !isActive;
    }

    method ResetTimer()
      requires Valid()
      modifies this
      ensures Valid() && State() == AfterReset(old(State()))
    {
      isActive := false;
      timeLeft := Duration(sessionType);
    }

    method SwitchSession(t: SessionType)
      requires Valid()
      modifies this
      ensures Valid() && State() == AfterSwitch(old(State()), t)
    {
      sessionType := t;
      timeLeft := Duration(t);
      isActive := false;
    }
  }

  // ---------------------------------------------------------------------------------
  // Display and statistics

  /** `formatTime(seconds)`: minutes and seconds, each padded to two digits. */
  function FormatTime(seconds: nat): (r: string)
    ensures seconds < 6000 ==>
      |r| == 5 && r[2] == ':' && AllDigits(r[..2]) && AllDigits(r[3..]) &&
      ParseNat(r[3..]) < 60 && ParseNat(r[..2]) * 60 + ParseNat(r[3..]) == seconds
  {
    var mins, secs := PadTwo(seconds / 60), PadTwo(seconds % 60);
    var r := mins + ":" + secs;
    assert seconds < 6000 ==> r[..2] == mins && r[3..] == secs;
    r
  }

  predicate IsWorkSession(s: PomodoroSession) { s.sessionType == Work }

  predicate IsBreakSession(s: PomodoroSession) { s.sessionType != Work }

  /** The sessions completed on the given calendar day. */
  function TodaySessions(sessions: seq<PomodoroSession>, today: int): (r: seq<PomodoroSession>)
    ensures |r| <= |sessions|
    ensures forall i :: 0 <= i < |r| ==> r[i] in sessions && r[i].completedAt.day == today
    ensures forall i :: 0 <= i < |sessions| && sessions[i].completedAt.day == today ==> sessions[i] in r
  {
    Filter(sessions, (s: PomodoroSession) => s.completedAt.day == today)
  }

  function WorkSessions(sessions: seq<PomodoroSession>, today: int): nat
  {
    |Filter(TodaySessions(sessions, today), IsWorkSession)|
  }

  function BreakSessions(sessions: seq<PomodoroSession>, today: int): nat
  {
    |Filter(TodaySessions(sessions, today), IsBreakSession)|
  }

  /** Every session of the day is a work session or a break, never both. */
  lemma WorkPlusBreakIsToday(sessions: seq<PomodoroSession>, today: int)
    ensures WorkSessions(sessions, today) + BreakSessions(sessions, today) == |TodaySessions(sessions, today)|
  {
    FilterComplement(TodaySessions(sessions, today), IsWorkSession, IsBreakSession);
  }

  /** "Total Focus": twenty-five minutes for each work session of the day, which is at
      most twenty-five minutes per session of the day. */
  function TotalFocus(sessions: seq<PomodoroSession>, today: int): (minutes: nat)
    ensures minutes % 25 == 0
    ensures minutes / 25 == WorkSessions(sessions, today)
    ensures minutes <= 25 * |TodaySessions(sessions, today)|
  {
    WorkPlusBreakIsToday(sessions, today);
    WorkSessions(sessions, today) * 25
  }

  /** "Recent Sessions": the last five of the day's sessions, newest first. */
  function RecentSessions(sessions: seq<PomodoroSession>, today: int): (r: seq<PomodoroSession>)
    ensures var t := TodaySessions(sessions, today);
      |r| == Min(5, |t|) && forall i :: 0 <= i < |r| ==> r[i] == t[|t| - 1 - i]
  {
    Reverse(TakeLast(TodaySessions(sessions, today), 5))
  }
}

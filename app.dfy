/** The habit grid: the day-status map fetched from the `study_logs` table,
    what clicking a day does, the optimistic unmark and completion updates,
    and the path from the timer's completion to the grid and the provider. */
module App {
  import opened Remote
  import opened Monetization
  import StudyTimer

  const Studied := "studied"

  /** One row of `study_logs`, as the grid selects it. */
  datatype LogRow = LogRow(dayIndex: int, status: string, year: int)

  /** The day-status map built from the rows: each row sets its day's status,
      so a later row for the same day wins. */
  function LogMap(rows: seq<LogRow>): (m: map<int, string>)
    ensures forall i :: 0 <= i < |rows| ==> rows[i].dayIndex in m
    ensures |m| <= |rows|
    ensures rows != [] ==> m[rows[|rows| - 1].dayIndex] == rows[|rows| - 1].status
  {
    if rows == [] then map[]
    else
      var last := rows[|rows| - 1];
      LogMap(rows[..|rows| - 1])[last.dayIndex := last.status]
  }

  /** The row `handleTimerComplete` inserts into `study_logs` for a completed
      day (the user and the year are left out). */
  datatype LogInsert = LogInsert(dayIndex: int, status: string, verified: bool)

  /** What one tick of the timer writes to `study_logs`: a completion, from
      either mode, inserts the day as studied and verified. */
  function TickInsert(s: StudyTimer.TimerState, verdict: Reply<bool>): (w: Option<LogInsert>)
    ensures w.Some? <==> StudyTimer.Ticked(s, verdict).1.Some? && StudyTimer.Ticked(s, verdict).1.value.Completed?
    ensures w.Some? ==> w.value.dayIndex == s.dayIndex && w.value.status == Studied && w.value.verified
  {
    match StudyTimer.Ticked(s, verdict).1
    case Some(Completed(d)) => Some(LogInsert(d, Studied, true))
    case _ => None
  }

  /** The messages of the information popover. */
  datatype Info =
    | HistoryIsWritten  // "History is written!" on a studied past day
    | YouMissedThisDay  // "You missed this day."

  /** What `handleDayClick(dayIndex)` does, given today's index. */
  datatype Click =
    | Ignored             // a future day
    | ShowInfo(info: Info)
    | ConfirmUnmark(day: int)
    | OpenTimer(day: int)

  function DayClick(day: int, today: int, data: map<int, string>): (c: Click)
    ensures c == Ignored <==> day > today
    ensures c.OpenTimer? ==> c.day == day == today && (day !in data || data[day] != Studied)
    ensures c.ConfirmUnmark? ==> c.day == day == today && day in data && data[day] == Studied
  {
    if day > today then Ignored
    else if day in data && data[day] == Studied then
      if day < today then ShowInfo(HistoryIsWritten) else ConfirmUnmark(day)
    else if day != today then ShowInfo(YouMissedThisDay)
    else OpenTimer(day)
  }

  /** The grid's own state, apart from the timer it renders. */
  datatype GridState = GridState(
    data: map<int, string>,
    loading: bool,
    selectedDay: Option<int>,
    unmarkDay: Option<int>,   // the unmark confirmation popover and the day it holds
    info: Option<Info>)       // the information popover

  /** The grid's part of a day click; opening the timer is the timer's part. */
  function AfterDayClick(g: GridState, day: int, today: int): (r: GridState)
    ensures r.data == g.data && r.loading == g.loading
    ensures r.selectedDay != g.selectedDay ==> r.selectedDay == Some(today)
    ensures r.unmarkDay != g.unmarkDay ==> r.unmarkDay == Some(today)
  {
    match DayClick(day, today, g.data)
    case Ignored => g
    case ShowInfo(i) => g.(info := Some(i))
    case ConfirmUnmark(d) => g.(unmarkDay := Some(d))
    case OpenTimer(d) => g.(selectedDay := Some(d))
  }

  // ---------------------------------------------------------------------------
  // Properties

  /** A day is in the map iff some row names it, and its status is that of the
      last row naming it. */
  lemma {:induction false} LogMapLastWins(rows: seq<LogRow>, d: int)
    ensures d in LogMap(rows) <==> exists i :: 0 <= i < |rows| && rows[i].dayIndex == d
    ensures forall i ::
      (0 <= i < |rows| && rows[i].dayIndex == d && (forall j :: i < j < |rows| ==> rows[j].dayIndex != d))
      ==> d in LogMap(rows) && LogMap(rows)[d] == rows[i].status
    decreases |rows|
  {
    if rows != [] {
      var front, last := rows[..|rows| - 1], rows[|rows| - 1];
      LogMapLastWins(front, d);
      if last.dayIndex != d {
        forall i | 0 <= i < |front| && front[i].dayIndex == d
          ensures rows[i].dayIndex == d
        {
        }
        if d in LogMap(rows) {
          var i :| 0 <= i < |front| && front[i].dayIndex == d;
          assert rows[i].dayIndex == d;
        }
        forall i | 0 <= i < |rows| && rows[i].dayIndex == d &&
            (forall j :: i < j < |rows| ==> rows[j].dayIndex != d)
          ensures d in LogMap(rows) && LogMap(rows)[d] == rows[i].status
        {
          assert i < |front| && front[i] == rows[i];
          assert forall j :: i < j < |front| ==> front[j].dayIndex != d by {
            forall j | i < j < |front| ensures front[j].dayIndex != d {
              assert front[j] == rows[j];
            }
          }
        }
      }
    }
  }

  /** A click on a future day does nothing; a studied past day only shows
      "History is written!"; a studied today asks to unmark that day; an
      unstudied day other than today shows "You missed this day."; and the
      timer opens exactly for today while it is not studied. */
  lemma DayClickCases(day: int, today: int, data: map<int, string>)
    ensures var studied := day in data && data[day] == Studied;
      && (DayClick(day, today, data) == Ignored <==> day > today)
      && (DayClick(day, today, data) == ShowInfo(HistoryIsWritten) <==> day < today && studied)
      && (DayClick(day, today, data) == ConfirmUnmark(day) <==> day == today && studied)
      && (DayClick(day, today, data) == ShowInfo(YouMissedThisDay) <==> day < today && !studied)
      && (DayClick(day, today, data).OpenTimer? <==> day == today && !studied)
      && (DayClick(day, today, data).OpenTimer? ==> DayClick(day, today, data).day == today)
  {
  }

  /** A research-mode session completes at its last tick with no call to the
      backend, so the verdict plays no part, and yet the day is inserted with
      `verified: true`. */
  lemma ResearchCompletionStoredAsVerified(s: StudyTimer.TimerState, verdict: Reply<bool>, other: Reply<bool>)
    requires s.isOpen && s.isRunning && s.timeLeft == 1 && s.isResearchMode
    ensures StudyTimer.CompleteCall(s.(timeLeft := 0)).None?
    ensures TickInsert(s, verdict) == Some(LogInsert(s.dayIndex, Studied, true))
    ensures TickInsert(s, verdict) == TickInsert(s, other)
  {
  }

  /** A day click never changes the statuses, so a studied past day can never
      be unmarked from the grid. */
  lemma DayClickKeepsData(g: GridState, day: int, today: int)
    ensures AfterDayClick(g, day, today).data == g.data
    ensures AfterDayClick(g, day, today).unmarkDay != g.unmarkDay ==>
      AfterDayClick(g, day, today).unmarkDay == Some(today)
  {
  }

  // ---------------------------------------------------------------------------
  // The component

  class AppContent {
    const provider: Provider
    const timer: StudyTimer.Timer

    var data: map<int, string>
    var loading: bool
    var selectedDay: Option<int>
    var unmarkDay: Option<int>
    var info: Option<Info>

    function View(): GridState
      reads this
    {
      GridState(data, loading, selectedDay, unmarkDay, info)
    }

    constructor (provider: Provider)
      ensures this.provider == provider && fresh(timer) && timer.Valid()
      ensures timer.State() == StudyTimer.Initial
      ensures View() == GridState(map[], true, None, None, None)
    {
      this.provider := provider;
      timer := new StudyTimer.Timer();
      data, loading := map[], true;
      selectedDay, unmarkDay, info := None, None, None;
    }

    /** The `forEach` that turns the fetched rows into the day-status map. */
    static method BuildLogMap(rows: seq<LogRow>) returns (m: map<int, string>)
      ensures m == LogMap(rows)
    {
      m := map[];
      var i := 0;
      while i < |rows|
        invariant 0 <= i <= |rows|
        invariant m == LogMap(rows[..i])
      {
        assert rows[..i + 1][..i] == rows[..i];
        m := m[rows[i].dayIndex := rows[i].status];
        i := i + 1;
      }
      assert rows[..|rows|] == rows;
    }

    /** `fetchLogs`, with the read's reply: on success the map is rebuilt from
        the rows, on error it is kept; loading ends either way. */
    method FetchLogs(reply: Reply<seq<LogRow>>)
      modifies this
      ensures View() == old(View()).(data := if reply.Ok? then LogMap(reply.data) else old(data),
                                     loading := false)
    {
      loading := true;
      if reply.Ok? {
        data := BuildLogMap(reply.data);
      }
      loading := false;
    }

    /** `handleDayClick(day)` when today's index is `today`. */
    method HandleDayClick(day: int, today: int)
      requires timer.Valid()
      modifies this, timer
      ensures timer.Valid()
      ensures View() == AfterDayClick(old(View()), day, today)
      ensures timer.State() == if DayClick(day, today, old(data)).OpenTimer?
                               then StudyTimer.AfterOpen(old(timer.State()), day)
                               else old(timer.State())
    {
      if day > today {
        return;
      }
      if day in data && data[day] == Studied {
        if day < today {
          info := Some(HistoryIsWritten);
          return;
        }
        unmarkDay := Some(day);
        return;
      }
      if day != today {
        info := Some(YouMissedThisDay);
        return;
      }
      selectedDay := Some(day);
      timer.Open(day);
    }

    /** `deleteLog(day)`: the day's entry is removed at once; if the delete
        fails, the logs are fetched again (with the reply `refetch`). */
    method DeleteLog(day: int, reply: Reply<()>, refetch: Reply<seq<LogRow>>)
      modifies this
      ensures reply.Ok? ==> View() == old(View()).(data := old(data) - {day})
      ensures reply.Error? ==>
        View() == old(View()).(data := if refetch.Ok? then LogMap(refetch.data) else old(data) - {day},
                               loading := false)
    {
      data := data - {day};
      if reply.Error? {
        FetchLogs(refetch);
      }
    }

    /** The unmark popover's confirm button: delete the held day and close. */
    method ConfirmUnmark(reply: Reply<()>, refetch: Reply<seq<LogRow>>)
      requires unmarkDay.Some?
      modifies this
      ensures var d := old(unmarkDay).value;
        View() == old(View()).(data := if reply.Error? && refetch.Ok? then LogMap(refetch.data) else old(data) - {d},
                               unmarkDay := None,
                               loading := if reply.Error? then false else old(loading))
    {
      DeleteLog(unmarkDay.value, reply, refetch);
      unmarkDay := None;
    }

    /** `handleTimerComplete(day)`: the day is marked studied at once, the
        log row is inserted as studied and verified whatever the insert's
        reply, and the provider is refreshed from the backend; XP and level
        change only through that refresh. */
    method HandleTimerComplete(day: int, insertReply: Reply<()>,
                               profile: Option<ProfileRow>, items: Option<seq<string>>)
      returns (insert: LogInsert)
      modifies this, provider
      ensures insert == LogInsert(day, Studied, true)
      ensures View() == old(View()).(data := old(data)[day := Studied])
      ensures provider.State() == Refreshed(old(provider.State()), provider.hasUser, profile, items)
      ensures provider.xp == if provider.hasUser && profile.Some? then OrInt(profile.value.expPoints, 0)
                             else old(provider.xp)
    {
      data := data[day := Studied];
      insert := LogInsert(day, Studied, true);
      provider.Refresh(profile, items);
    }

    /** One second of the timer's interval, with the completion call's reply;
        a completion is passed on to `HandleTimerComplete`. Any other outcome
        leaves the grid and the provider as they were. */
    method TimerTick(verdict: Reply<bool>, insertReply: Reply<()>,
                     profile: Option<ProfileRow>, items: Option<seq<string>>)
      returns (fired: Option<StudyTimer.Completion>, insert: Option<LogInsert>)
      requires timer.Valid()
      modifies this, timer, provider
      ensures timer.Valid()
      ensures insert == TickInsert(old(timer.State()), verdict)
      ensures (timer.State(), fired) == StudyTimer.Ticked(old(timer.State()), verdict)
      ensures fired.Some? && fired.value.Completed? ==>
        && View() == old(View()).(data := old(data)[fired.value.day := Studied])
        && provider.State() == Refreshed(old(provider.State()), provider.hasUser, profile, items)
      ensures !(fired.Some? && fired.value.Completed?) ==>
        View() == old(View()) && provider.State() == old(provider.State())
    {
      fired := timer.Tick(verdict);
      insert := None;
      if fired.Some? && fired.value.Completed? {
        var row := HandleTimerComplete(fired.value.day, insertReply, profile, items);
        insert := Some(row);
      }
    }
  }
}

/** The focus-timer component: the duration slider and its premium gate, the
    reset when the timer opens, the one-second tick, the visibility-loss pause,
    and the start/complete handshake with the backend. Each handler is a pure
    transition on `TimerState`; the class `Timer` holds the component's state
    in fields and its methods are proved to perform exactly those transitions. */
module StudyTimer {
  import opened Remote

  const ReadyMsg := "Ready to focus?"
  const ResearchMsg := "Research Mode Active."
  const InitMsg := "Initializing secure session..."
  const FocusMsg := "Focus mode ON. Don't leave!"
  const CheatMsg := "Cheating detected! Timer paused."
  const VerifyingMsg := "Verifying session with cloud..."
  const FailedMsg := "Validation Failed: Time discrepancy detected."

  /** Longest duration, in minutes, a free account may apply. */
  const FreeLimit := 60

  /** The component's state. `isOpen` and `dayIndex` are the props its parent
      passes down; the others are its own `useState` slots. */
  datatype TimerState = TimerState(
    duration: int,              // minutes
    timeLeft: int,              // seconds
    isRunning: bool,
    isResearchMode: bool,
    statusMsg: string,
    sessionId: Option<string>,  // token from the start call; null until then
    upsellOpen: bool,           // the "Unlock 120min Sessions" popover
    isOpen: bool,
    dayIndex: int)

  /** How one call of the completion handler ends. */
  datatype Completion =
    | Completed(day: int)         // onComplete(day) and onClose() were called
    | Rejected                    // the server answered that the time does not add up
    | SessionInvalid              // no session token: nothing was sent
    | VerifyError(message: string)

  /** A call to the backend's session procedures: `start_study_session` with
      the duration in minutes, `complete_study_session` with the token and the
      day. */
  datatype SessionCall =
    | StartSession(duration: int)
    | CompleteSession(sessionId: string, dayIndex: int)

  /** The state when the component mounts. The parent's selected day is null
      until a day is clicked; the timer only opens after that, so 0 stands in. */
  const Initial := TimerState(25, 25 * 60, false, false, ReadyMsg, None, false, false, 0)

  /** A value the range input (min 1, max 120, step 5) can produce. */
  predicate SliderValue(v: int) {
    1 <= v <= 120 && (v - 1) % 5 == 0
  }

  /** The state every handler keeps: a duration the slider can produce (or the
      initial 25) and a countdown that never goes negative. */
  predicate Inv(s: TimerState) {
    1 <= s.duration <= 120 && s.timeLeft >= 0
  }

  /** JavaScript truthiness of the stored token: null and "" are falsy. */
  predicate Bound(id: Option<string>) {
    id.Some? && id.value != ""
  }

  /** Body of the effect that runs while the timer is open, whenever it opens
      or its duration changes. */
  function Reset(s: TimerState): TimerState {
    s.(timeLeft := s.duration * 60, isRunning := false, isResearchMode := false, statusMsg := ReadyMsg)
  }

  /** The parent opens the timer for `day`. The reset effect runs only when
      `isOpen` turns from false to true. */
  function AfterOpen(s: TimerState, day: int): (r: TimerState)
    ensures r.isOpen && r.dayIndex == day
    ensures r.duration == s.duration && r.sessionId == s.sessionId && r.upsellOpen == s.upsellOpen
    ensures s.isOpen ==> r.timeLeft == s.timeLeft && r.isRunning == s.isRunning && r.statusMsg == s.statusMsg
  {
    var s1 := s.(isOpen := true, dayIndex := day);
    if s.isOpen then s1 else Reset(s1)
  }

  /** The slider's onChange with value `v`. A free account asking for more than
      the free limit gets the upsell popover and the value is dropped; otherwise
      the value is stored, and a new duration re-runs the reset effect. */
  function AfterSlide(s: TimerState, v: int, isPremium: bool): (r: TimerState)
    ensures r.duration == s.duration || r.duration == v
    ensures r.upsellOpen != s.upsellOpen ==> !isPremium && v > FreeLimit
    ensures r.isOpen == s.isOpen && r.dayIndex == s.dayIndex && r.sessionId == s.sessionId
    ensures r.duration == s.duration ==> r.timeLeft == s.timeLeft && r.isRunning == s.isRunning
  {
    if !isPremium && v > FreeLimit then s.(upsellOpen := true)
    else if v == s.duration then s
    else
      var s1 := s.(duration := v);
      if s.isOpen then Reset(s1) else s1
  }

  /** The research-mode checkbox. */
  function AfterToggle(s: TimerState, checked: bool): TimerState {
    s.(isResearchMode := checked)
  }

  /** The Start button, with the start call's reply. Research mode runs with
      no call; otherwise the timer runs only once the call returns a token. */
  function AfterStart(s: TimerState, reply: Reply<Option<string>>): (r: TimerState)
    ensures r.duration == s.duration && r.timeLeft == s.timeLeft && r.isResearchMode == s.isResearchMode
    ensures r.isOpen == s.isOpen && r.dayIndex == s.dayIndex && r.upsellOpen == s.upsellOpen
    ensures r.isRunning || r.statusMsg == InitMsg
  {
    if s.isResearchMode then s.(isRunning := true, statusMsg := ResearchMsg)
    else match reply
      case Ok(token) => s.(sessionId := token, isRunning := true, statusMsg := FocusMsg)
      case Error(_) => s.(statusMsg := InitMsg)
  }

  /** The call the Start button makes, if any: research mode is local only. */
  function StartCall(s: TimerState): (c: Option<SessionCall>)
    ensures c.None? <==> s.isResearchMode
    ensures c.Some? ==> c.value.StartSession? && c.value.duration == s.duration
  {
    if s.isResearchMode then None else Some(StartSession(s.duration))
  }

  /** The call the completion handler makes, if any: none in research mode and
      none without a token. */
  function CompleteCall(s: TimerState): (c: Option<SessionCall>)
    ensures c.None? <==> s.isResearchMode || !Bound(s.sessionId)
    ensures c.Some? ==> c.value.CompleteSession? && c.value.dayIndex == s.dayIndex
                        && Some(c.value.sessionId) == s.sessionId && c.value.sessionId != ""
  {
    if s.isResearchMode || !Bound(s.sessionId) then None
    else Some(CompleteSession(s.sessionId.value, s.dayIndex))
  }

  /** The completion handler, with the completion call's reply. */
  function AfterComplete(s: TimerState, verdict: Reply<bool>): (r: (TimerState, Completion))
    ensures !r.0.isRunning
    ensures r.0.timeLeft == s.timeLeft && r.0.duration == s.duration && r.0.sessionId == s.sessionId
    ensures r.0.isResearchMode == s.isResearchMode && r.0.dayIndex == s.dayIndex
    ensures !r.0.isOpen <==> r.1.Completed? || !s.isOpen
  {
    var stopped := s.(isRunning := false);
    if s.isResearchMode then (stopped.(isOpen := false), Completed(s.dayIndex))
    else if !Bound(s.sessionId) then (stopped, SessionInvalid)
    else
      var verifying := stopped.(statusMsg := VerifyingMsg);
      match verdict
      case Error(m) => (verifying, VerifyError(m))
      case Ok(valid) =>
        if valid then (verifying.(isOpen := false), Completed(s.dayIndex))
        else (verifying.(statusMsg := FailedMsg), Rejected)
  }

  /** One second of the interval. The interval exists only while the timer is
      open, running and has time left; at the last second the countdown is set
      to 0 and the completion handler runs. */
  function Ticked(s: TimerState, verdict: Reply<bool>): (r: (TimerState, Option<Completion>))
    ensures s.timeLeft >= 0 ==> 0 <= r.0.timeLeft <= s.timeLeft <= r.0.timeLeft + 1
    ensures r.1.Some? ==> r.0.timeLeft == 0 && !r.0.isRunning && s.timeLeft > 0
    ensures r.0.duration == s.duration && r.0.dayIndex == s.dayIndex
  {
    if !(s.isOpen && s.isRunning && s.timeLeft > 0) then (s, None)
    else if s.timeLeft <= 1 then
      var (s1, c) := AfterComplete(s.(timeLeft := 0), verdict);
      (s1, Some(c))
    else (s.(timeLeft := s.timeLeft - 1), None)
  }

  /** The document's visibilitychange event. */
  function AfterVisibility(s: TimerState, hidden: bool): (r: TimerState)
    ensures r == s || (hidden && s.isRunning && r == s.(isRunning := false, statusMsg := CheatMsg))
  {
    if !s.isRunning || s.isResearchMode || !s.isOpen then s
    else if hidden then s.(isRunning := false, statusMsg := CheatMsg)
    else s
  }

  /** The Pause button. */
  function AfterPause(s: TimerState): TimerState {
    s.(isRunning := false)
  }

  /** The parent's onClose (Cancel, or the end of a completed session). */
  function AfterClose(s: TimerState): TimerState {
    s.(isOpen := false)
  }

  /** `n` seconds of the interval, under one fixed completion reply. */
  function Run(s: TimerState, n: nat, verdict: Reply<bool>): TimerState
    decreases n
  {
    if n == 0 then s else Run(Ticked(s, verdict).0, n - 1, verdict)
  }

  // ---------------------------------------------------------------------------
  // Properties of the transitions

  /** A free account's value above the limit is not applied and opens the
      upsell popover; any other value becomes the duration. */
  lemma DurationGate(s: TimerState, v: int, isPremium: bool)
    ensures !isPremium && v > FreeLimit ==>
      AfterSlide(s, v, isPremium).duration == s.duration && AfterSlide(s, v, isPremium).upsellOpen
    ensures isPremium || v <= FreeLimit ==>
      AfterSlide(s, v, isPremium).duration == v && AfterSlide(s, v, isPremium).upsellOpen == s.upsellOpen
  {
  }

  /** On the slider's step grid the largest value a free account can apply is
      56 minutes, not the advertised 60. */
  lemma FreeSliderCeiling(v: int)
    requires SliderValue(v) && v <= FreeLimit
    ensures v <= 56
    ensures SliderValue(56) && 56 <= FreeLimit
  {
    var k := (v - 1) / 5;
    assert v == 5 * k + 1;
  }

  /** Opening a closed timer stops it, leaves research mode, shows the ready
      status and fills the countdown from the duration. */
  lemma OpenResets(s: TimerState, day: int)
    requires !s.isOpen
    ensures var r := AfterOpen(s, day);
      r.isOpen && r.dayIndex == day && r.timeLeft == s.duration * 60 && !r.isRunning
      && !r.isResearchMode && r.statusMsg == ReadyMsg && r.duration == s.duration
  {
  }

  /** Every handler keeps `Inv`. */
  lemma InvariantKept(s: TimerState, day: int, v: int, isPremium: bool, checked: bool,
                      token: Reply<Option<string>>, verdict: Reply<bool>, hidden: bool)
    requires Inv(s) && SliderValue(v)
    ensures Inv(AfterOpen(s, day)) && Inv(AfterSlide(s, v, isPremium)) && Inv(AfterToggle(s, checked))
    ensures Inv(AfterStart(s, token)) && Inv(AfterComplete(s, verdict).0) && Inv(Ticked(s, verdict).0)
    ensures Inv(AfterVisibility(s, hidden)) && Inv(AfterPause(s)) && Inv(AfterClose(s))
  {
  }

  /** A tick either does nothing, lowers the countdown by exactly one, or (at
      the last second) sets it to 0 and runs the completion handler; the
      countdown never becomes negative. */
  lemma TickSteps(s: TimerState, verdict: Reply<bool>)
    requires s.timeLeft >= 0
    ensures var (r, fired) := Ticked(s, verdict);
      && r.timeLeft >= 0
      && (!(s.isOpen && s.isRunning && s.timeLeft > 0) ==> r == s && fired.None?)
      && (s.isOpen && s.isRunning && s.timeLeft > 1 ==> r == s.(timeLeft := s.timeLeft - 1) && fired.None?)
      && (s.isOpen && s.isRunning && s.timeLeft == 1 ==>
            r.timeLeft == 0 && !r.isRunning && fired == Some(AfterComplete(s.(timeLeft := 0), verdict).1))
  {
  }

  /** While nothing else happens, `n` ticks of a running timer with more than
      `n` seconds left lower the countdown by `n` and change nothing else. */
  lemma {:induction false} CountsDown(s: TimerState, n: nat, verdict: Reply<bool>)
    requires s.isOpen && s.isRunning && n < s.timeLeft
    ensures Run(s, n, verdict) == s.(timeLeft := s.timeLeft - n)
    decreases n
  {
    if n > 0 {
      var s1 := Ticked(s, verdict).0;
      assert s1 == s.(timeLeft := s.timeLeft - 1);
      CountsDown(s1, n - 1, verdict);
    }
  }

  /** A running timer with `t` seconds left fires the completion handler at
      its `t`-th tick and at no earlier one. */
  lemma CompletesAtLastTick(s: TimerState, k: nat, verdict: Reply<bool>)
    requires s.isOpen && s.isRunning && k < s.timeLeft
    ensures Ticked(Run(s, k, verdict), verdict).1.Some? <==> k == s.timeLeft - 1
  {
    CountsDown(s, k, verdict);
  }

  /** Losing visibility while a verified session runs stops it with the
      tamper status, and the very next tick does nothing. */
  lemma TamperPauses(s: TimerState, verdict: Reply<bool>)
    requires s.isOpen && s.isRunning && !s.isResearchMode
    ensures var r := AfterVisibility(s, true);
      !r.isRunning && r.statusMsg == CheatMsg && r.timeLeft == s.timeLeft
      && Ticked(r, verdict) == (r, None)
  {
  }

  /** Visibility changes have no effect in research mode, on a stopped or
      closed timer, or when the page becomes visible again. */
  lemma VisibilityIgnored(s: TimerState, hidden: bool)
    requires !s.isRunning || s.isResearchMode || !s.isOpen || !hidden
    ensures AfterVisibility(s, hidden) == s
  {
  }

  /** A manual pause stops the timer and keeps the status, so it differs from
      a tamper pause whenever the status was not already the tamper one. */
  lemma ManualPauseKeepsStatus(s: TimerState)
    requires s.isOpen && s.isRunning && !s.isResearchMode && s.statusMsg != CheatMsg
    ensures AfterPause(s).statusMsg == s.statusMsg
    ensures AfterPause(s).statusMsg != AfterVisibility(s, true).statusMsg
  {
  }

  /** There is no lasting tamper mark: starting again after a tamper pause
      runs the timer under the ordinary status. */
  lemma TamperNotSticky(s: TimerState, token: Option<string>)
    requires s.isOpen && s.isRunning && !s.isResearchMode
    ensures var r := AfterStart(AfterVisibility(s, true), Ok(token));
      r.isRunning && r.statusMsg == FocusMsg
  {
  }

  /** Start in research mode makes no call, so the reply cannot matter, runs
      at once and leaves the token alone; in verified mode the timer runs, and
      the token is bound, exactly when the start call succeeds. */
  lemma StartHandshake(s: TimerState, reply: Reply<Option<string>>, other: Reply<Option<string>>)
    ensures StartCall(s).None? <==> s.isResearchMode
    ensures StartCall(s).None? ==> AfterStart(s, reply) == AfterStart(s, other)
    ensures s.isResearchMode ==>
      AfterStart(s, reply).isRunning && AfterStart(s, reply).sessionId == s.sessionId
    ensures !s.isResearchMode ==>
      (AfterStart(s, reply).isRunning <==> s.isRunning || reply.Ok?)
    ensures !s.isResearchMode && reply.Ok? ==> AfterStart(s, reply).sessionId == reply.data
    ensures !s.isResearchMode && reply.Error? ==> AfterStart(s, reply) == s.(statusMsg := InitMsg)
  {
  }

  /** Completion always stops the timer. It reports the day as studied exactly
      in research mode, or when a token is bound and the server confirms the
      time; it reports a rejection exactly when the server answers false. In
      research mode and without a token no call is made, so the verdict cannot
      matter. */
  lemma CompletionRules(s: TimerState, verdict: Reply<bool>, other: Reply<bool>)
    ensures CompleteCall(s).None? <==> s.isResearchMode || !Bound(s.sessionId)
    ensures CompleteCall(s).None? ==> AfterComplete(s, verdict) == AfterComplete(s, other)
    ensures var (r, c) := AfterComplete(s, verdict);
      && !r.isRunning
      && (c.Completed? <==> s.isResearchMode || (Bound(s.sessionId) && verdict == Ok(true)))
      && (c.Completed? ==> c.day == s.dayIndex && !r.isOpen)
      && (c.Rejected? <==> !s.isResearchMode && Bound(s.sessionId) && verdict == Ok(false))
      && (c.Rejected? ==> r.statusMsg == FailedMsg)
      && (c == SessionInvalid <==> !s.isResearchMode && !Bound(s.sessionId))
  {
  }

  // ---------------------------------------------------------------------------
  // The "MM:SS" display

  function Digit(d: nat): char
    requires d < 10
  {
    "0123456789"[d]
  }

  /** `n.toString()` for a non-negative integer. */
  function Decimal(n: nat): string
    decreases n
  {
    if n < 10 then [Digit(n)] else Decimal(n / 10) + [Digit(n % 10)]
  }

  /** `s.padStart(2, '0')`. */
  function PadStart2(s: string): string {
    if |s| >= 2 then s else seq(2 - |s|, _ => '0') + s
  }

  /** `formatTime`: whole minutes and the remaining seconds, each padded to
      two digits. The countdown it displays is never negative. */
  function FormatTime(seconds: nat): (r: string)
    ensures |r| >= 5 && r[|r| - 3] == ':'
    ensures forall i :: 0 <= i < |r| && i != |r| - 3 ==> IsDigit(r[i])
  {
    var m, sec := Decimal(seconds / 60), Decimal(seconds % 60);
    DecimalDigits(seconds / 60);
    DecimalDigits(seconds % 60);
    DecimalShort(seconds % 60);
    PadKeepsValue(m);
    PadKeepsValue(sec);
    PadStart2(m) + ":" + PadStart2(sec)
  }

  predicate IsDigit(c: char) {
    '0' <= c <= '9'
  }

  predicate AllDigits(s: string) {
    forall i :: 0 <= i < |s| ==> IsDigit(s[i])
  }

  /** The number a string of decimal digits denotes. */
  function ReadDecimal(s: string): nat
    requires AllDigits(s)
  {
    if s == [] then 0 else 10 * ReadDecimal(s[..|s| - 1]) + (s[|s| - 1] as int - '0' as int)
  }

  /** Position of the first `c` in `s`, or `|s|` when there is none. */
  function IndexOf(s: string, c: char): (k: nat)
    ensures k <= |s|
  {
    if s == [] then 0 else if s[0] == c then 0 else 1 + IndexOf(s[1..], c)
  }

  /** Reads a displayed "minutes:seconds" string back as a number of seconds;
      the seconds field must be below 60. */
  function ReadTime(t: string): Option<nat> {
    var k := IndexOf(t, ':');
    if k == |t| then None
    else
      var m, sec := t[..k], t[k + 1..];
      if m != [] && sec != [] && AllDigits(m) && AllDigits(sec) && ReadDecimal(sec) < 60
      then Some(60 * ReadDecimal(m) + ReadDecimal(sec))
      else None
  }

  lemma {:induction false} DecimalDigits(n: nat)
    ensures Decimal(n) != [] && AllDigits(Decimal(n))
    ensures ReadDecimal(Decimal(n)) == n
    decreases n
  {
    DigitValue(n % 10);
    if n >= 10 {
      var q, r := n / 10, n % 10;
      DecimalDigits(q);
      var d := Decimal(n);
      assert d == Decimal(q) + [Digit(r)];
      assert d[..|d| - 1] == Decimal(q);
      assert forall i :: 0 <= i < |d| ==> IsDigit(d[i]) by {
        forall i | 0 <= i < |d| ensures IsDigit(d[i]) {
          if i < |d| - 1 { assert d[i] == Decimal(q)[i]; }
        }
      }
      assert ReadDecimal(d) == 10 * q + r;
    }
  }

  lemma DigitValue(d: nat)
    requires d < 10
    ensures IsDigit(Digit(d)) && Digit(d) as int - '0' as int == d
  {
  }

  /** Leading zeros do not change the number read. */
  lemma {:induction false} LeadingZero(s: string)
    requires AllDigits(s)
    ensures AllDigits("0" + s) && ReadDecimal("0" + s) == ReadDecimal(s)
    decreases |s|
  {
    if s != [] {
      var p := s[..|s| - 1];
      LeadingZero(p);
      assert ("0" + s)[..|"0" + s| - 1] == "0" + p;
    }
  }

  lemma PadKeepsValue(s: string)
    requires s != [] && AllDigits(s)
    ensures AllDigits(PadStart2(s)) && ReadDecimal(PadStart2(s)) == ReadDecimal(s)
    ensures |PadStart2(s)| == if |s| >= 2 then |s| else 2
  {
    if |s| < 2 {
      assert PadStart2(s) == "0" + s;
      LeadingZero(s);
    }
  }

  lemma {:induction false} IndexOfPrefix(a: string, b: string, c: char)
    requires forall i :: 0 <= i < |a| ==> a[i] != c
    ensures IndexOf(a + [c] + b, c) == |a|
    decreases |a|
  {
    if a != [] {
      assert (a + [c] + b)[1..] == a[1..] + [c] + b;
      IndexOfPrefix(a[1..], b, c);
    }
  }

  /** Reading the display back gives the number of seconds it shows: the
      field before the colon reads as the whole minutes and the field after it
      as the remaining seconds. */
  lemma FormatTimeRoundTrip(seconds: nat)
    ensures ReadTime(FormatTime(seconds)) == Some(seconds)
    ensures var t := FormatTime(seconds); var k := IndexOf(t, ':');
      && k < |t| && AllDigits(t[..k]) && AllDigits(t[k + 1..])
      && ReadDecimal(t[..k]) == seconds / 60 && ReadDecimal(t[k + 1..]) == seconds % 60
  {
    var mins, secs := seconds / 60, seconds % 60;
    DecimalDigits(mins);
    DecimalDigits(secs);
    PadKeepsValue(Decimal(mins));
    PadKeepsValue(Decimal(secs));
    var m, sec := PadStart2(Decimal(mins)), PadStart2(Decimal(secs));
    IndexOfPrefix(m, sec, ':');
    var t := FormatTime(seconds);
    assert t == m + [':'] + sec;
    assert t[..|m|] == m && t[|m| + 1..] == sec;
  }

  /** A number below 100 has at most two digits, and only such a number has. */
  lemma DecimalShort(n: nat)
    ensures |Decimal(n)| <= 2 <==> n < 100
  {
    if n >= 100 {
      assert n / 10 >= 10;
      assert |Decimal(n / 10)| >= 2;
    }
  }

  /** The display is exactly five characters ("MM:SS") iff it shows less than
      100 minutes. */
  lemma FormatTimeWidth(seconds: nat)
    ensures |FormatTime(seconds)| == 5 <==> seconds < 6000
  {
    var mins, secs := seconds / 60, seconds % 60;
    DecimalDigits(mins);
    DecimalDigits(secs);
    PadKeepsValue(Decimal(mins));
    PadKeepsValue(Decimal(secs));
    DecimalShort(mins);
    DecimalShort(secs);
  }

  // ---------------------------------------------------------------------------
  // The component

  class Timer {
    var duration: int
    var timeLeft: int
    var isRunning: bool
    var isResearchMode: bool
    var statusMsg: string
    var sessionId: Option<string>
    var upsellOpen: bool
    var isOpen: bool
    var dayIndex: int

    function State(): TimerState
      reads this
    {
      TimerState(duration, timeLeft, isRunning, isResearchMode, statusMsg, sessionId, upsellOpen, isOpen, dayIndex)
    }

    ghost predicate Valid()
      reads this
    {
      Inv(State())
    }

    /** The countdown as the timer shows it. */
    function Display(): (r: string)
      reads this
      requires Valid()
      ensures ReadTime(r) == Some(timeLeft)
    {
      FormatTimeRoundTrip(timeLeft);
      FormatTime(timeLeft)
    }

    constructor ()
      ensures State() == Initial && Valid()
    {
      duration, timeLeft := 25, 25 * 60;
      isRunning, isResearchMode := false, false;
      statusMsg := ReadyMsg;
      sessionId := None;
      upsellOpen, isOpen := false, false;
      dayIndex := 0;
    }

    method Open(day: int)
      requires Valid()
      modifies this
      ensures Valid() && State() == AfterOpen(old(State()), day)
    {
      if !isOpen {
        ResetCountdown();
      }
      isOpen, dayIndex := true, day;
    }

    /** The body of the reset effect. */
    method ResetCountdown()
      requires Valid()
      modifies this
      ensures Valid() && State() == Reset(old(State()))
    {
      timeLeft := duration * 60;
      isRunning, isResearchMode := false, false;
      statusMsg := ReadyMsg;
    }

    method SlideDuration(v: int, isPremium: bool)
      requires Valid() && SliderValue(v)
      modifies this
      ensures Valid() && State() == AfterSlide(old(State()), v, isPremium)
    {
      if !isPremium && v > FreeLimit {
        upsellOpen := true;
        return;
      }
      if v != duration {
        duration := v;
        if isOpen {
          ResetCountdown();
        }
      }
    }

    method ToggleResearch(checked: bool)
      requires Valid()
      modifies this
      ensures Valid() && State() == AfterToggle(old(State()), checked)
    {
      isResearchMode := checked;
    }

    method Start(reply: Reply<Option<string>>) returns (call: Option<SessionCall>)
      requires Valid()
      modifies this
      ensures call == StartCall(old(State()))
      ensures Valid() && State() == AfterStart(old(State()), reply)
    {
      if isResearchMode {
        isRunning := true;
        statusMsg := ResearchMsg;
        return None;
      }
      statusMsg := InitMsg;
      call := Some(StartSession(duration));
      if reply.Ok? {
        sessionId := reply.data;
        isRunning := true;
        statusMsg := FocusMsg;
      }
    }

    method Complete(verdict: Reply<bool>) returns (c: Completion, call: Option<SessionCall>)
      requires Valid()
      modifies this
      ensures call == CompleteCall(old(State()))
      ensures Valid() && (State(), c) == AfterComplete(old(State()), verdict)
    {
      isRunning := false;
      call := None;
      if isResearchMode {
        c := Completed(dayIndex);
        isOpen := false;
        return;
      }
      if !Bound(sessionId) {
        c := SessionInvalid;
        return;
      }
      call := Some(CompleteSession(sessionId.value, dayIndex));
      statusMsg := VerifyingMsg;
      match verdict {
        case Error(m) =>
          c := VerifyError(m);
        case Ok(valid) =>
          if valid {
            c := Completed(dayIndex);
            isOpen := false;
          } else {
            statusMsg := FailedMsg;
            c := Rejected;
          }
      }
    }

    method Tick(verdict: Reply<bool>) returns (fired: Option<Completion>)
      requires Valid()
      modifies this
      ensures Valid() && (State(), fired) == Ticked(old(State()), verdict)
    {
      if !(isOpen && isRunning && timeLeft > 0) {
        fired := None;
        return;
      }
      if timeLeft <= 1 {
        timeLeft := 0;
        var c, _ := Complete(verdict);
        fired := Some(c);
      } else {
        timeLeft := timeLeft - 1;
        fired := None;
      }
    }

    method VisibilityChange(hidden: bool)
      requires Valid()
      modifies this
      ensures Valid() && State() == AfterVisibility(old(State()), hidden)
    {
      if !isRunning || isResearchMode || !isOpen {
        return;
      }
      if hidden {
        isRunning := false;
        statusMsg := CheatMsg;
      }
    }

    method Pause()
      requires Valid()
      modifies this
      ensures Valid() && State() == AfterPause(old(State()))
    {
      isRunning := false;
    }

    method Close()
      requires Valid()
      modifies this
      ensures Valid() && State() == AfterClose(old(State()))
    {
      isOpen := false;
    }
  }
}

/** The Pomodoro timer state machine (hooks/usePomodoro.ts).

    The four state cells of the hook are the fields of `PomodoroTimer`; the
    settings record is a fifth field that the host may replace at any time.
    Each method is proved against a pure transition function on `Timer`, and
    the properties of the machine are lemmas about those functions. Calls to
    the sound effects are appended to a ghost log. */
module Pomodoro {
  import opened Types

  /** The three sound effects the timer triggers. */
  datatype SoundEvent = TickSound | FocusEndSound | BreakEndSound

  /** The observable timer state. */
  datatype Timer = Timer(mode: Mode, timeLeft: int, isActive: bool, sessionCount: int)

  /** The session counter lies in [1, 4]; short breaks only happen before the
      fourth focus session is done, the long break only after it. */
  predicate PhaseOk(mode: Mode, count: int) {
    && 1 <= count <= TotalSessionsBeforeLongBreak
    && (mode == ShortBreak ==> count < TotalSessionsBeforeLongBreak)
    && (mode == LongBreak ==> count == TotalSessionsBeforeLongBreak)
  }

  predicate Inv(t: Timer) {
    t.timeLeft >= 0 && PhaseOk(t.mode, t.sessionCount)
  }

  /** The completion effect fires exactly in this state. */
  predicate Due(t: Timer) {
    t.timeLeft == 0 && t.isActive
  }

  /** State of a freshly mounted timer. */
  function Start(s: Settings): (t: Timer)
    ensures Inv(t) && !Due(t)
    ensures t.mode == Focus && t.sessionCount == 1 && !t.isActive
    ensures t.timeLeft == Duration(s, Focus)
  {
    Timer(Focus, Duration(s, Focus), false, 1)
  }

  /** The next mode and session count once a phase ends. */
  function NextPhase(mode: Mode, count: int): (r: (Mode, int))
    ensures (r.0 == Focus) <==> (mode != Focus)
    ensures r.0 == LongBreak <==> mode == Focus && count >= TotalSessionsBeforeLongBreak
    ensures mode == Focus ==> r.1 == count
    ensures mode == ShortBreak ==> r.1 == count + 1
    ensures mode == LongBreak ==> r.1 == 1
    ensures PhaseOk(mode, count) ==> PhaseOk(r.0, r.1)
  {
    match mode
    case Focus =>
      if count >= TotalSessionsBeforeLongBreak then (LongBreak, count) else (ShortBreak, count)
    case ShortBreak => (Focus, count + 1)
    case LongBreak => (Focus, 1)
  }

  /** Ends the current phase: stops the countdown and loads the next mode's
      duration from the settings current at this moment. */
  function SwitchMode(t: Timer, s: Settings): (r: Timer)
    ensures !r.isActive && !Due(r)
    ensures (r.mode, r.sessionCount) == NextPhase(t.mode, t.sessionCount)
    ensures r.timeLeft == Duration(s, r.mode)
    ensures (r.mode == Focus) <==> (t.mode != Focus)
    ensures PhaseOk(t.mode, t.sessionCount) ==> Inv(r)
  {
    var (m, c) := NextPhase(t.mode, t.sessionCount);
    Timer(m, Duration(s, m), false, c)
  }

  /** The session-end effect for a finished mode, if that sound is enabled. */
  function SessionEndSounds(finished: Mode, s: Settings): (r: seq<SoundEvent>)
    ensures |r| <= 1 && TickSound !in r
    ensures r != [] <==> s.enableSessionEndSound
    ensures r != [] ==> (r[0] == FocusEndSound <==> finished == Focus)
  {
    if !s.enableSessionEndSound then []
    else if finished == Focus then [FocusEndSound]
    else [BreakEndSound]
  }

  /** The completion effect: switch mode exactly when the timer is due. */
  function Complete(t: Timer, s: Settings): (r: Timer)
    ensures !Due(r)
    ensures Due(t) ==> r == SwitchMode(t, s)
    ensures !Due(t) ==> r == t
    ensures Inv(t) ==> Inv(r)
  {
    if Due(t) then SwitchMode(t, s) else t
  }

  function CompleteSounds(t: Timer, s: Settings): (r: seq<SoundEvent>)
    ensures r != [] ==> Due(t)
    ensures Due(t) ==> r == SessionEndSounds(t.mode, s)
  {
    if Due(t) then SessionEndSounds(t.mode, s) else []
  }

  /** One tick of the countdown: minus one, never below zero. */
  function TickStep(t: Timer): (r: Timer)
    ensures r.timeLeft >= 0
    ensures t.timeLeft > 0 ==> r.timeLeft == t.timeLeft - 1
    ensures t.timeLeft <= 0 ==> r.timeLeft == 0
    ensures r.mode == t.mode && r.isActive == t.isActive && r.sessionCount == t.sessionCount
  {
    if t.timeLeft <= 0 then t.(timeLeft := 0) else t.(timeLeft := t.timeLeft - 1)
  }

  /** The tick sound plays only when the tick really decrements. */
  function TickSounds(t: Timer, s: Settings): (r: seq<SoundEvent>)
    ensures r != [] <==> t.timeLeft > 0 && s.enableTickSound
    ensures forall e :: e in r ==> e == TickSound
    ensures |r| <= 1
  {
    if t.timeLeft > 0 && s.enableTickSound then [TickSound] else []
  }

  /** Start/pause. Pressing start at zero restarts the present phase with the
      settings current at that moment. */
  function Toggle(t: Timer, s: Settings): (r: Timer)
    ensures r.isActive == !t.isActive
    ensures r.mode == t.mode && r.sessionCount == t.sessionCount
    ensures t.timeLeft == 0 ==> r.timeLeft == Duration(s, t.mode)
    ensures t.timeLeft != 0 ==> r.timeLeft == t.timeLeft
    ensures Inv(t) ==> Inv(r)
  {
    var t' := if t.timeLeft == 0 then t.(timeLeft := Duration(s, t.mode)) else t;
    t'.(isActive := !t.isActive)
  }

  /** Manual reset: the only user action that forces new settings onto a
      phase in progress. */
  function Reset(t: Timer, s: Settings): (r: Timer)
    ensures !r.isActive && !Due(r)
    ensures r.timeLeft == Duration(s, t.mode)
    ensures r.mode == t.mode && r.sessionCount == t.sessionCount
    ensures Inv(t) ==> Inv(r)
  {
    t.(isActive := false, timeLeft := Duration(s, t.mode))
  }

  /** One second of the host clock: the interval exists only while the timer
      is active with time left; it calls tick, then the completion effect runs. */
  function Second(t: Timer, s: Settings): (r: Timer)
    ensures Inv(t) ==> Inv(r)
    ensures !Due(r)
  {
    Complete(Ticked(t), s)
  }

  /** The state after the optional tick of a host second. */
  function Ticked(t: Timer): (r: Timer)
    ensures t.isActive && t.timeLeft > 0 ==> r == TickStep(t)
    ensures !(t.isActive && t.timeLeft > 0) ==> r == t
  {
    if t.isActive && t.timeLeft > 0 then TickStep(t) else t
  }

  /** The sounds of one host second: the tick's, then the completion's. */
  function SecondSounds(t: Timer, s: Settings): (r: seq<SoundEvent>)
    ensures |r| <= 2
    ensures TickSound in r <==> t.isActive && t.timeLeft > 0 && s.enableTickSound
    ensures FocusEndSound in r || BreakEndSound in r ==> s.enableSessionEndSound && Due(Ticked(t))
    ensures s.enableSessionEndSound && Due(Ticked(t)) ==>
      (FocusEndSound in r <==> t.mode == Focus) && (BreakEndSound in r <==> t.mode != Focus)
  {
    (if t.isActive && t.timeLeft > 0 then TickSounds(t, s) else []) + CompleteSounds(Ticked(t), s)
  }

  /** What the host can do to the timer. */
  datatype Input = Clock | PressToggle | PressReset | Configure(settings: Settings)

  /** One input followed by the completion effect, which React runs after
      every render in which its dependencies changed. */
  function Step(t: Timer, s: Settings, i: Input): (r: (Timer, Settings))
    ensures Inv(t) ==> Inv(r.0)
    ensures !Due(r.0)
    ensures r.1 == if i.Configure? then i.settings else s
    ensures i.Configure? && !Due(t) ==> r.0 == t
  {
    match i
    case Clock => (Second(t, s), s)
    case PressToggle => (Complete(Toggle(t, s), s), s)
    case PressReset => (Complete(Reset(t, s), s), s)
    case Configure(s') => (Complete(t, s'), s')
  }

  function Run(t: Timer, s: Settings, inputs: seq<Input>): (r: (Timer, Settings))
    ensures Inv(t) ==> Inv(r.0)
    decreases |inputs|
  {
    if inputs == [] then (t, s)
    else
      var (t', s') := Step(t, s, inputs[0]);
      Run(t', s', inputs[1..])
  }

  /** From mount, under any sequence of clock ticks, presses and settings
      edits, the counter stays in [1, 4], short breaks only occur with a count
      below 4, the long break only with count 4, and the time left is never
      negative. */
  lemma ReachableFromMount(s: Settings, inputs: seq<Input>)
    ensures Inv(Run(Start(s), s, inputs).0)
  {
  }

  /** Editing the settings while the timer is paused changes nothing on the
      timer: a paused phase keeps the time it had, and the new durations are
      picked up only by a reset, by pressing start at zero, or by the next
      phase. */
  lemma PausedTimerIgnoresEdits(t: Timer, s: Settings, s': Settings)
    requires Inv(t) && !t.isActive && t.timeLeft > 0 && Duration(s', t.mode) != t.timeLeft
    ensures Step(t, s, Configure(s')).0 == t
    ensures Step(t, s, Configure(s')).0.timeLeft != Duration(s', t.mode)
    ensures Step(Step(t, s, Configure(s')).0, s', PressReset).0.timeLeft == Duration(s', t.mode)
  {
  }

  /** The completion effect fires once per phase: applying it a second time
      changes nothing, whatever the settings are by then. */
  lemma CompletionFiresOnce(t: Timer, s1: Settings, s2: Settings)
    ensures Complete(Complete(t, s1), s2) == Complete(t, s1)
    ensures CompleteSounds(Complete(t, s1), s2) == []
  {
  }

  function CountClocks(inputs: seq<Input>): nat
    decreases |inputs|
  {
    if inputs == [] then 0
    else (if inputs[0] == Clock then 1 else 0) + CountClocks(inputs[1..])
  }

  /** Only clock ticks and settings edits, no button presses. */
  predicate ClockAndEdits(inputs: seq<Input>) {
    forall k :: 0 <= k < |inputs| ==> inputs[k] == Clock || inputs[k].Configure?
  }

  /** Settings are never applied retroactively: while a phase runs, any
      interleaving of settings edits with fewer clock ticks than the time left
      leaves mode, counter and activity alone and only counts the time down. */
  lemma {:induction false} EditsDoNotTouchRunningPhase(t: Timer, s: Settings, inputs: seq<Input>)
    requires t.isActive && ClockAndEdits(inputs)
    requires CountClocks(inputs) < t.timeLeft
    ensures Run(t, s, inputs).0 == t.(timeLeft := t.timeLeft - CountClocks(inputs))
    decreases |inputs|
  {
    if inputs != [] {
      var (t', s') := Step(t, s, inputs[0]);
      assert ClockAndEdits(inputs[1..]) by {
        forall k | 0 <= k < |inputs[1..]| ensures inputs[1..][k] == Clock || inputs[1..][k].Configure? {
          assert inputs[1..][k] == inputs[k + 1];
        }
      }
      assert inputs[0] == Clock ==> t' == t.(timeLeft := t.timeLeft - 1);
      assert inputs[0] != Clock ==> t' == t;
      EditsDoNotTouchRunningPhase(t', s', inputs[1..]);
    }
  }

  /** The sequence of phases seen from mount: phase n is reached after n
      completions. */
  function Phases(n: nat): (r: (Mode, int))
    ensures PhaseOk(r.0, r.1)
  {
    if n == 0 then (Focus, 1) else NextPhase(Phases(n - 1).0, Phases(n - 1).1)
  }

  /** The first cycle: FOCUS, SHORT_BREAK three times with counts 1..3, the
      fourth FOCUS leads to LONG_BREAK with count 4, then FOCUS with count 1. */
  lemma FirstCycle()
    ensures Phases(1) == (ShortBreak, 1) && Phases(2) == (Focus, 2)
    ensures Phases(3) == (ShortBreak, 2) && Phases(4) == (Focus, 3)
    ensures Phases(5) == (ShortBreak, 3) && Phases(6) == (Focus, 4)
    ensures Phases(7) == (LongBreak, 4) && Phases(8) == (Focus, 1)
  {
    assert Phases(1) == (ShortBreak, 1);
    assert Phases(2) == (Focus, 2);
    assert Phases(3) == (ShortBreak, 2);
    assert Phases(4) == (Focus, 3);
    assert Phases(5) == (ShortBreak, 3);
    assert Phases(6) == (Focus, 4);
    assert Phases(7) == (LongBreak, 4);
  }

  /** The cycle repeats every eight phases. */
  lemma {:induction false} PhasesPeriodic(n: nat)
    ensures Phases(n + 8) == Phases(n)
  {
    if n == 0 {
      FirstCycle();
    } else {
      PhasesPeriodic(n - 1);
    }
  }

  /** One input moves the timer at most one phase along the phase sequence:
      mode and counter change only through the completion effect. */
  lemma StepFollowsPhases(t: Timer, s: Settings, i: Input, k: nat)
    requires (t.mode, t.sessionCount) == Phases(k)
    ensures var r := Step(t, s, i).0;
            (r.mode, r.sessionCount) == Phases(k) || (r.mode, r.sessionCount) == Phases(k + 1)
  {
  }

  /** Any run from phase k ends in phase k or a later one of the sequence. */
  lemma {:induction false} RunFollowsPhasesFrom(t: Timer, s: Settings, inputs: seq<Input>, k: nat)
    requires (t.mode, t.sessionCount) == Phases(k)
    ensures var r := Run(t, s, inputs).0;
            exists n :: k <= n && Phases(n) == (r.mode, r.sessionCount)
    decreases |inputs|
  {
    var r := Run(t, s, inputs).0;
    if inputs == [] {
      assert Phases(k) == (r.mode, r.sessionCount);
    } else {
      var (t', s') := Step(t, s, inputs[0]);
      assert Run(t, s, inputs) == Run(t', s', inputs[1..]);
      StepFollowsPhases(t, s, inputs[0], k);
      if (t'.mode, t'.sessionCount) == Phases(k) {
        RunFollowsPhasesFrom(t', s', inputs[1..], k);
      } else {
        RunFollowsPhasesFrom(t', s', inputs[1..], k + 1);
      }
    }
  }

  /** The timer only ever visits the phases of the sequence: whatever the
      inputs, the mode and counter after a run from mount are those of some
      phase n. */
  lemma RunFollowsPhases(s: Settings, inputs: seq<Input>)
    ensures var r := Run(Start(s), s, inputs).0;
            exists n :: Phases(n) == (r.mode, r.sessionCount)
  {
    RunFollowsPhasesFrom(Start(s), s, inputs, 0);
  }

  /** A long break is exactly every eighth phase, i.e. after every fourth
      focus session. */
  lemma {:induction false} LongBreakEveryFourthFocus(n: nat)
    ensures Phases(n).0 == LongBreak <==> n % 8 == 7
    ensures Phases(n).0 == Focus <==> n % 2 == 0
    decreases n
  {
    if n < 8 {
      FirstCycle();
      assert Phases(0) == (Focus, 1);
    } else {
      LongBreakEveryFourthFocus(n - 8);
      PhasesPeriodic(n - 8);
    }
  }

  /** The hook as an object: four state cells, the settings it reads, and a
      ghost log of the sound effects it triggered. */
  class PomodoroTimer {
    var mode: Mode
    var timeLeft: int
    var isActive: bool
    var sessionCount: int
    var settings: Settings
    ghost var sounds: seq<SoundEvent>

    function State(): Timer
      reads this
    {
      Timer(mode, timeLeft, isActive, sessionCount)
    }

    ghost predicate Valid()
      reads this
    {
      Inv(State())
    }

    constructor (s: Settings)
      ensures Valid() && State() == Start(s)
      ensures settings == s && sounds == []
    {
      mode := Focus;
      timeLeft := Duration(s, Focus);
      isActive := false;
      sessionCount := 1;
      settings := s;
      sounds := [];
    }

    /** The host replaces the settings; the running state is left alone. */
    method UpdateSettings(s: Settings)
      modifies this`settings
      ensures settings == s
      ensures State() == old(State())
    {
      settings := s;
    }

    /** The interval callback. */
    method Tick()
      requires Valid()
      modifies this`timeLeft, this`sounds
      ensures Valid()
      ensures State() == TickStep(old(State()))
      ensures sounds == old(sounds) + TickSounds(old(State()), settings)
    {
      if timeLeft <= 0 {
        timeLeft := 0;
      } else {
        if settings.enableTickSound {
          sounds := sounds + [TickSound];
        }
        timeLeft := timeLeft - 1;
      }
    }

    /** The completion effect, which calls `switchMode` when due. */
    method CheckCompletion() returns (switched: bool)
      requires Valid()
      modifies this`mode, this`timeLeft, this`isActive, this`sessionCount, this`sounds
      ensures Valid() && !Due(State())
      ensures switched == Due(old(State()))
      ensures State() == Complete(old(State()), settings)
      ensures sounds == old(sounds) + CompleteSounds(old(State()), settings)
    {
      switched := timeLeft == 0 && isActive;
      if switched {
        SwitchModeNow();
      }
    }

    method SwitchModeNow()
      requires Valid()
      modifies this`mode, this`timeLeft, this`isActive, this`sessionCount, this`sounds
      ensures Valid() && !isActive
      ensures State() == SwitchMode(old(State()), settings)
      ensures sounds == old(sounds) + SessionEndSounds(old(mode), settings)
    {
      var finished := mode;
      var nextMode := Focus;
      var nextCount := sessionCount;
      if mode == Focus {
        if sessionCount >= TotalSessionsBeforeLongBreak {
          nextMode := LongBreak;
        } else {
          nextMode := ShortBreak;
        }
      } else if mode == ShortBreak {
        nextMode := Focus;
        nextCount := sessionCount + 1;
      } else {
        nextMode := Focus;
        nextCount := 1;
      }
      isActive := false;
      mode := nextMode;
      timeLeft := Duration(settings, nextMode);
      sessionCount := nextCount;
      if settings.enableSessionEndSound {
        if finished == Focus {
          sounds := sounds + [FocusEndSound];
        } else {
          sounds := sounds + [BreakEndSound];
        }
      }
    }

    /** One second of the host clock: tick if the interval is running, then
        the completion effect. */
    method ClockSecond() returns (switched: bool)
      requires Valid()
      modifies this`mode, this`timeLeft, this`isActive, this`sessionCount, this`sounds
      ensures Valid() && !Due(State())
      ensures State() == Second(old(State()), settings)
      ensures switched == Due(Ticked(old(State())))
      ensures sounds == old(sounds) + SecondSounds(old(State()), settings)
    {
      if isActive && timeLeft > 0 {
        Tick();
      }
      switched := CheckCompletion();
    }

    method ToggleTimer()
      requires Valid()
      modifies this`timeLeft, this`isActive
      ensures Valid()
      ensures State() == Toggle(old(State()), settings)
    {
      if timeLeft == 0 {
        timeLeft := Duration(settings, mode);
      }
      isActive := !isActive;
    }

    method ResetTimer()
      requires Valid()
      modifies this`timeLeft, this`isActive
      ensures Valid()
      ensures State() == Reset(old(State()), settings)
    {
      isActive := false;
      timeLeft := Duration(settings, mode);
    }
  }
}

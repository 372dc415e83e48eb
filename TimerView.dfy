/** Display helpers of the timer screen (views/TimerView.tsx): the MM:SS
    clock text, the completed-session count, the plant growth stage, the
    progress leaves and the mode label and colour. */
module TimerView {
  import opened Types
  import Pomodoro

  predicate IsDigit(c: char) {
    '0' <= c <= '9'
  }

  predicate AllDigits(s: string) {
    forall k :: 0 <= k < |s| ==> IsDigit(s[k])
  }

  function DigitChar(d: nat): (c: char)
    requires d < 10
    ensures IsDigit(c) && c as int - '0' as int == d
  {
    ('0' as int + d) as char
  }

  /** The decimal value of a string of digits. */
  function Value(s: string): nat
    requires AllDigits(s)
  {
    if s == [] then 0 else Value(s[..|s| - 1]) * 10 + (s[|s| - 1] as int - '0' as int)
  }

  /** `n.toString()` for a whole number: decimal, no leading zeros. */
  function Show(n: nat): (s: string)
    ensures AllDigits(s) && |s| >= 1
    ensures n < 10 ==> |s| == 1
    ensures 10 <= n < 100 ==> |s| == 2
    ensures |s| > 1 ==> s[0] != '0'
  {
    if n < 10 then [DigitChar(n)] else Show(n / 10) + [DigitChar(n % 10)]
  }

  /** Reading back what `Show` writes gives the number. */
  lemma {:induction false} ValueOfShow(n: nat)
    ensures Value(Show(n)) == n
  {
    if n >= 10 {
      var s := Show(n);
      assert s[..|s| - 1] == Show(n / 10);
      ValueOfShow(n / 10);
    }
  }

  /** `padStart(2, '0')`: left-pad with zeros to at least two characters. */
  function Pad2(s: string): (r: string)
    ensures |r| == if |s| >= 2 then |s| else 2
    ensures r[|r| - |s|..] == s
    ensures forall k :: 0 <= k < |r| - |s| ==> r[k] == '0'
  {
    if |s| >= 2 then s else seq(2 - |s|, _ => '0') + s
  }

  predicate AllZeros(z: string) {
    forall k :: 0 <= k < |z| ==> z[k] == '0'
  }

  /** Leading zeros do not change the value. */
  lemma {:induction false} ValueIgnoresLeadingZeros(z: string, s: string)
    requires AllZeros(z) && AllDigits(s)
    ensures AllDigits(z + s) && Value(z + s) == Value(s)
    decreases |s|
  {
    if s == [] {
      assert z + s == z;
      ZerosValue(z);
    } else {
      assert (z + s)[..|z + s| - 1] == z + s[..|s| - 1];
      ValueIgnoresLeadingZeros(z, s[..|s| - 1]);
    }
  }

  lemma {:induction false} ZerosValue(z: string)
    requires AllZeros(z)
    ensures AllDigits(z) && Value(z) == 0
    decreases |z|
  {
    if z != [] {
      ZerosValue(z[..|z| - 1]);
    }
  }

  /** Padding keeps the digits and their value. */
  lemma Pad2Value(s: string)
    requires AllDigits(s)
    ensures AllDigits(Pad2(s)) && Value(Pad2(s)) == Value(s)
  {
    var r := Pad2(s);
    if |s| < 2 {
      var z := r[..|r| - |s|];
      assert r == z + s;
      ValueIgnoresLeadingZeros(z, s);
    }
  }

  /** Minutes and seconds, each padded to two digits, joined by ':'. */
  function Clock(m: nat, sec: nat): (r: string)
    requires sec < 60
    ensures |r| >= 5 && r[|r| - 3] == ':'
    ensures m < 100 ==> |r| == 5
  {
    var mm, ss := Pad2(Show(m)), Pad2(Show(sec));
    assert |ss| == 2;
    var r := mm + ":" + ss;
    assert r[|r| - 3] == r[|mm|] == ':';
    r
  }

  /** `formatTime`: whole minutes and leftover seconds of the time left. */
  function FormatTime(seconds: nat): (r: string)
    ensures |r| >= 5 && r[|r| - 3] == ':'
    ensures seconds < 6000 ==> |r| == 5
  {
    SplitMinutes(seconds);
    Clock(seconds / 60, seconds % 60)
  }

  /** Whole minutes and leftover seconds. */
  lemma SplitMinutes(seconds: nat)
    ensures seconds / 60 * 60 + seconds % 60 == seconds
    ensures seconds % 60 < 60
    ensures seconds < 6000 ==> seconds / 60 < 100
  {
  }

  /** Reads `MM:SS` (at least two minute digits, exactly two second digits)
      back as a number of seconds. */
  function ParseTime(t: string): Option<nat> {
    if |t| >= 5 && t[|t| - 3] == ':' && AllDigits(t[..|t| - 3]) && AllDigits(t[|t| - 2..]) then
      Some(Value(t[..|t| - 3]) * 60 + Value(t[|t| - 2..]))
    else None
  }

  /** Cutting `MM:SS` back into its fields. */
  lemma SplitClock(mm: string, ss: string)
    requires |mm| >= 2 && |ss| == 2
    ensures var t := mm + ":" + ss;
            |t| >= 5 && t[|t| - 3] == ':' && t[..|t| - 3] == mm && t[|t| - 2..] == ss
  {
    var t := mm + ":" + ss;
    assert t[..|t| - 3] == mm;
    assert t[|t| - 2..] == ss;
  }

  /** Two digit fields joined by ':' parse back as minutes and seconds. */
  lemma JoinParses(mm: string, ss: string, m: nat, sec: nat)
    requires |mm| >= 2 && |ss| == 2 && AllDigits(mm) && AllDigits(ss)
    requires Value(mm) == m && Value(ss) == sec
    ensures var t := mm + ":" + ss;
            AllDigits(t[|t| - 2..]) && Value(t[|t| - 2..]) == sec
            && ParseTime(t) == Some(m * 60 + sec)
  {
    SplitClock(mm, ss);
  }

  /** The two fields of the clock text: the padded minutes and seconds,
      each all digits and reading back as its number. */
  lemma ClockFields(m: nat, sec: nat)
    requires sec < 60
    ensures var mm, ss := Pad2(Show(m)), Pad2(Show(sec));
            && Clock(m, sec) == mm + ":" + ss
            && |mm| >= 2 && |ss| == 2 && AllDigits(mm) && AllDigits(ss)
            && Value(mm) == m && Value(ss) == sec
  {
    Pad2Value(Show(m));
    ValueOfShow(m);
    Pad2Value(Show(sec));
    ValueOfShow(sec);
  }

  /** The clock text of a minutes/seconds pair reads back as its fields. */
  lemma ClockParses(m: nat, sec: nat)
    requires sec < 60
    ensures var t := Clock(m, sec);
            AllDigits(t[|t| - 2..]) && Value(t[|t| - 2..]) == sec
    ensures ParseTime(Clock(m, sec)) == Some(m * 60 + sec)
  {
    ClockFields(m, sec);
    JoinParses(Pad2(Show(m)), Pad2(Show(sec)), m, sec);
  }

  /** The clock text names exactly the time left, and its seconds field is
      always 00..59. */
  lemma FormatTimeRoundTrip(seconds: nat)
    ensures ParseTime(FormatTime(seconds)) == Some(seconds)
    ensures var t := FormatTime(seconds);
            AllDigits(t[|t| - 2..]) && Value(t[|t| - 2..]) < 60
  {
    var m, sec := seconds / 60, seconds % 60;
    SplitMinutes(seconds);
    assert FormatTime(seconds) == Clock(m, sec);
    ClockParses(m, sec);
    assert m * 60 + sec == seconds;
  }

  /** Focus sessions finished so far in the current cycle: during a break the
      focus session that led to it already counts. */
  function CompletedSessions(mode: Mode, sessionCount: int): (r: int)
    ensures (r == sessionCount) <==> mode != Focus
    ensures mode == Focus ==> r == sessionCount - 1
    ensures Pomodoro.PhaseOk(mode, sessionCount) ==> 0 <= r <= TotalSessionsBeforeLongBreak
    ensures Pomodoro.PhaseOk(mode, sessionCount) && mode == LongBreak ==> r == TotalSessionsBeforeLongBreak
  {
    if mode != Focus then sessionCount else sessionCount - 1
  }

  /** Over the cycle reached from mount the completed count climbs
      0, 1, 1, 2, 2, 3, 3, 4 and starts again: each focus session counts from
      the break that follows it until the next focus session ends. */
  lemma {:induction false} CompletedAlongCycle(n: nat)
    ensures CompletedSessions(Pomodoro.Phases(n).0, Pomodoro.Phases(n).1) == (n % 8 + 1) / 2
    decreases n
  {
    if n < 8 {
      Pomodoro.FirstCycle();
      assert Pomodoro.Phases(0) == (Focus, 1);
    } else {
      CompletedAlongCycle(n - 8);
      Pomodoro.PhasesPeriodic(n - 8);
      assert n % 8 == (n - 8) % 8;
    }
  }

  /** The plant's growth stage in focus mode. */
  function Stage(sessionCount: int): (r: int)
    ensures 1 <= r <= 4
    ensures 1 <= sessionCount <= 4 ==> r == sessionCount
    ensures sessionCount < 1 ==> r == 1
    ensures sessionCount > 4 ==> r == 4
  {
    var atLeastOne := if sessionCount > 1 then sessionCount else 1;
    if atLeastOne < 4 then atLeastOne else 4
  }

  /** The four progress leaves; leaf i (1..4) is filled when i <= completed. */
  function Leaves(completed: int): (r: seq<bool>)
    ensures |r| == 4
    ensures forall i, j :: 0 <= i < j < 4 && r[j] ==> r[i]
  {
    seq(4, k => k + 1 <= completed)
  }

  function CountFilled(leaves: seq<bool>): nat {
    if leaves == [] then 0 else (if leaves[0] then 1 else 0) + CountFilled(leaves[1..])
  }

  function Clamp(x: int, lo: int, hi: int): int
    requires lo <= hi
  {
    if x < lo then lo else if x > hi then hi else x
  }

  /** The number of filled leaves is the completed count, clamped to 0..4. */
  lemma FilledLeaves(completed: int)
    ensures CountFilled(Leaves(completed)) == Clamp(completed, 0, 4)
  {
    var l := Leaves(completed);
    assert l[1..][1..] == l[2..];
    assert l[2..][1..] == l[3..];
    assert l[3..][1..] == [];
    assert CountFilled(l[3..]) == (if l[3] then 1 else 0);
    assert CountFilled(l[2..]) == (if l[2] then 1 else 0) + CountFilled(l[3..]);
    assert CountFilled(l[1..]) == (if l[1] then 1 else 0) + CountFilled(l[2..]);
  }

  /** In every state the timer can reach, the leaves show the completed
      count itself. */
  lemma LeavesShowProgress(t: Pomodoro.Timer)
    requires Pomodoro.Inv(t)
    ensures var c := CompletedSessions(t.mode, t.sessionCount);
            CountFilled(Leaves(c)) == c
  {
    FilledLeaves(CompletedSessions(t.mode, t.sessionCount));
  }

  /** `getSessionLabel`; the "GROW" fallback is never produced. */
  function SessionLabel(mode: Mode): (r: string)
    ensures r != "GROW" && |r| > 0
  {
    match mode
    case Focus => "FOCUS TIME"
    case ShortBreak => "SHORT BREAK"
    case LongBreak => "LONG BREAK"
  }

  /** `getLabelColor`; the "bg-white" fallback is never produced. */
  function LabelColor(mode: Mode): (r: string)
    ensures r != "bg-white" && |r| > 0
  {
    match mode
    case Focus => "bg-neo-green"
    case ShortBreak => "bg-neo-yellow"
    case LongBreak => "bg-neo-pink"
  }

  /** Each mode has its own label and its own colour. */
  lemma LabelsDistinguishModes(m1: Mode, m2: Mode)
    requires m1 != m2
    ensures SessionLabel(m1) != SessionLabel(m2)
    ensures LabelColor(m1) != LabelColor(m2)
  {
    match m1
    case Focus => assert SessionLabel(m1)[0] == 'F';
    case ShortBreak => assert SessionLabel(m1)[0] == 'S';
    case LongBreak => assert SessionLabel(m1)[0] == 'L';
  }
}

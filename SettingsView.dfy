/** The settings screen (views/SettingsView.tsx): the record updates that
    the screen sends to the host, and the slider that shows a duration in
    whole minutes and only reports a change once the user lets go. */
module SettingsView {
  import opened Types

  /** `Math.floor(value / 60)`: a duration in seconds shown as whole minutes. */
  function PropMinutes(value: nat): (r: nat)
    ensures r * 60 <= value < (r + 1) * 60
  {
    value / 60
  }

  /** Minutes written back as seconds read as the same minutes. */
  lemma MinutesRoundTrip(minutes: nat)
    ensures PropMinutes(minutes * 60) == minutes
  {
  }

  /** `handleChange`: the new settings with the duration of `m` set to the
      chosen number of minutes. */
  function HandleChange(s: Settings, m: Mode, minutes: nat): (r: Settings)
    ensures Duration(r, m) == minutes * 60
    ensures forall m' :: m' != m ==> Duration(r, m') == Duration(s, m')
    ensures r.enableTickSound == s.enableTickSound
    ensures r.enableSessionEndSound == s.enableSessionEndSound
  {
    match m
    case Focus => s.(focus := minutes * 60)
    case ShortBreak => s.(shortBreak := minutes * 60)
    case LongBreak => s.(longBreak := minutes * 60)
  }

  /** Re-choosing the minutes already shown leaves the settings as they were
      exactly when the stored duration is a whole number of minutes. */
  lemma ChangeToShownMinutes(s: Settings, m: Mode)
    ensures HandleChange(s, m, PropMinutes(Duration(s, m))) == s <==> Duration(s, m) % 60 == 0
  {
    var r := HandleChange(s, m, PropMinutes(Duration(s, m)));
    if Duration(s, m) % 60 != 0 {
      assert Duration(r, m) != Duration(s, m);
    }
  }

  /** A later change of the same mode overrides an earlier one; changes of
      different modes commute. */
  lemma ChangesCompose(s: Settings, m1: Mode, a: nat, m2: Mode, b: nat)
    ensures m1 == m2 ==> HandleChange(HandleChange(s, m1, a), m2, b) == HandleChange(s, m2, b)
    ensures m1 != m2 ==>
      HandleChange(HandleChange(s, m1, a), m2, b) == HandleChange(HandleChange(s, m2, b), m1, a)
  {
  }

  /** The two sound checkboxes. */
  datatype SoundFlag = TickFlag | SessionEndFlag

  function Flag(s: Settings, key: SoundFlag): bool {
    match key
    case TickFlag => s.enableTickSound
    case SessionEndFlag => s.enableSessionEndSound
  }

  /** `handleToggle(key)` applied to a checkbox event: the named flag takes
      the checkbox state, nothing else changes. */
  function HandleToggle(s: Settings, key: SoundFlag, checked: bool): (r: Settings)
    ensures Flag(r, key) == checked
    ensures forall k :: k != key ==> Flag(r, k) == Flag(s, k)
    ensures forall m :: Duration(r, m) == Duration(s, m)
  {
    match key
    case TickFlag => s.(enableTickSound := checked)
    case SessionEndFlag => s.(enableSessionEndSound := checked)
  }

  /** Clicking a checkbox twice gives back the settings it started from. */
  lemma ToggleTwiceRestores(s: Settings, key: SoundFlag)
    ensures HandleToggle(HandleToggle(s, key, !Flag(s, key)), key, Flag(s, key)) == s
  {
  }

  /** The slider bounds, in minutes, per mode: every range is non-empty and
      no slider offers less than five minutes or more than an hour. */
  function SliderMin(m: Mode): (r: nat)
    ensures 5 <= r < SliderMax(m)
  {
    match m
    case Focus => 15
    case ShortBreak => 5
    case LongBreak => 5
  }

  function SliderMax(m: Mode): (r: nat)
    ensures r <= 60
  {
    match m
    case Focus => 60
    case ShortBreak => 10
    case LongBreak => 20
  }

  /** The default durations sit inside the slider ranges, on whole minutes. */
  lemma DefaultsFitSliders(m: Mode)
    ensures SliderMin(m) <= SliderMax(m)
    ensures SliderMin(m) <= PropMinutes(Duration(DefaultSettings, m)) <= SliderMax(m)
    ensures Duration(DefaultSettings, m) % 60 == 0
  {
  }

  /** One duration slider: `value` is the duration in seconds passed in by
      the screen, `localValue` the minutes shown while the user drags. */
  class Slider {
    const mode: Mode
    var value: nat
    var localValue: nat

    /** Mounting shows the passed duration in minutes. */
    constructor (mode: Mode, value: nat)
      ensures this.mode == mode && this.value == value
      ensures localValue == PropMinutes(value)
    {
      this.mode := mode;
      this.value := value;
      localValue := PropMinutes(value);
    }

    /** The shown minutes agree with the passed duration. */
    predicate InSync()
      reads this
    {
      localValue == PropMinutes(value)
    }

    /** The screen re-renders with a (possibly) new duration. The sync
        effect runs only when the whole-minute value changed; otherwise an
        uncommitted drag stays on screen. */
    method Receive(newValue: nat)
      modifies this
      ensures value == newValue
      ensures PropMinutes(newValue) != PropMinutes(old(value)) ==> localValue == PropMinutes(newValue)
      ensures PropMinutes(newValue) == PropMinutes(old(value)) ==> localValue == old(localValue)
      ensures PropMinutes(newValue) != PropMinutes(old(value)) ==> InSync()
    {
      var before := PropMinutes(value);
      value := newValue;
      if PropMinutes(newValue) != before {
        localValue := PropMinutes(newValue);
      }
    }

    /** `handleSlide`: dragging shows the new minutes without reporting them. */
    method Slide(minutes: nat)
      modifies this`localValue
      ensures localValue == minutes
    {
      localValue := minutes;
    }

    /** `handleCommit`: on release, the shown minutes are reported to the
        screen only when they differ from the passed duration. */
    method Commit() returns (change: Option<nat>)
      ensures change.Some? <==> !InSync()
      ensures change.Some? ==> change.value == localValue
    {
      if localValue != PropMinutes(value) {
        change := Some(localValue);
      } else {
        change := None;
      }
    }
  }

  /** A release reports the change, the screen rewrites the settings with
      it, and the slider receives the rewritten duration: afterwards the
      slider shows what was committed, it agrees with the settings, and a
      second release reports nothing. */
  method CommitRoundTrip(slider: Slider, s: Settings) returns (r: Settings, again: Option<nat>)
    requires slider.value == Duration(s, slider.mode)
    modifies slider
    ensures slider.localValue == old(slider.localValue)
    ensures slider.value == Duration(r, slider.mode)
    ensures slider.InSync()
    ensures again == None
    ensures old(slider.InSync()) ==> r == s
    ensures !old(slider.InSync()) ==> r == HandleChange(s, slider.mode, old(slider.localValue))
  {
    var change := slider.Commit();
    r := s;
    if change.Some? {
      r := HandleChange(s, slider.mode, change.value);
      MinutesRoundTrip(change.value);
    }
    slider.Receive(Duration(r, slider.mode));
    again := slider.Commit();
  }
}

/** Shared vocabulary of the focus timer: timer modes, timer settings,
    music tracks and the built-in track catalog (types.ts, constants.ts). */
module Types {

  datatype Option<+T> = None | Some(value: T)

  /** The three phases of the Pomodoro cycle. */
  datatype Mode = Focus | ShortBreak | LongBreak

  /** Durations are whole seconds per mode; two independent sound toggles. */
  datatype Settings = Settings(
    focus: nat,
    shortBreak: nat,
    longBreak: nat,
    enableTickSound: bool,
    enableSessionEndSound: bool)

  /** `settings[mode]`: the configured duration of a mode. */
  function Duration(s: Settings, m: Mode): nat {
    match m
    case Focus => s.focus
    case ShortBreak => s.shortBreak
    case LongBreak => s.longBreak
  }

  /** Focus sessions completed before the long break. */
  const TotalSessionsBeforeLongBreak: int := 4

  /** 25 / 5 / 15 minutes, both sounds on. */
  const DefaultSettings: Settings := Settings(25 * 60, 5 * 60, 15 * 60, true, true)

  datatype Category = Noise | Nature | Music

  datatype TrackKind = File | Synth

  /** A catalog entry. For a FILE track `src` locates the audio; for a SYNTH
      track it is a noise tag that is passed on as an opaque string. */
  datatype Track = Track(id: string, title: string, category: Category, src: string, kind: TrackKind)

  const Catalog: seq<Track> := [
    Track("white-noise", "White Noise", Noise, "./audio/white-noise.mp3", File),
    Track("pink-noise", "Pink Noise", Noise, "PINK_NOISE", Synth),
    Track("brown-noise", "Brown Noise", Noise, "./audio/soft-brown-noise.mp3", File),
    Track("rain", "Rain", Nature, "https://cdn.pixabay.com/download/audio/2022/07/04/audio_106f859582.mp3", File),
    Track("wind", "Wind", Nature, "https://cdn.pixabay.com/download/audio/2022/01/18/audio_d0a13f69d2.mp3", File),
    Track("waves", "Waves", Nature, "https://cdn.pixabay.com/download/audio/2021/08/09/audio_8ed41005eb.mp3", File),
    Track("forest", "Forest", Nature, "https://cdn.pixabay.com/download/audio/2021/09/06/audio_472f7e85c1.mp3", File),
    Track("lofi", "Lo-Fi", Music, "https://cdn.pixabay.com/download/audio/2022/05/27/audio_1808fbf07a.mp3", File),
    Track("classical", "Piano", Music, "https://cdn.pixabay.com/download/audio/2022/03/10/audio_c8c8a73467.mp3", File),
    Track("jazz", "Jazz", Music, "https://cdn.pixabay.com/download/audio/2022/01/12/audio_45fdf98d5b.mp3", File)
  ]

  /** No two tracks of a list share an id. */
  predicate DistinctIds(ts: seq<Track>) {
    forall i, j :: 0 <= i < j < |ts| ==> ts[i].id != ts[j].id
  }

  /** The catalog ids are pairwise distinct, so an id names one catalog track. */
  lemma CatalogIdsDistinct()
    ensures DistinctIds(Catalog)
    ensures forall t, u :: t in Catalog && u in Catalog && t.id == u.id ==> t == u
  {
    var tags := ["wh", "pi", "br", "ra", "wi", "wa", "fo", "lo", "cl", "ja"];
    forall k | 0 <= k < |Catalog|
      ensures |Catalog[k].id| >= 2 && Catalog[k].id[..2] == tags[k]
    {
    }
    forall i, j | 0 <= i < j < |Catalog|
      ensures Catalog[i].id != Catalog[j].id
    {
      assert tags[i] != tags[j];
    }
  }
}

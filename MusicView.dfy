/** The music screen (views/MusicView.tsx): category tabs, the track grid
    filtered by the active tab, and which tile is shown as playing. */
module MusicView {
  import opened Types

  /** The tabs, in display order. */
  const Tabs: seq<Category> := [Noise, Nature, Music]

  function TabLabel(c: Category): string {
    match c
    case Noise => "NOISE"
    case Nature => "NATURE"
    case Music => "MUSIC"
  }

  /** Every category has exactly one tab, and the tab labels differ. */
  lemma TabsCoverCategories()
    ensures forall c :: c in Tabs
    ensures forall i, j :: 0 <= i < j < |Tabs| ==> Tabs[i] != Tabs[j]
    ensures forall i, j :: 0 <= i < j < |Tabs| ==> TabLabel(Tabs[i]) != TabLabel(Tabs[j])
  {
    assert Tabs[0] == Noise && Tabs[1] == Nature && Tabs[2] == Music;
    assert TabLabel(Noise)[1] == 'O' && TabLabel(Nature)[1] == 'A' && TabLabel(Music)[1] == 'U';
    forall c: Category
      ensures c in Tabs
    {
      match c
      case Noise => assert Tabs[0] == c;
      case Nature => assert Tabs[1] == c;
      case Music => assert Tabs[2] == c;
    }
  }

  /** `tracks.filter(track => track.category === c)`. */
  function FilterTracks(tracks: seq<Track>, c: Category): (r: seq<Track>)
    ensures |r| <= |tracks|
    ensures forall t :: t in r <==> t in tracks && t.category == c
  {
    if tracks == [] then []
    else if tracks[0].category == c then [tracks[0]] + FilterTracks(tracks[1..], c)
    else FilterTracks(tracks[1..], c)
  }

  /** `sub` is `s` with some elements dropped and the rest kept in order. */
  predicate IsSubsequence(sub: seq<Track>, s: seq<Track>)
    decreases |s|
  {
    if sub == [] then true
    else if s == [] then false
    else if sub[0] == s[0] then IsSubsequence(sub[1..], s[1..])
    else IsSubsequence(sub, s[1..])
  }

  /** The filter keeps the catalog order. */
  lemma {:induction false} FilterKeepsOrder(tracks: seq<Track>, c: Category)
    ensures IsSubsequence(FilterTracks(tracks, c), tracks)
  {
    if tracks != [] {
      FilterKeepsOrder(tracks[1..], c);
      var rest := FilterTracks(tracks[1..], c);
      if tracks[0].category == c {
        assert FilterTracks(tracks, c)[1..] == rest;
      } else {
        SkipHead(rest, tracks);
      }
    }
  }

  /** Dropping the head of `s` keeps a subsequence of the tail a subsequence. */
  lemma {:induction false} SkipHead(sub: seq<Track>, s: seq<Track>)
    requires s != [] && IsSubsequence(sub, s[1..])
    ensures IsSubsequence(sub, s)
    decreases |s|, |sub|
  {
    if sub != [] && sub[0] == s[0] {
      SubsequenceOfTail(sub, s[1..]);
    }
  }

  /** A subsequence of `s` with its head removed is still a subsequence of `s`. */
  lemma {:induction false} SubsequenceOfTail(sub: seq<Track>, s: seq<Track>)
    requires sub != [] && IsSubsequence(sub, s)
    ensures IsSubsequence(sub[1..], s)
    decreases |s|, |sub|
  {
    if sub[0] == s[0] {
      if sub[1..] != [] {
        SubsequenceOfTail(sub[1..], s[1..]);
        SkipHead(sub[1..], s);
      }
    } else {
      SubsequenceOfTail(sub, s[1..]);
      SkipHead(sub[1..], s);
    }
  }

  /** How often `t` occurs in `ts`. */
  function Occurrences(ts: seq<Track>, t: Track): nat {
    if ts == [] then 0 else (if ts[0] == t then 1 else 0) + Occurrences(ts[1..], t)
  }

  lemma {:induction false} NoOccurrence(ts: seq<Track>, t: Track)
    requires t !in ts
    ensures Occurrences(ts, t) == 0
  {
    if ts != [] {
      NoOccurrence(ts[1..], t);
    }
  }

  /** In a list with distinct ids each member occurs once. */
  lemma {:induction false} DistinctOccursOnce(ts: seq<Track>, t: Track)
    requires DistinctIds(ts) && t in ts
    ensures Occurrences(ts, t) == 1
  {
    if ts[0] == t {
      assert t !in ts[1..] by {
        forall k | 0 <= k < |ts[1..]|
          ensures ts[1..][k] != t
        {
          assert ts[1..][k] == ts[k + 1];
        }
      }
      NoOccurrence(ts[1..], t);
    } else {
      assert DistinctIds(ts[1..]) by {
        forall i, j | 0 <= i < j < |ts[1..]|
          ensures ts[1..][i].id != ts[1..][j].id
        {
          assert ts[1..][i] == ts[i + 1] && ts[1..][j] == ts[j + 1];
        }
      }
      DistinctOccursOnce(ts[1..], t);
    }
  }

  /** Filtering a list with distinct ids keeps them distinct. */
  lemma {:induction false} FilterKeepsDistinct(tracks: seq<Track>, c: Category)
    requires DistinctIds(tracks)
    ensures DistinctIds(FilterTracks(tracks, c))
  {
    if tracks != [] {
      var tail := tracks[1..];
      assert DistinctIds(tail) by {
        forall i, j | 0 <= i < j < |tail|
          ensures tail[i].id != tail[j].id
        {
          assert tail[i] == tracks[i + 1] && tail[j] == tracks[j + 1];
        }
      }
      FilterKeepsDistinct(tail, c);
      var rest := FilterTracks(tail, c);
      if tracks[0].category == c {
        var r := FilterTracks(tracks, c);
        assert r == [tracks[0]] + rest;
        forall j | 0 < j < |r|
          ensures r[0].id != r[j].id
        {
          assert r[j] == rest[j - 1];
          assert rest[j - 1] in tail;
          var k :| 0 <= k < |tail| && tail[k] == rest[j - 1];
          assert tail[k] == tracks[k + 1];
        }
      }
    }
  }

  /** The grid of a tab: every catalog track of that category, each exactly
      once, in catalog order, and nothing else. */
  lemma GridOfTab(c: Category)
    ensures forall t :: t in FilterTracks(Catalog, c) <==> t in Catalog && t.category == c
    ensures forall t :: t in Catalog && t.category == c ==> Occurrences(FilterTracks(Catalog, c), t) == 1
    ensures IsSubsequence(FilterTracks(Catalog, c), Catalog)
  {
    CatalogIdsDistinct();
    FilterOfDistinct(Catalog, c);
  }

  /** The filter of a list with distinct ids holds each matching track
      exactly once, in list order. */
  lemma FilterOfDistinct(tracks: seq<Track>, c: Category)
    requires DistinctIds(tracks)
    ensures forall t :: t in tracks && t.category == c ==> Occurrences(FilterTracks(tracks, c), t) == 1
    ensures IsSubsequence(FilterTracks(tracks, c), tracks)
  {
    var r := FilterTracks(tracks, c);
    FilterKeepsDistinct(tracks, c);
    FilterKeepsOrder(tracks, c);
    forall t | t in tracks && t.category == c
      ensures Occurrences(r, t) == 1
    {
      DistinctOccursOnce(r, t);
    }
  }

  /** The "NO TRACKS FOUND" placeholder is shown exactly when the grid is empty. */
  function NoTracksFound(filtered: seq<Track>): (r: bool)
    ensures r <==> forall t :: t !in filtered
  {
    if filtered == [] then true else assert filtered[0] in filtered; false
  }

  /** With the built-in catalog no tab ever shows the placeholder. */
  lemma EveryTabHasTracks(c: Category)
    ensures !NoTracksFound(FilterTracks(Catalog, c))
  {
    var sample := match c
      case Noise => Catalog[0]
      case Nature => Catalog[3]
      case Music => Catalog[7];
    assert sample in Catalog && sample.category == c;
  }

  /** `isCurrent && isPlaying`: the tile of `t` is shown as playing. */
  function IsTrackPlaying(current: Option<Track>, isPlaying: bool, t: Track): (r: bool)
    ensures r ==> current.Some? && isPlaying
    ensures current.Some? && isPlaying && current.value == t ==> r
  {
    current.Some? && current.value.id == t.id && isPlaying
  }

  /** Over the catalog at most one tile is shown as playing, and it is the
      current track's own tile. */
  lemma AtMostOneTilePlaying(current: Option<Track>, isPlaying: bool, t: Track, u: Track)
    requires current.Some? && current.value in Catalog
    requires t in Catalog && u in Catalog
    ensures IsTrackPlaying(current, isPlaying, t) ==> t == current.value
    ensures IsTrackPlaying(current, isPlaying, t) && IsTrackPlaying(current, isPlaying, u) ==> t == u
  {
    CatalogIdsDistinct();
  }

  /** The "PLAYING:" footer. */
  predicate ShowsFooter(current: Option<Track>, isPlaying: bool) {
    current.Some? && isPlaying
  }

  /** While the footer is up, the current track's tile is lit on the tab of
      its category and on no other tab. */
  lemma FooterMatchesGrid(current: Option<Track>, isPlaying: bool, c: Category)
    requires current.Some? && current.value in Catalog
    requires ShowsFooter(current, isPlaying)
    ensures (exists t :: t in FilterTracks(Catalog, c) && IsTrackPlaying(current, isPlaying, t))
            <==> c == current.value.category
  {
    CatalogIdsDistinct();
    if c == current.value.category {
      assert current.value in FilterTracks(Catalog, c);
      assert IsTrackPlaying(current, isPlaying, current.value);
    }
  }

  /** The screen's own state: the selected tab. */
  class View {
    var activeCategory: Category

    /** The screen opens on the NOISE tab. */
    constructor ()
      ensures activeCategory == Noise
    {
      activeCategory := Noise;
    }

    /** The tracks shown on the grid. */
    function Grid(): (r: seq<Track>)
      reads this
      ensures forall t :: t in r <==> t in Catalog && t.category == activeCategory
    {
      FilterTracks(Catalog, activeCategory)
    }

    /** Clicking a tab selects its category. */
    method SelectTab(i: nat)
      requires i < |Tabs|
      modifies this
      ensures activeCategory == Tabs[i]
      ensures Grid() == FilterTracks(Catalog, Tabs[i])
    {
      activeCategory := Tabs[i];
    }
  }
}

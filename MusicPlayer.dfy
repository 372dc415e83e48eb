/** The music playback controller (hooks/useMusicPlayer.ts).

    Audio objects are modelled by value: every file element and every
    synthesized source/gain pair the controller ever created is kept in a
    table, and the controller's three references are indices into those
    tables, so that an element whose reference has been overwritten still
    exists (and may still play). Creating a noise source is an opaque call
    whose success is a parameter; the asynchronous outcomes of starting a file
    (the start resolving, being rejected, a load error) are separate events
    that the environment may fire for any file element at any later time. */
module MusicPlayer {
  import opened Types

  datatype Status = Playing | Paused | Released

  /** An audio file element. `armed` is true while a start is pending: the
      one-shot ready listener is registered or its start has not settled.
      `failed` records a load error; an element in that state stays silent,
      whatever `play()` is asked of it. */
  datatype FileHandle = FileHandle(src: string, loop: bool, volume: real, status: Status, position: nat, armed: bool, failed: bool)

  /** A synthesized buffer source together with its gain node. */
  datatype SynthNode = SynthNode(src: string, source: Status, gainConnected: bool)

  datatype Player = Player(
    currentTrack: Option<Track>,
    isPlaying: bool,
    files: seq<FileHandle>,
    fileRef: Option<nat>,
    synths: seq<SynthNode>,
    sourceRef: Option<nat>,
    gainRef: Option<nat>)

  /** The references point at elements that exist. */
  predicate Wf(p: Player) {
    && (p.fileRef.Some? ==> p.fileRef.value < |p.files|)
    && (p.sourceRef.Some? ==> p.sourceRef.value < |p.synths|)
    && (p.gainRef.Some? ==> p.gainRef.value < |p.synths|)
  }

  const Idle: Player := Player(None, false, [], None, [], None, None)

  const FileVolume: real := 0.7

  /** A new file element for a track: looping, at the fixed volume, with its
      start pending. */
  function NewFileHandle(t: Track): (h: FileHandle)
    ensures h.status != Playing && h.armed && !h.failed && h.position == 0
    ensures h.src == t.src && h.loop && h.volume == FileVolume
  {
    FileHandle(t.src, true, FileVolume, Paused, 0, true, false)
  }

  predicate SameTrack(p: Player, t: Track) {
    p.currentTrack.Some? && p.currentTrack.value.id == t.id
  }

  /** Some file element is playing. */
  predicate FileAudible(p: Player) {
    exists i :: 0 <= i < |p.files| && p.files[i].status == Playing
  }

  /** Some synthesized source is live. */
  predicate SynthLive(p: Player) {
    exists j :: 0 <= j < |p.synths| && p.synths[j].source == Playing
  }

  /** The exclusivity invariant: never a live synth source alongside a
      playing file, and never two playing files. */
  predicate Exclusive(p: Player) {
    && !(FileAudible(p) && SynthLive(p))
    && (forall i, k :: 0 <= i < k < |p.files| ==> p.files[i].status != Playing || p.files[k].status != Playing)
  }

  /** `stopAll`: pause and rewind the file element but keep the reference;
      stop, disconnect and drop the synth source and gain; not playing. */
  function Stopped(p: Player): (r: Player)
    requires Wf(p)
    ensures Wf(r) && !r.isPlaying
    ensures r.currentTrack == p.currentTrack && r.fileRef == p.fileRef
    ensures r.sourceRef.None? && r.gainRef.None?
    ensures |r.files| == |p.files| && |r.synths| == |p.synths|
    ensures forall i :: 0 <= i < |p.files| ==>
      r.files[i] == if p.fileRef == Some(i) then p.files[i].(status := Paused, position := 0) else p.files[i]
    ensures forall j :: 0 <= j < |p.synths| ==>
      && r.synths[j].src == p.synths[j].src
      && r.synths[j].source == (if p.sourceRef == Some(j) then Released else p.synths[j].source)
      && r.synths[j].gainConnected == (p.synths[j].gainConnected && p.gainRef != Some(j))
  {
    var files :=
      if p.fileRef.Some? then
        p.files[p.fileRef.value := p.files[p.fileRef.value].(status := Paused, position := 0)]
      else p.files;
    var synths :=
      if p.sourceRef.Some? then
        p.synths[p.sourceRef.value := p.synths[p.sourceRef.value].(source := Released)]
      else p.synths;
    var synths' :=
      if p.gainRef.Some? then
        synths[p.gainRef.value := synths[p.gainRef.value].(gainConnected := false)]
      else synths;
    p.(isPlaying := false, files := files, synths := synths', sourceRef := None, gainRef := None)
  }

  /** Stopping is idempotent: a second stop with nothing active changes
      nothing. */
  lemma StoppedIdempotent(p: Player)
    requires Wf(p)
    ensures Stopped(Stopped(p)) == Stopped(p)
  {
    var q := Stopped(p);
    var r := Stopped(q);
    assert r.files == q.files;
    assert r.synths == q.synths;
  }

  /** Pause the current file element in place, keeping its position. */
  function PausedInPlace(p: Player): (r: Player)
    requires Wf(p) && p.fileRef.Some?
    ensures Wf(r) && !r.isPlaying
    ensures r == p.(files := r.files, isPlaying := false)
    ensures r.files == p.files[p.fileRef.value := p.files[p.fileRef.value].(status := Paused)]
  {
    var i := p.fileRef.value;
    p.(files := p.files[i := p.files[i].(status := Paused)], isPlaying := false)
  }

  /** Resume the current file element in place, as written: `play()` is
      called and the flag is raised at once. An element that failed to load
      rejects the `play()`, so it stays silent under a raised flag. */
  function ResumedAsWritten(p: Player): (r: Player)
    requires Wf(p) && p.fileRef.Some?
    ensures Wf(r) && r.isPlaying
    ensures r == p.(files := r.files, isPlaying := true)
    ensures r.files == if p.files[p.fileRef.value].failed then p.files
                       else p.files[p.fileRef.value := p.files[p.fileRef.value].(status := Playing)]
  {
    var i := p.fileRef.value;
    if p.files[i].failed then p.(isPlaying := true)
    else p.(files := p.files[i := p.files[i].(status := Playing)], isPlaying := true)
  }

  /** Resume the current file element in place, from where it was paused;
      corrected: the flag goes up only when the element can play. */
  function Resumed(p: Player): (r: Player)
    requires Wf(p) && p.fileRef.Some?
    ensures Wf(r) && (r.isPlaying <==> !p.files[p.fileRef.value].failed)
    ensures r == p.(files := r.files, isPlaying := r.isPlaying)
    ensures r.files == if p.files[p.fileRef.value].failed then p.files
                       else p.files[p.fileRef.value := p.files[p.fileRef.value].(status := Playing)]
  {
    var i := p.fileRef.value;
    if p.files[i].failed then p.(isPlaying := false)
    else p.(files := p.files[i := p.files[i].(status := Playing)], isPlaying := true)
  }

  /** Drop the pending start of the referenced file element: its one-shot
      ready listener is removed, so a later outcome of that start is
      ignored. */
  function Cancelled(p: Player): (r: Player)
    requires Wf(p)
    ensures Wf(r) && r == p.(files := r.files) && |r.files| == |p.files| && Persists(p, r)
    ensures p.fileRef.Some? ==> !r.files[p.fileRef.value].armed
    ensures forall i :: 0 <= i < |p.files| ==>
      r.files[i] == if p.fileRef == Some(i) then p.files[i].(armed := false) else p.files[i]
  {
    if p.fileRef.Some? then
      p.(files := p.files[p.fileRef.value := p.files[p.fileRef.value].(armed := false)])
    else p
  }

  /** Start a track on a stopped controller: a FILE track gets a new element
      whose start is pending; a SYNTH track gets the factory's source and
      gain, started at once, if the factory returned them. */
  function Started(q: Player, t: Track, noiseCreated: bool): (r: Player)
    requires Wf(q) && q.sourceRef.None? && q.gainRef.None? && !q.isPlaying
    ensures Wf(r) && r.currentTrack == Some(t)
    ensures |r.files| >= |q.files| && |r.synths| >= |q.synths|
    ensures r.files[..|q.files|] == q.files && r.synths[..|q.synths|] == q.synths
    ensures t.kind == File ==>
      && r.files == q.files + [NewFileHandle(t)] && r.fileRef == Some(|q.files|)
      && r.synths == q.synths && !r.isPlaying && r.sourceRef.None? && r.gainRef.None?
    ensures t.kind == Synth ==> r.files == q.files && r.fileRef == q.fileRef
    ensures t.kind == Synth ==> (r.isPlaying <==> noiseCreated)
    ensures t.kind == Synth && noiseCreated ==>
      && r.synths == q.synths + [SynthNode(t.src, Playing, true)]
      && r.sourceRef == Some(|q.synths|) && r.gainRef == r.sourceRef
    ensures t.kind == Synth && !noiseCreated ==> r == q.(currentTrack := Some(t))
  {
    var q := q.(currentTrack := Some(t));
    match t.kind
    case File =>
      q.(files := q.files + [NewFileHandle(t)], fileRef := Some(|q.files|))
    case Synth =>
      if noiseCreated then
        q.(synths := q.synths + [SynthNode(t.src, Playing, true)],
           sourceRef := Some(|q.synths|), gainRef := Some(|q.synths|), isPlaying := true)
      else q
  }

  /** `playTrack`, given whether the opaque noise-source factory returned a
      source (it is only consulted when a SYNTH track is (re)started). */
  function Played(p: Player, t: Track, noiseCreated: bool): (r: Player)
    requires Wf(p)
    ensures Wf(r) && Persists(p, r)
    // the current track, playing: pause it (a SYNTH source is torn down)
    ensures SameTrack(p, t) && p.isPlaying ==>
      && !r.isPlaying && r.currentTrack == p.currentTrack
      && (t.kind == Synth ==> r == Stopped(p))
      && (t.kind == File && p.fileRef.Some? ==> r == Cancelled(PausedInPlace(p)))
    // the current FILE track, paused: resume the same element in place
    ensures SameTrack(p, t) && !p.isPlaying && t.kind == File && p.fileRef.Some? ==>
      r == Resumed(p) && r.currentTrack == p.currentTrack
    // anything else: stop everything first, then start the requested track
    ensures !(SameTrack(p, t) && (p.isPlaying || (t.kind == File && p.fileRef.Some?))) ==>
      r == Started(Stopped(p), t, noiseCreated) && r.currentTrack == Some(t)
  {
    if SameTrack(p, t) && p.isPlaying then
      if t.kind == File && p.fileRef.Some? then Cancelled(PausedInPlace(p))
      else if t.kind == Synth then Stopped(p)
      else p.(isPlaying := false)
    else if SameTrack(p, t) && t.kind == File && p.fileRef.Some? then
      Resumed(p)
    else
      Started(Stopped(p), t, noiseCreated)
  }

  // ---- File start outcomes, as the source handles them ----

  /** The start of element h resolved: it plays and the flag is raised, even
      when h has been superseded since the start was requested. */
  function StartResolvedAsWritten(p: Player, h: nat): (r: Player)
    requires Wf(p) && h < |p.files|
    ensures Wf(r) && |r.files| == |p.files|
    ensures r == p.(files := r.files, isPlaying := r.isPlaying)
    ensures forall i :: 0 <= i < |p.files| && i != h ==> r.files[i] == p.files[i]
    ensures p.files[h].armed ==> r.isPlaying && r.files[h] == p.files[h].(status := Playing, armed := false)
    ensures !p.files[h].armed ==> r == p
  {
    if p.files[h].armed then
      p.(files := p.files[h := p.files[h].(status := Playing, armed := false)], isPlaying := true)
    else p
  }

  /** The start of element h was rejected: the flag is cleared whatever is
      playing now. */
  function StartRejectedAsWritten(p: Player, h: nat): (r: Player)
    requires Wf(p) && h < |p.files|
    ensures Wf(r) && |r.files| == |p.files|
    ensures r == p.(files := r.files, isPlaying := r.isPlaying)
    ensures forall i :: 0 <= i < |p.files| && i != h ==> r.files[i] == p.files[i]
    ensures p.files[h].armed ==> !r.isPlaying && r.files[h] == p.files[h].(status := Paused, armed := false)
    ensures !p.files[h].armed ==> r == p
  {
    if p.files[h].armed then
      p.(files := p.files[h := p.files[h].(status := Paused, armed := false)], isPlaying := false)
    else p
  }

  /** Element h failed to load: the flag is cleared whatever is playing now. */
  function LoadFailedAsWritten(p: Player, h: nat): (r: Player)
    requires Wf(p) && h < |p.files|
    ensures Wf(r) && |r.files| == |p.files| && !r.isPlaying
    ensures r == p.(files := r.files, isPlaying := false)
    ensures forall i :: 0 <= i < |p.files| && i != h ==> r.files[i] == p.files[i]
    ensures r.files[h] == p.files[h].(status := Paused, armed := false, failed := true)
  {
    p.(files := p.files[h := p.files[h].(status := Paused, armed := false, failed := true)], isPlaying := false)
  }

  /** A file start that is still pending when the user switches to a SYNTH
      track plays the file next to the synthesized source. */
  lemma StaleStartOverlapsSynth()
    ensures var p1 := Played(Idle, Catalog[0], false);
            var p2 := Played(p1, Catalog[1], true);
            var p3 := StartResolvedAsWritten(p2, 0);
            FileAudible(p3) && SynthLive(p3) && !Exclusive(p3)
  {
    var p1 := Played(Idle, Catalog[0], false);
    assert p1.files == [NewFileHandle(Catalog[0])];
    var p2 := Played(p1, Catalog[1], true);
    assert p2.files[0].armed && p2.synths[0].source == Playing;
    var p3 := StartResolvedAsWritten(p2, 0);
    assert p3.files[0].status == Playing && p3.synths[0].source == Playing;
  }

  /** A file start still pending when the user switches to another FILE track
      leaves an element playing that no reference reaches: stopping the
      controller no longer silences it. */
  lemma StaleStartOrphansFile()
    ensures var p1 := Played(Idle, Catalog[0], false);
            var p2 := Played(p1, Catalog[3], false);
            var p3 := StartResolvedAsWritten(p2, 0);
            var p4 := Stopped(p3);
            p3.fileRef == Some(1) && p3.files[0].status == Playing && p4.files[0].status == Playing
  {
    var p1 := Played(Idle, Catalog[0], false);
    assert p1.files == [NewFileHandle(Catalog[0])];
    assert Catalog[0].id[0] != Catalog[3].id[0];
    assert !SameTrack(p1, Catalog[3]);
    var p2 := Played(p1, Catalog[3], false);
    assert p2.files[0].armed && p2.fileRef == Some(1);
    var p3 := StartResolvedAsWritten(p2, 0);
    assert p3.files[0].status == Playing && p3.fileRef == Some(1);
    assert Stopped(p3).files[0] == p3.files[0];
  }

  /** A load error of an element that has been superseded by a playing synth
      track reports "not playing" while the synthesized source is live. */
  lemma StaleErrorHidesPlayback()
    ensures var p1 := Played(Idle, Catalog[0], false);
            var p2 := Played(p1, Catalog[1], true);
            var p3 := LoadFailedAsWritten(p2, 0);
            SynthLive(p3) && !p3.isPlaying
  {
    var p1 := Played(Idle, Catalog[0], false);
    assert p1.files == [NewFileHandle(Catalog[0])];
    var p2 := Played(p1, Catalog[1], true);
    var p3 := LoadFailedAsWritten(p2, 0);
    assert p3.synths[0].source == Playing;
  }

  /** A rejected start of an element that has been superseded by a playing
      synth track reports "not playing" while the synthesized source is
      live. */
  lemma StaleRejectionHidesPlayback()
    ensures var p1 := Played(Idle, Catalog[0], false);
            var p2 := Played(p1, Catalog[1], true);
            var p3 := StartRejectedAsWritten(p2, 0);
            SynthLive(p3) && !p3.isPlaying
  {
    var p1 := Played(Idle, Catalog[0], false);
    assert p1.files == [NewFileHandle(Catalog[0])];
    var p2 := Played(p1, Catalog[1], true);
    assert p2.files[0].armed;
    var p3 := StartRejectedAsWritten(p2, 0);
    assert p3.synths[0].source == Playing;
  }

  /** Stopping, or pausing by a second click, leaves the element's ready
      listener registered: when the pending start then resolves, the element
      plays and the flag goes up again, even with the corrected handlers. */
  lemma PendingStartOutlivesStop()
    ensures var p1 := Played(Idle, Catalog[0], false);
            var p2 := Stopped(p1);
            var p3 := StartResolvedAsWritten(p2, 0);
            !p2.isPlaying && p3.isPlaying && FileAudible(p3) && StartResolved(p2, 0) == p3
    ensures var p1 := Played(Idle, Catalog[0], false);
            var q1 := Played(p1, Catalog[0], false);
            var q2 := PausedInPlace(q1);
            var q3 := StartResolvedAsWritten(q2, 0);
            q1.isPlaying && !q2.isPlaying && q3.isPlaying && FileAudible(q3)
  {
    var p1 := Played(Idle, Catalog[0], false);
    assert p1.files == [NewFileHandle(Catalog[0])] && p1.fileRef == Some(0);
    var p2 := Stopped(p1);
    assert p2.files[0].armed;
    var p3 := StartResolvedAsWritten(p2, 0);
    assert p3.files[0].status == Playing;
    var q1 := Played(p1, Catalog[0], false);
    assert q1 == Resumed(p1);
    var q2 := PausedInPlace(q1);
    assert q2.files[0].armed;
    var q3 := StartResolvedAsWritten(q2, 0);
    assert q3.files[0].status == Playing;
  }

  /** After a load error, clicking the track again resumes the failed
      element as written: the flag goes up while nothing can be heard. The
      corrected resume keeps the flag down. */
  lemma RetryAfterErrorShowsPlaying()
    ensures var p1 := Played(Idle, Catalog[3], false);
            var p2 := LoadFailedAsWritten(p1, 0);
            var p3 := ResumedAsWritten(p2);
            p3.isPlaying && !FileAudible(p3) && !SynthLive(p3)
    ensures var p1 := Played(Idle, Catalog[3], false);
            !Played(LoadFailed(p1, 0), Catalog[3], false).isPlaying
  {
    var p1 := Played(Idle, Catalog[3], false);
    assert p1.files == [NewFileHandle(Catalog[3])] && p1.fileRef == Some(0);
    var p2 := LoadFailedAsWritten(p1, 0);
    assert p2.files[0].failed && p2.files[0].status == Paused;
    var p3 := ResumedAsWritten(p2);
    assert p3.files == p2.files;
    var c := LoadFailed(p1, 0);
    assert c.files[0].failed;
    assert Played(c, Catalog[3], false) == Resumed(c);
  }

  // ---- File start outcomes, corrected: callbacks of a superseded element are ignored ----

  /** Element h is the element of the current FILE track. */
  predicate IsCurrentFile(p: Player, h: nat) {
    p.fileRef == Some(h) && p.currentTrack.Some? && p.currentTrack.value.kind == File
  }

  function StartResolved(p: Player, h: nat): (r: Player)
    requires Wf(p) && h < |p.files|
    ensures Wf(r) && Persists(p, r) && |r.files| == |p.files| && !r.files[h].armed
    ensures r == p.(files := r.files, isPlaying := r.isPlaying)
    ensures forall i :: 0 <= i < |p.files| && i != h ==> r.files[i] == p.files[i]
    ensures r.files[h] == p.files[h].(status := r.files[h].status, armed := false)
    ensures p.files[h].armed && IsCurrentFile(p, h) ==> r.isPlaying && r.files[h].status == Playing
    ensures !(p.files[h].armed && IsCurrentFile(p, h)) ==> r.isPlaying == p.isPlaying && r.files[h].status == p.files[h].status
    ensures !IsCurrentFile(p, h) ==> r == p.(files := p.files[h := p.files[h].(armed := false)])
  {
    if !p.files[h].armed then p
    else if IsCurrentFile(p, h) then
      p.(files := p.files[h := p.files[h].(status := Playing, armed := false)], isPlaying := true)
    else
      p.(files := p.files[h := p.files[h].(armed := false)])
  }

  function StartRejected(p: Player, h: nat): (r: Player)
    requires Wf(p) && h < |p.files|
    ensures Wf(r) && Persists(p, r) && |r.files| == |p.files| && !r.files[h].armed
    ensures r == p.(files := r.files, isPlaying := r.isPlaying)
    ensures forall i :: 0 <= i < |p.files| && i != h ==> r.files[i] == p.files[i]
    ensures r.files[h] == p.files[h].(status := r.files[h].status, armed := false)
    ensures p.files[h].armed && IsCurrentFile(p, h) ==> !r.isPlaying && r.files[h].status == Paused
    ensures !(p.files[h].armed && IsCurrentFile(p, h)) ==> r.isPlaying == p.isPlaying && r.files[h].status == p.files[h].status
    ensures !IsCurrentFile(p, h) ==> r == p.(files := p.files[h := p.files[h].(armed := false)])
  {
    if !p.files[h].armed then p
    else if IsCurrentFile(p, h) then
      p.(files := p.files[h := p.files[h].(status := Paused, armed := false)], isPlaying := false)
    else
      p.(files := p.files[h := p.files[h].(armed := false)])
  }

  function LoadFailed(p: Player, h: nat): (r: Player)
    requires Wf(p) && h < |p.files|
    ensures Wf(r) && Persists(p, r) && |r.files| == |p.files|
    ensures r == p.(files := r.files, isPlaying := r.isPlaying)
    ensures forall i :: 0 <= i < |p.files| && i != h ==> r.files[i] == p.files[i]
    ensures r.files[h] == p.files[h].(status := Paused, armed := false, failed := true)
    ensures r.isPlaying == (p.isPlaying && !IsCurrentFile(p, h))
  {
    var files := p.files[h := p.files[h].(status := Paused, armed := false, failed := true)];
    if IsCurrentFile(p, h) then p.(files := files, isPlaying := false) else p.(files := files)
  }

  /** A playing element advances its playback position. */
  function Elapsed(p: Player, h: nat, d: nat): (r: Player)
    requires Wf(p) && h < |p.files|
    ensures Wf(r) && Persists(p, r) && |r.files| == |p.files| && r == p.(files := r.files)
    ensures forall i :: 0 <= i < |p.files| && i != h ==> r.files[i] == p.files[i]
    ensures r.files[h] == p.files[h].(position := p.files[h].position + if p.files[h].status == Playing then d else 0)
  {
    if p.files[h].status == Playing then
      p.(files := p.files[h := p.files[h].(position := p.files[h].position + d)])
    else p
  }

  // ---- The controller invariant ----

  /** Only the element of the current FILE track can play, only the
      referenced synth source is live (and it belongs to the current SYNTH
      track), and the flag says whether anything is audible. */
  ghost predicate Consistent(p: Player)
    ensures Consistent(p) ==> Exclusive(p)
  {
    && Wf(p)
    && p.sourceRef == p.gainRef
    && (p.currentTrack.Some? ==> p.currentTrack.value in Catalog)
    && (p.currentTrack.Some? && p.currentTrack.value.kind == File ==> p.fileRef.Some?)
    && (forall i :: 0 <= i < |p.files| && p.files[i].status == Playing ==> IsCurrentFile(p, i))
    && (forall j :: 0 <= j < |p.synths| ==>
          (p.synths[j].source != Released <==> p.sourceRef == Some(j))
          && (p.synths[j].source != Released ==> p.synths[j].source == Playing)
          && (p.synths[j].gainConnected <==> p.sourceRef == Some(j)))
    && (p.sourceRef.Some? ==> p.currentTrack.Some? && p.currentTrack.value.kind == Synth)
    && (p.isPlaying <==> FileAudible(p) || SynthLive(p))
  }

  lemma IdleConsistent()
    ensures Consistent(Idle)
  {
  }

  lemma StoppedSilences(p: Player)
    requires Consistent(p)
    ensures Consistent(Stopped(p))
    ensures !FileAudible(Stopped(p)) && !SynthLive(Stopped(p))
  {
    var r := Stopped(p);
    forall i | 0 <= i < |r.files| ensures r.files[i].status != Playing {
      if p.fileRef != Some(i) {
        assert r.files[i] == p.files[i];
        assert !IsCurrentFile(p, i);
      }
    }
  }

  lemma PausedInPlaceKeepsConsistent(p: Player)
    requires Consistent(p) && p.fileRef.Some? && p.sourceRef.None?
    ensures Consistent(PausedInPlace(p))
  {
    var r := PausedInPlace(p);
    var i := p.fileRef.value;
    forall k | 0 <= k < |r.files| ensures r.files[k].status != Playing {
      if k != i { assert r.files[k] == p.files[k]; }
    }
  }

  lemma ResumedKeepsConsistent(p: Player)
    requires Consistent(p) && p.fileRef.Some? && p.sourceRef.None? && !p.isPlaying
    requires p.currentTrack.Some? && p.currentTrack.value.kind == File
    ensures Consistent(Resumed(p))
  {
    var r := Resumed(p);
    var i := p.fileRef.value;
    if !p.files[i].failed {
      assert r.files[i].status == Playing;
    }
  }

  lemma CancelledKeepsConsistent(p: Player)
    requires Consistent(p)
    ensures Consistent(Cancelled(p))
  {
    var r := Cancelled(p);
    assert forall i :: 0 <= i < |r.files| ==> r.files[i].status == p.files[i].status;
  }

  /** The state `stopAll` leaves behind: nothing plays and no synth
      element is live or connected. */
  predicate Silent(q: Player) {
    && Wf(q) && q.sourceRef.None? && q.gainRef.None? && !q.isPlaying
    && (forall k :: 0 <= k < |q.files| ==> q.files[k].status != Playing)
    && (forall k :: 0 <= k < |q.synths| ==> q.synths[k].source == Released && !q.synths[k].gainConnected)
  }

  lemma StartedKeepsConsistent(p: Player, t: Track, noiseCreated: bool)
    requires Consistent(p) && t in Catalog
    ensures Consistent(Started(Stopped(p), t, noiseCreated))
  {
    StoppedSilences(p);
    var q := Stopped(p);
    assert Silent(q);
    if t.kind == File {
      StartedFileConsistent(q, t);
    } else {
      StartedSynthConsistent(q, t, noiseCreated);
    }
  }

  lemma StartedFileConsistent(q: Player, t: Track)
    requires Silent(q) && t in Catalog && t.kind == File
    ensures Consistent(Started(q, t, false))
  {
    var r := Started(q, t, false);
    assert forall k :: 0 <= k < |r.files| ==> r.files[k].status != Playing;
  }

  lemma StartedSynthConsistent(q: Player, t: Track, noiseCreated: bool)
    requires Silent(q) && t in Catalog && t.kind == Synth
    ensures Consistent(Started(q, t, noiseCreated))
  {
    var r := Started(q, t, noiseCreated);
    if noiseCreated {
      assert r.synths[|q.synths|].source == Playing;
    }
  }

  lemma {:induction false} PlayedKeepsConsistent(p: Player, t: Track, noiseCreated: bool)
    requires Consistent(p) && t in Catalog
    ensures Consistent(Played(p, t, noiseCreated))
  {
    if SameTrack(p, t) {
      CatalogIdsDistinct();
      assert p.currentTrack.value == t;
    }
    if SameTrack(p, t) && p.isPlaying {
      if t.kind == File {
        PausedInPlaceKeepsConsistent(p);
        CancelledKeepsConsistent(PausedInPlace(p));
      } else {
        StoppedSilences(p);
      }
    } else if SameTrack(p, t) && t.kind == File && p.fileRef.Some? {
      ResumedKeepsConsistent(p);
    } else {
      StartedKeepsConsistent(p, t, noiseCreated);
    }
  }

  lemma StartResolvedKeepsConsistent(p: Player, h: nat)
    requires Consistent(p) && h < |p.files|
    ensures Consistent(StartResolved(p, h))
  {
    var r := StartResolved(p, h);
    forall k | 0 <= k < |r.files| && k != h ensures r.files[k] == p.files[k] { }
    if p.files[h].armed && IsCurrentFile(p, h) {
      assert r.files[h].status == Playing;
    }
  }

  lemma StartRejectedKeepsConsistent(p: Player, h: nat)
    requires Consistent(p) && h < |p.files|
    ensures Consistent(StartRejected(p, h))
  {
    var r := StartRejected(p, h);
    forall k | 0 <= k < |r.files| && k != h ensures r.files[k] == p.files[k] { }
    if p.files[h].armed && IsCurrentFile(p, h) {
      assert p.sourceRef.None?;
      forall k | 0 <= k < |r.files| ensures r.files[k].status != Playing {
        if k != h { assert !IsCurrentFile(p, k); }
      }
    }
  }

  lemma LoadFailedKeepsConsistent(p: Player, h: nat)
    requires Consistent(p) && h < |p.files|
    ensures Consistent(LoadFailed(p, h))
  {
    var r := LoadFailed(p, h);
    forall k | 0 <= k < |r.files| && k != h ensures r.files[k] == p.files[k] { }
    if IsCurrentFile(p, h) {
      assert p.sourceRef.None?;
      forall k | 0 <= k < |r.files| ensures r.files[k].status != Playing {
        if k != h { assert !IsCurrentFile(p, k); }
      }
    } else {
      assert p.files[h].status != Playing;
      assert FileAudible(r) == FileAudible(p) by {
        if FileAudible(p) {
          var k :| 0 <= k < |p.files| && p.files[k].status == Playing;
          assert r.files[k].status == Playing;
        }
      }
    }
  }

  lemma ElapsedKeepsConsistent(p: Player, h: nat, d: nat)
    requires Consistent(p) && h < |p.files|
    ensures Consistent(Elapsed(p, h, d))
  {
    var r := Elapsed(p, h, d);
    assert FileAudible(r) == FileAudible(p) by {
      if FileAudible(p) {
        var k :| 0 <= k < |p.files| && p.files[k].status == Playing;
        assert r.files[k].status == Playing;
      }
    }
  }

  /** Everything the user and the browser can do to the controller. */
  datatype PlayerInput =
    | Select(track: Track, noiseCreated: bool)
    | StopEverything
    | Resolve(handle: nat)
    | Reject(handle: nat)
    | Fail(handle: nat)
    | Advance(handle: nat, seconds: nat)

  /** Every element of `p` is still in `q`, for the same source: audio
      objects are never destroyed, only released or left alone. */
  predicate Persists(p: Player, q: Player) {
    && |p.files| <= |q.files| && |p.synths| <= |q.synths|
    && (forall i :: 0 <= i < |p.files| ==> q.files[i].src == p.files[i].src)
    && (forall j :: 0 <= j < |p.synths| ==> q.synths[j].src == p.synths[j].src)
  }

  /** One input; an event naming an element that does not exist is ignored. */
  function Apply(p: Player, e: PlayerInput): (r: Player)
    requires Wf(p)
    ensures Wf(r) && Persists(p, r)
    ensures e.StopEverything? ==> !r.isPlaying
  {
    match e
    case Select(t, n) => Played(p, t, n)
    case StopEverything => Cancelled(Stopped(p))
    case Resolve(h) => if h < |p.files| then StartResolved(p, h) else p
    case Reject(h) => if h < |p.files| then StartRejected(p, h) else p
    case Fail(h) => if h < |p.files| then LoadFailed(p, h) else p
    case Advance(h, d) => if h < |p.files| then Elapsed(p, h, d) else p
  }

  function Replay(p: Player, es: seq<PlayerInput>): (r: Player)
    requires Wf(p)
    ensures Wf(r) && Persists(p, r)
    decreases |es|
  {
    if es == [] then p else Replay(Apply(p, es[0]), es[1..])
  }

  /** Tracks are selected from the catalog. */
  predicate FromCatalog(es: seq<PlayerInput>) {
    forall k :: 0 <= k < |es| && es[k].Select? ==> es[k].track in Catalog
  }

  lemma ApplyKeepsConsistent(p: Player, e: PlayerInput)
    requires Consistent(p)
    requires e.Select? ==> e.track in Catalog
    ensures Consistent(Apply(p, e))
  {
    match e
    case Select(t, n) =>
      PlayedKeepsConsistent(p, t, n);
      assert Apply(p, e) == Played(p, t, n);
    case StopEverything =>
      StoppedSilences(p);
      CancelledKeepsConsistent(Stopped(p));
      assert Apply(p, e) == Cancelled(Stopped(p));
    case Resolve(h) =>
      if h < |p.files| {
        StartResolvedKeepsConsistent(p, h);
        assert Apply(p, e) == StartResolved(p, h);
      }
    case Reject(h) =>
      if h < |p.files| {
        StartRejectedKeepsConsistent(p, h);
        assert Apply(p, e) == StartRejected(p, h);
      }
    case Fail(h) =>
      if h < |p.files| {
        LoadFailedKeepsConsistent(p, h);
        assert Apply(p, e) == LoadFailed(p, h);
      }
    case Advance(h, d) =>
      if h < |p.files| {
        ElapsedKeepsConsistent(p, h, d);
        assert Apply(p, e) == Elapsed(p, h, d);
      }
  }

  /** From a fresh controller, whatever the user selects from the catalog and
      whatever start outcomes the browser reports, never a synth source is
      live alongside a playing file, and at most one file plays. */
  lemma {:induction false} ReplayExclusive(p: Player, es: seq<PlayerInput>)
    requires Consistent(p) && FromCatalog(es)
    ensures Consistent(Replay(p, es)) && Exclusive(Replay(p, es))
    decreases |es|
  {
    if es != [] {
      ApplyKeepsConsistent(p, es[0]);
      assert FromCatalog(es[1..]) by {
        forall k | 0 <= k < |es[1..]| && es[1..][k].Select? ensures es[1..][k].track in Catalog {
          assert es[1..][k] == es[k + 1];
        }
      }
      ReplayExclusive(Apply(p, es[0]), es[1..]);
    }
  }

  /** Selecting a different track leaves every element that existed before
      silent: only the new track's element can become audible. */
  lemma SwitchSilencesPrevious(p: Player, t: Track, noiseCreated: bool)
    requires Consistent(p) && t in Catalog && !SameTrack(p, t)
    ensures var r := Played(p, t, noiseCreated);
            && (forall i :: 0 <= i < |p.files| ==> r.files[i].status != Playing)
            && (forall j :: 0 <= j < |p.synths| ==> r.synths[j].source == Released)
  {
    StoppedSilences(p);
  }

  /** Pausing a SYNTH track tears its source down; selecting it again builds
      a new source rather than resuming the old one. */
  lemma SynthPauseRecreates(p: Player, t: Track)
    requires Consistent(p) && t in Catalog && t.kind == Synth
    requires SameTrack(p, t) && p.isPlaying
    ensures var q := Played(p, t, true);
            && !q.isPlaying && q.sourceRef.None?
            && (forall j :: 0 <= j < |q.synths| ==> q.synths[j].source == Released)
    ensures var r := Played(Played(p, t, true), t, true);
            && r.isPlaying && r.sourceRef == Some(|p.synths|)
            && |r.synths| == |p.synths| + 1 && r.synths[|p.synths|].source == Playing
  {
    StoppedSilences(p);
    var q := Played(p, t, true);
    assert q == Stopped(p);
  }

  // ---- Once stopped, nothing the browser reports makes it audible ----

  /** Nothing is playing and the current element has no pending start. */
  ghost predicate Quiet(p: Player) {
    && Consistent(p) && !p.isPlaying
    && (p.fileRef.Some? ==> !p.files[p.fileRef.value].armed)
  }

  /** The inputs hold no track selection: only start outcomes, load errors,
      elapsed time and stops. */
  predicate NoSelect(es: seq<PlayerInput>) {
    forall k :: 0 <= k < |es| ==> !es[k].Select?
  }

  /** A quiet controller stays quiet under any input but a selection. */
  lemma QuietStep(p: Player, e: PlayerInput)
    requires Quiet(p) && !e.Select?
    ensures Quiet(Apply(p, e))
  {
    match e
    case StopEverything =>
      StoppedSilences(p);
      CancelledKeepsConsistent(Stopped(p));
      assert Apply(p, e) == Cancelled(Stopped(p));
    case Resolve(h) =>
      if h < |p.files| {
        StartResolvedKeepsConsistent(p, h);
        assert Apply(p, e) == StartResolved(p, h);
        assert !(p.files[h].armed && IsCurrentFile(p, h));
      }
    case Reject(h) =>
      if h < |p.files| {
        StartRejectedKeepsConsistent(p, h);
        assert Apply(p, e) == StartRejected(p, h);
      }
    case Fail(h) =>
      if h < |p.files| {
        LoadFailedKeepsConsistent(p, h);
        assert Apply(p, e) == LoadFailed(p, h);
      }
    case Advance(h, d) =>
      if h < |p.files| {
        ElapsedKeepsConsistent(p, h, d);
        assert Apply(p, e) == Elapsed(p, h, d);
      }
  }

  lemma {:induction false} QuietStaysQuiet(p: Player, es: seq<PlayerInput>)
    requires Quiet(p) && NoSelect(es)
    ensures Quiet(Replay(p, es))
    decreases |es|
  {
    if es != [] {
      QuietStep(p, es[0]);
      assert NoSelect(es[1..]) by {
        forall k | 0 <= k < |es[1..]| ensures !es[1..][k].Select? {
          assert es[1..][k] == es[k + 1];
        }
      }
      QuietStaysQuiet(Apply(p, es[0]), es[1..]);
    }
  }

  /** After a stop, whatever start outcomes, load errors and elapsed time
      follow, nothing is audible and the flag stays down until the user
      selects a track. */
  lemma StopStaysSilent(p: Player, es: seq<PlayerInput>)
    requires Consistent(p) && NoSelect(es)
    ensures var r := Replay(p, [StopEverything] + es);
            !r.isPlaying && !FileAudible(r) && !SynthLive(r)
  {
    StoppedSilences(p);
    CancelledKeepsConsistent(Stopped(p));
    var q := Apply(p, StopEverything);
    assert q == Cancelled(Stopped(p));
    assert Replay(p, [StopEverything] + es) == Replay(q, es) by {
      assert ([StopEverything] + es)[1..] == es;
    }
    QuietStaysQuiet(q, es);
  }

  /** Pausing the playing FILE track by selecting it again: whatever start
      outcomes, load errors and elapsed time follow, nothing is audible and
      the flag stays down until the next selection. */
  lemma PauseStaysSilent(p: Player, t: Track, noiseCreated: bool, es: seq<PlayerInput>)
    requires Consistent(p) && t in Catalog && t.kind == File
    requires SameTrack(p, t) && p.isPlaying && NoSelect(es)
    ensures var r := Replay(Played(p, t, noiseCreated), es);
            !r.isPlaying && !FileAudible(r) && !SynthLive(r)
  {
    CatalogIdsDistinct();
    assert p.currentTrack.value == t;
    PausedInPlaceKeepsConsistent(p);
    CancelledKeepsConsistent(PausedInPlace(p));
    QuietStaysQuiet(Played(p, t, noiseCreated), es);
  }

  /** The hook as an object. */
  class Controller {
    var currentTrack: Option<Track>
    var isPlaying: bool
    var files: seq<FileHandle>
    var fileRef: Option<nat>
    var synths: seq<SynthNode>
    var sourceRef: Option<nat>
    var gainRef: Option<nat>

    function State(): Player
      reads this
    {
      Player(currentTrack, isPlaying, files, fileRef, synths, sourceRef, gainRef)
    }

    ghost predicate Valid()
      reads this
    {
      Consistent(State())
    }

    constructor ()
      ensures Valid() && State() == Idle
    {
      currentTrack := None;
      isPlaying := false;
      files := [];
      fileRef := None;
      synths := [];
      sourceRef := None;
      gainRef := None;
    }

    method StopAll()
      requires Wf(State())
      modifies this
      ensures State() == Stopped(old(State()))
      ensures old(Valid()) ==> Valid()
    {
      ghost var p := State();
      if Consistent(p) { StoppedSilences(p); }
      if fileRef.Some? {
        var i := fileRef.value;
        files := files[i := files[i].(status := Paused, position := 0)];
      }
      if sourceRef.Some? {
        var j := sourceRef.value;
        synths := synths[j := synths[j].(source := Released)];
        sourceRef := None;
      }
      if gainRef.Some? {
        var j := gainRef.value;
        synths := synths[j := synths[j].(gainConnected := false)];
        gainRef := None;
      }
      isPlaying := false;
    }

    method PlayTrack(t: Track, noiseCreated: bool)
      requires Valid() && t in Catalog
      modifies this
      ensures Valid()
      ensures State() == Played(old(State()), t, noiseCreated)
    {
      PlayedKeepsConsistent(State(), t, noiseCreated);
      if currentTrack.Some? && currentTrack.value.id == t.id && isPlaying {
        if t.kind == File && fileRef.Some? {
          PauseInPlace();
          CancelPending();
        } else {
          if t.kind == Synth {
            StopAll();
          }
          isPlaying := false;
        }
        return;
      }
      if currentTrack.Some? && currentTrack.value.id == t.id && !isPlaying {
        if t.kind == File && fileRef.Some? {
          ResumeInPlace();
          return;
        }
      }
      StopAll();
      Start(t, noiseCreated);
    }

    method PauseInPlace()
      requires Wf(State()) && fileRef.Some?
      modifies this
      ensures State() == PausedInPlace(old(State()))
    {
      var i := fileRef.value;
      files := files[i := files[i].(status := Paused)];
      isPlaying := false;
    }

    method ResumeInPlace()
      requires Wf(State()) && fileRef.Some?
      modifies this
      ensures State() == Resumed(old(State()))
    {
      var i := fileRef.value;
      if files[i].failed {
        isPlaying := false;
      } else {
        files := files[i := files[i].(status := Playing)];
        isPlaying := true;
      }
    }

    /** Remove the current element's one-shot ready listener. */
    method CancelPending()
      requires Wf(State())
      modifies this
      ensures State() == Cancelled(old(State()))
      ensures old(Valid()) ==> Valid()
    {
      ghost var p := State();
      if Consistent(p) { CancelledKeepsConsistent(p); }
      if fileRef.Some? {
        var i := fileRef.value;
        files := files[i := files[i].(armed := false)];
      }
    }

    method Start(t: Track, noiseCreated: bool)
      requires Wf(State()) && sourceRef.None? && gainRef.None? && !isPlaying
      modifies this
      ensures State() == Started(old(State()), t, noiseCreated)
    {
      currentTrack := Some(t);
      if t.kind == File {
        files := files + [NewFileHandle(t)];
        fileRef := Some(|files| - 1);
      } else if noiseCreated {
        synths := synths + [SynthNode(t.src, Playing, true)];
        sourceRef := Some(|synths| - 1);
        gainRef := Some(|synths| - 1);
        isPlaying := true;
      }
    }

    method OnStartResolved(h: nat)
      requires Valid() && h < |files|
      modifies this
      ensures Valid()
      ensures State() == StartResolved(old(State()), h)
    {
      StartResolvedKeepsConsistent(State(), h);
      if files[h].armed {
        if fileRef == Some(h) && currentTrack.Some? && currentTrack.value.kind == File {
          files := files[h := files[h].(status := Playing, armed := false)];
          isPlaying := true;
        } else {
          files := files[h := files[h].(armed := false)];
        }
      }
    }

    method OnStartRejected(h: nat)
      requires Valid() && h < |files|
      modifies this
      ensures Valid()
      ensures State() == StartRejected(old(State()), h)
    {
      StartRejectedKeepsConsistent(State(), h);
      if files[h].armed {
        if fileRef == Some(h) && currentTrack.Some? && currentTrack.value.kind == File {
          files := files[h := files[h].(status := Paused, armed := false)];
          isPlaying := false;
        } else {
          files := files[h := files[h].(armed := false)];
        }
      }
    }

    method OnLoadError(h: nat)
      requires Valid() && h < |files|
      modifies this
      ensures Valid()
      ensures State() == LoadFailed(old(State()), h)
    {
      LoadFailedKeepsConsistent(State(), h);
      var current := fileRef == Some(h) && currentTrack.Some? && currentTrack.value.kind == File;
      files := files[h := files[h].(status := Paused, armed := false, failed := true)];
      if current {
        isPlaying := false;
      }
    }

    method Elapse(h: nat, d: nat)
      requires Valid() && h < |files|
      modifies this
      ensures Valid()
      ensures State() == Elapsed(old(State()), h, d)
    {
      ElapsedKeepsConsistent(State(), h, d);
      if files[h].status == Playing {
        files := files[h := files[h].(position := files[h].position + d)];
      }
    }

    /** Teardown of the controller: nothing it created is audible, and no
        pending start is left to make it audible later. */
    method Unmount()
      requires Valid()
      modifies this
      ensures Valid() && State() == Cancelled(Stopped(old(State())))
      ensures !FileAudible(State()) && !SynthLive(State()) && Quiet(State())
    {
      StoppedSilences(State());
      StopAll();
      CancelPending();
    }
  }
}

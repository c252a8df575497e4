/**
 * The application controller as values: one transition function for each
 * method of `App`, over a snapshot `AppState` of the app's fields (the
 * backend included), and the properties of those transitions.
 *
 * The class `Oxiplayer.App` performs the same transitions on its fields
 * and is proved against these functions. The renderer reads the same
 * snapshot.
 *
 * Volume is in integer tenths (7 is 0.7, 10 is 1.0). Status texts are the
 * program's own; a text that the program builds from a foreign error value
 * is built here from that error's text.
 */
module AppSpec {
  import opened Wrappers
  import opened Text
  import opened Library
  import opened Audio

  datatype AppState = AppState(
    files: seq<MusicFile>,
    selected: nat,
    listState: Option<nat>,
    playing: Option<string>,
    status: string,
    paused: bool,
    volume: int,
    audio: Backend)

  const InitialVolume := 7
  /** The note that marks what is playing, in the status texts and the file list. */
  const PlayingMarker := "\U{266A} "

  const NoFilesFoundAtStart := "No music files found - Press 'r' to refresh or 'q' to quit"
  const Ready := "Ready - Use \U{2191}/\U{2193} to navigate, Enter to play (auto-advances to next song), 'q' to quit"
  const NothingToPlay := "No music files available to play"
  const NoFileSelected := "No file selected"
  const Stopped := "Stopped"
  const PausedText := "Paused"
  const AutoAdvancing := "Auto-advancing to next song..."
  const NoFilesFound := "No music files found in directory"

  function PlayingText(name: string): string { PlayingMarker + "Playing: " + name }
  function LoopedText(name: string): string { PlayingMarker + "Looped to beginning - Playing: " + name }
  function ErrorText(reason: string): string { "Error playing file: " + reason }
  function RefreshedText(count: nat): string { "Refreshed - Found " + NatToString(count) + " music files" }

  /** `(volume * 100.0) as u8`: a float-to-integer cast saturates at 0 and 255. */
  function Percent(volume: int): (r: nat)
    ensures r <= 255
    ensures 0 <= volume <= MaxVolume ==> r == 10 * volume
    ensures 0 <= 10 * volume <= 255 ==> r == 10 * volume
    ensures 10 * volume >= 255 ==> r == 255
    ensures volume <= 0 ==> r == 0
  {
    if volume <= 0 then 0 else if 10 * volume > 255 then 255 else 10 * volume
  }

  /** The volume status: the percentage of a volume in range, as a whole number. */
  function VolumeText(volume: int): (r: string)
    ensures 0 <= volume <= MaxVolume ==> r == "Volume: " + NatToString(10 * volume) + "%"
  {
    "Volume: " + NatToString(Percent(volume)) + "%"
  }

  /** Different volumes in range show different volume statuses. */
  lemma VolumeTextInjective(u: int, v: int)
    requires 0 <= u <= MaxVolume && 0 <= v <= MaxVolume
    requires VolumeText(u) == VolumeText(v)
    ensures u == v
  {
    var x, y := NatToString(10 * u), NatToString(10 * v);
    var prefix := "Volume: ";
    assert VolumeText(u) == prefix + x + "%" && VolumeText(v) == prefix + y + "%";
    assert |x| == |y|;
    assert x == VolumeText(u)[|prefix|..|prefix| + |x|];
    assert y == VolumeText(v)[|prefix|..|prefix| + |y|];
    NatToStringInjective(10 * u, 10 * v);
  }

  /**
   * What every reachable state satisfies: the cursor is in range and the
   * list state selects it whenever the list is non-empty, the list state
   * selects nothing when it is empty, the volume is in [0, 1], and the
   * backend holds at most one live session.
   */
  predicate Consistent(s: AppState)
    ensures Consistent(s) ==> (s.listState.Some? <==> s.files != []) && |LiveSessions(s.audio)| <= 1
  {
    if !OneSession(s.audio) then false
    else
      AtMostOneLive(s.audio);
      && (s.files != [] ==> s.selected < |s.files| && s.listState == Some(s.selected))
      && (s.files == [] ==> s.listState.None?)
      && 0 <= s.volume <= MaxVolume
  }

  /** `App::new`: the scanned library, the cursor on the first track, nothing playing. */
  function Init(walk: seq<Entry>): (s: AppState)
    ensures Consistent(s)
    ensures s.files == Scan(walk) && s.selected == 0
    ensures s.listState == if s.files == [] then None else Some(0)
    ensures s.playing.None? && !s.paused && s.volume == InitialVolume && s.audio == Idle
    ensures s.status == if s.files == [] then NoFilesFoundAtStart else Ready
  {
    var files := Scan(walk);
    AppState(files, 0, if files == [] then None else Some(0), None,
             if files == [] then NoFilesFoundAtStart else Ready, false, InitialVolume, Idle)
  }

  /** `next`: move the cursor down, wrapping from the last track to the first. */
  function Next(s: AppState): (r: AppState)
    ensures s.files == [] ==> r == s
    ensures s.files != [] ==> r == s.(selected := r.selected, listState := Some(r.selected))
    ensures s.files != [] && s.selected == |s.files| - 1 ==> r.selected == 0
    ensures s.files != [] && s.selected < |s.files| - 1 ==> r.selected == s.selected + 1
    ensures Consistent(s) ==> Consistent(r)
  {
    if s.files == [] then s
    else
      var i := (s.selected + 1) % |s.files|;
      s.(selected := i, listState := Some(i))
  }

  /** `previous`: move the cursor up, wrapping from the first track to the last. */
  function Previous(s: AppState): (r: AppState)
    ensures s.files == [] ==> r == s
    ensures s.files != [] ==> r == s.(selected := r.selected, listState := Some(r.selected))
    ensures s.files != [] && s.selected == 0 ==> r.selected == |s.files| - 1
    ensures s.files != [] && s.selected > 0 ==> r.selected == s.selected - 1
    ensures Consistent(s) ==> Consistent(r)
  {
    if s.files == [] then s
    else
      var i := if s.selected == 0 then |s.files| - 1 else s.selected - 1;
      s.(selected := i, listState := Some(i))
  }

  /**
   * `play_selected`: play the track under the cursor. On success the track
   * becomes the playing one and the backend gets the app's volume; on
   * failure only the status changes (the previous playing name stays).
   */
  function PlaySelected(s: AppState, attempt: string -> Attempt): (r: AppState)
    ensures r.files == s.files && r.selected == s.selected && r.listState == s.listState && r.volume == s.volume
    ensures s.files == [] ==> r == s.(status := NothingToPlay)
    ensures s.files != [] && s.selected < |s.files| && attempt(s.files[s.selected].path).Decodes? ==>
              && r.playing == Some(s.files[s.selected].name) && !r.paused
              && r.status == PlayingText(s.files[s.selected].name)
              && r.audio.slot == Some(Sink(s.audio.created, false, false, Clamp(s.volume)))
    ensures s.files != [] && s.selected < |s.files| && !attempt(s.files[s.selected].path).Decodes? ==>
              && r == s.(audio := r.audio, status := ErrorText(attempt(s.files[s.selected].path).reason))
              && r.audio.slot.None?
    ensures Consistent(s) ==> Consistent(r) && r.status != NoFileSelected
  {
    if s.files == [] then s.(status := NothingToPlay)
    else if s.selected < |s.files| then
      var file := s.files[s.selected];
      var (audio, outcome) := PlayB(s.audio, attempt(file.path));
      match outcome
      case Pass =>
        assert PlayingText(file.name)[0] != NoFileSelected[0];
        s.(playing := Some(file.name), paused := false, audio := SetVolumeB(audio, s.volume),
           status := PlayingText(file.name))
      case Fail(why) => s.(audio := audio, status := ErrorText(why))
    else s.(status := NoFileSelected)
  }

  /** `stop`: whatever the state, nothing is playing afterwards. */
  function Stop(s: AppState): (r: AppState)
    ensures r == s.(playing := None, paused := false, status := Stopped, audio := r.audio)
    ensures r.audio.slot.None?
    ensures Consistent(s) ==> Consistent(r) && LiveSessions(r.audio) == {}
  {
    s.(audio := StopB(s.audio), playing := None, paused := false, status := Stopped)
  }

  /** `pause`: only acts while a track is marked playing and not paused. */
  function Pause(s: AppState): (r: AppState)
    ensures s.playing.None? || s.paused ==> r == s
    ensures s.playing.Some? && !s.paused ==> r == s.(paused := true, status := PausedText, audio := PauseB(s.audio))
    ensures Consistent(s) ==> Consistent(r)
  {
    if s.playing.Some? && !s.paused then
      s.(audio := PauseB(s.audio), paused := true, status := PausedText)
    else s
  }

  /** `resume`: only acts while a track is marked playing and paused. */
  function Resume(s: AppState): (r: AppState)
    ensures s.playing.None? || !s.paused ==> r == s
    ensures s.playing.Some? && s.paused ==>
            r == s.(paused := false, status := PlayingText(s.playing.value), audio := ResumeB(s.audio))
    ensures Consistent(s) ==> Consistent(r)
  {
    if s.playing.Some? && s.paused then
      s.(audio := ResumeB(s.audio), paused := false, status := PlayingText(s.playing.value))
    else s
  }

  /** `toggle_pause`: nothing when nothing is playing, otherwise flip the paused flag. */
  function TogglePause(s: AppState): (r: AppState)
    ensures s.playing.None? ==> r == s
    ensures s.playing.Some? ==> r.paused == !s.paused && r.playing == s.playing
    ensures s.playing.Some? && s.paused ==> r == Resume(s)
    ensures s.playing.Some? && !s.paused ==> r == Pause(s)
    ensures s.playing.Some? ==> r.status == if s.paused then PlayingText(s.playing.value) else PausedText
    ensures s.playing.Some? ==> r.audio == if s.paused then ResumeB(s.audio) else PauseB(s.audio)
    ensures r.files == s.files && r.selected == s.selected && r.listState == s.listState && r.volume == s.volume
    ensures Consistent(s) ==> Consistent(r)
  {
    if s.playing.Some? then (if s.paused then Resume(s) else Pause(s)) else s
  }

  /**
   * `play_next`: move down and play. Coming from the last track, the status
   * announces the loop back to the first, whatever playing it produced.
   */
  function PlayNext(s: AppState, attempt: string -> Attempt): (r: AppState)
    ensures s.files == [] ==> r == s
    ensures s.files != [] && s.selected == |s.files| - 1 ==>
              r.selected == 0 && r.status == LoopedText(s.files[0].name)
    ensures s.files != [] && s.selected == |s.files| - 1 ==>
              r == PlaySelected(Next(s), attempt).(status := LoopedText(s.files[0].name))
    ensures s.files != [] && s.selected < |s.files| - 1 ==>
              r.selected == s.selected + 1 && r == PlaySelected(Next(s), attempt)
    ensures Consistent(s) ==> Consistent(r)
  {
    if s.files == [] then s
    else
      var wasAtEnd := s.selected == |s.files| - 1;
      var played := PlaySelected(Next(s), attempt);
      if wasAtEnd then played.(status := LoopedText(s.files[0].name)) else played
  }

  /** `play_previous`: move up and play. */
  function PlayPrevious(s: AppState, attempt: string -> Attempt): (r: AppState)
    ensures s.files == [] ==> r == s
    ensures s.files != [] ==> r == PlaySelected(Previous(s), attempt)
    ensures Consistent(s) ==> Consistent(r)
  {
    if s.files == [] then s else PlaySelected(Previous(s), attempt)
  }

  /** `volume_up`: one tenth louder, never above 1.0, applied to the backend. */
  function VolumeUp(s: AppState): (r: AppState)
    ensures r.volume <= MaxVolume
    ensures s.volume >= 0 ==> r.volume >= 0
    ensures s.volume < MaxVolume ==> r.volume == s.volume + 1
    ensures s.volume >= MaxVolume ==> r.volume == MaxVolume
    ensures r == s.(volume := r.volume, audio := SetVolumeB(s.audio, r.volume), status := VolumeText(r.volume))
    ensures Consistent(s) ==> Consistent(r)
  {
    var v := if s.volume + 1 < MaxVolume then s.volume + 1 else MaxVolume;
    s.(volume := v, audio := SetVolumeB(s.audio, v), status := VolumeText(v))
  }

  /** `volume_down`: one tenth quieter, never below 0.0, applied to the backend. */
  function VolumeDown(s: AppState): (r: AppState)
    ensures r.volume >= 0
    ensures s.volume <= MaxVolume ==> r.volume <= MaxVolume
    ensures s.volume > 0 ==> r.volume == s.volume - 1
    ensures s.volume <= 0 ==> r.volume == 0
    ensures r == s.(volume := r.volume, audio := SetVolumeB(s.audio, r.volume), status := VolumeText(r.volume))
    ensures Consistent(s) ==> Consistent(r)
  {
    var v := if s.volume - 1 > 0 then s.volume - 1 else 0;
    s.(volume := v, audio := SetVolumeB(s.audio, v), status := VolumeText(v))
  }

  /**
   * `refresh_files`: replace the library by a new scan. The cursor is
   * clamped to the last track when it fell off the end; on an empty
   * library it is left alone and the list state selects nothing. Playback
   * is not touched.
   */
  function RefreshFiles(s: AppState, walk: seq<Entry>): (r: AppState)
    ensures r.files == Scan(walk)
    ensures r.playing == s.playing && r.paused == s.paused && r.volume == s.volume && r.audio == s.audio
    ensures r.files == [] ==> r.selected == s.selected && r.listState.None? && r.status == NoFilesFound
    ensures r.files != [] && s.selected >= |r.files| ==> r.selected == |r.files| - 1
    ensures r.files != [] && s.selected < |r.files| ==> r.selected == s.selected
    ensures r.files != [] ==> r.listState == Some(r.selected) && r.status == RefreshedText(|r.files|)
    ensures Consistent(s) ==> Consistent(r)
  {
    var files := Scan(walk);
    var selected := if s.selected >= |files| && files != [] then |files| - 1 else s.selected;
    s.(files := files, selected := selected,
       listState := if files != [] then Some(selected) else None,
       status := if files == [] then NoFilesFound else RefreshedText(|files|))
  }

  /** The auto-advance test of the main loop: something marked playing, not paused, and the backend empty. */
  predicate ShouldAdvance(s: AppState)
    ensures ShouldAdvance(s) <==>
              s.playing.Some? && !s.paused && (s.audio.slot.Some? ==> s.audio.slot.value.empty)
  {
    s.playing.Some? && !s.paused && IsEmptyB(s.audio)
  }

  /** The auto-advance step of the main loop. */
  function AutoAdvance(s: AppState, attempt: string -> Attempt): (r: AppState)
    ensures !ShouldAdvance(s) ==> r == s
    ensures ShouldAdvance(s) ==> r == PlayNext(s.(status := AutoAdvancing), attempt)
    ensures Consistent(s) ==> Consistent(r)
  {
    if ShouldAdvance(s) then PlayNext(s.(status := AutoAdvancing), attempt) else s
  }

  /** A key code as the terminal reports it; `Other` stands for every code the loop ignores. */
  datatype KeyCode = Char(c: char) | Down | Up | Enter | Other
  datatype KeyKind = Press | Repeat | Release
  /** One terminal event: a key event, or anything else (resize, mouse, focus). */
  datatype Event = Key(code: KeyCode, kind: KeyKind) | NonKey

  /** The keys the main loop acts on. */
  const BoundKeys: set<KeyCode> :=
    {Char('q'), Down, Char('j'), Up, Char('k'), Enter, Char('s'), Char(' '), Char('+'), Char('-'),
     Char('r'), Char('n'), Char('p')}

  /** The key dispatch of the main loop; the flag is true when the key quits. */
  function Dispatch(s: AppState, ev: Event, walk: seq<Entry>, attempt: string -> Attempt): (r: (AppState, bool))
    ensures r.1 <==> ev == Key(Char('q'), Press)
    ensures !ev.Key? || ev.kind != Press ==> r.0 == s
    ensures ev == Key(Char('q'), Press) ==> r.0 == s
    ensures ev == Key(Down, Press) || ev == Key(Char('j'), Press) ==> r.0 == Next(s)
    ensures ev == Key(Up, Press) || ev == Key(Char('k'), Press) ==> r.0 == Previous(s)
    ensures ev == Key(Enter, Press) ==> r.0 == PlaySelected(s, attempt)
    ensures ev == Key(Char('s'), Press) ==> r.0 == Stop(s)
    ensures ev == Key(Char(' '), Press) ==> r.0 == TogglePause(s)
    ensures ev == Key(Char('+'), Press) ==> r.0 == VolumeUp(s)
    ensures ev == Key(Char('-'), Press) ==> r.0 == VolumeDown(s)
    ensures ev == Key(Char('r'), Press) ==> r.0 == RefreshFiles(s, walk)
    ensures ev == Key(Char('n'), Press) ==> r.0 == PlayNext(s, attempt)
    ensures ev == Key(Char('p'), Press) ==> r.0 == PlayPrevious(s, attempt)
    ensures ev.Key? && ev.code !in BoundKeys ==> r.0 == s
    ensures Consistent(s) ==> Consistent(r.0)
  {
    if !ev.Key? || ev.kind != Press then (s, false)
    else match ev.code
      case Char('q') => (s, true)
      case Down => (Next(s), false)
      case Char('j') => (Next(s), false)
      case Up => (Previous(s), false)
      case Char('k') => (Previous(s), false)
      case Enter => (PlaySelected(s, attempt), false)
      case Char('s') => (Stop(s), false)
      case Char(' ') => (TogglePause(s), false)
      case Char('+') => (VolumeUp(s), false)
      case Char('-') => (VolumeDown(s), false)
      case Char('r') => (RefreshFiles(s, walk), false)
      case Char('n') => (PlayNext(s, attempt), false)
      case Char('p') => (PlayPrevious(s, attempt), false)
      case _ => (s, false)
  }

  /**
   * One turn of the main loop after drawing: the device may have drained
   * the queue meanwhile, then the auto-advance check, then one event.
   */
  function Tick(s: AppState, drained: bool, ev: Event, walk: seq<Entry>, attempt: string -> Attempt): (r: (AppState, bool))
    ensures r.1 <==> ev == Key(Char('q'), Press)
    ensures r == Dispatch(AutoAdvance(if drained then s.(audio := DrainB(s.audio)) else s, attempt), ev, walk, attempt)
    ensures Consistent(s) ==> Consistent(r.0)
  {
    var heard := if drained then s.(audio := DrainB(s.audio)) else s;
    Dispatch(AutoAdvance(heard, attempt), ev, walk, attempt)
  }

  /** Applies `volume_up` (true) or `volume_down` (false) for each key, in order. */
  function VolumeKeys(s: AppState, ups: seq<bool>): AppState
    decreases ups
  {
    if ups == [] then s
    else VolumeKeys(if ups[0] then VolumeUp(s) else VolumeDown(s), ups[1..])
  }

  /** However many volume keys are pressed, the volume stays in [0, 1]. */
  lemma {:induction false} VolumeKeysStayInRange(s: AppState, ups: seq<bool>)
    requires 0 <= s.volume <= MaxVolume
    ensures 0 <= VolumeKeys(s, ups).volume <= MaxVolume
    ensures Consistent(s) ==> Consistent(VolumeKeys(s, ups))
    decreases ups
  {
    if ups != [] {
      VolumeKeysStayInRange(if ups[0] then VolumeUp(s) else VolumeDown(s), ups[1..]);
    }
  }

  /** The loop-back status of `play_next` differs from every status `play_selected` can leave. */
  lemma LoopedTextDistinct(first: string, name: string, reason: string)
    ensures LoopedText(first) != PlayingText(name)
    ensures LoopedText(first) != ErrorText(reason)
    ensures LoopedText(first) != NothingToPlay && LoopedText(first) != NoFileSelected
  {
    assert LoopedText(first)[2] == 'L' && PlayingText(name)[2] == 'P';
    assert LoopedText(first)[0] != ErrorText(reason)[0];
    assert LoopedText(first)[0] != NothingToPlay[0] && LoopedText(first)[0] != NoFileSelected[0];
  }

  /**
   * `play_next` from the last track leaves a status that `play_next` from
   * any other track cannot leave.
   */
  lemma PlayNextLoopBackIsDistinct(s: AppState, t: AppState, attempt: string -> Attempt)
    requires Consistent(s) && Consistent(t) && s.files != [] && t.files != []
    requires s.selected == |s.files| - 1 && t.selected < |t.files| - 1
    ensures PlayNext(s, attempt).status != PlayNext(t, attempt).status
  {
    var n := Next(t);
    var file := n.files[n.selected];
    var a := attempt(file.path);
    LoopedTextDistinct(s.files[0].name, file.name, if a.Decodes? then "" else a.reason);
  }

  /** The refresh status determines the number of tracks found. */
  lemma RefreshedTextInjective(m: nat, n: nat)
    requires RefreshedText(m) == RefreshedText(n)
    ensures m == n
  {
    var prefix := "Refreshed - Found ";
    var suffix := " music files";
    var x, y := NatToString(m), NatToString(n);
    assert RefreshedText(m) == prefix + x + suffix;
    assert RefreshedText(n) == prefix + y + suffix;
    assert |x| == |y|;
    assert x == RefreshedText(m)[|prefix|..|prefix| + |x|];
    assert y == RefreshedText(n)[|prefix|..|prefix| + |y|];
    NatToStringInjective(m, n);
  }

  /** A cursor at 4 over a library refreshed down to two tracks lands on the last one, 1. */
  lemma RefreshClampsCursor(s: AppState, walk: seq<Entry>)
    requires s.selected == 4 && |Scan(walk)| == 2
    ensures RefreshFiles(s, walk).selected == 1
    ensures RefreshFiles(s, walk).listState == Some(1)
  {
  }

  /**
   * A failed play keeps the previous playing name but leaves the backend
   * empty, so the next turn of the loop auto-advances unless the app is
   * marked paused.
   */
  lemma FailedPlayAutoAdvances(s: AppState, attempt: string -> Attempt)
    requires Consistent(s) && s.files != [] && s.playing.Some?
    requires !attempt(s.files[s.selected].path).Decodes?
    ensures PlaySelected(s, attempt).playing == s.playing
    ensures ShouldAdvance(PlaySelected(s, attempt)) <==> !s.paused
  {
  }

  /** After a successful play the app plays, unpaused, and does not auto-advance until the queue drains. */
  lemma PlayedTrackWaitsForDrain(s: AppState, attempt: string -> Attempt)
    requires Consistent(s) && s.files != [] && attempt(s.files[s.selected].path).Decodes?
    ensures !ShouldAdvance(PlaySelected(s, attempt))
    ensures ShouldAdvance(PlaySelected(s, attempt).(audio := DrainB(PlaySelected(s, attempt).audio)))
  {
  }
}

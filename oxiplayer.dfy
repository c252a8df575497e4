/**
 * The application controller `App`: the library, the cursor and its list
 * state, the backend, what is playing, the paused flag, the volume and the
 * status line, updated in place by its methods. Each method is proved to
 * perform the transition that `AppSpec` gives for it and to keep the app
 * `Valid`.
 *
 * The directory walk and the output device are inputs: `walk` is what the
 * walk of the music directory yields at the time of a scan, and the
 * player's `attempt` says what building a session for each path meets.
 */
module Oxiplayer {
  import opened Wrappers
  import opened Library
  import opened Audio
  import opened AppSpec

  class App {
    var files: seq<MusicFile>
    var selectedIndex: nat
    var listState: Option<nat>
    const player: AudioPlayer
    var currentPlaying: Option<string>
    var statusMessage: string
    const musicDirectory: string
    var isPaused: bool
    var volume: int

    /** The app's fields as one value, the one the renderer draws. */
    ghost function Snapshot(): AppState
      reads this, player
    {
      AppState(files, selectedIndex, listState, currentPlaying, statusMessage, isPaused, volume, player.State())
    }

    ghost predicate Valid()
      reads this, player
    {
      Consistent(Snapshot())
    }

    /** `App::new`: scan the directory, select the first track if any, open the backend. */
    constructor (musicDir: string, walk: seq<Entry>, attempt: string -> Attempt)
      ensures Valid() && fresh(player)
      ensures Snapshot() == Init(walk)
      ensures musicDirectory == musicDir && player.attempt == attempt
    {
      var scanned := ScanMusicFiles(walk);
      files := scanned;
      selectedIndex := 0;
      listState := if scanned != [] then Some(0) else None;
      statusMessage := if scanned == [] then NoFilesFoundAtStart else Ready;
      player := new AudioPlayer(attempt);
      currentPlaying := None;
      musicDirectory := musicDir;
      isPaused := false;
      volume := InitialVolume;
    }

    method Next()
      requires Valid()
      modifies this
      ensures Valid() && Snapshot() == AppSpec.Next(old(Snapshot()))
    {
      if files != [] {
        selectedIndex := (selectedIndex + 1) % |files|;
        listState := Some(selectedIndex);
      }
    }

    method Previous()
      requires Valid()
      modifies this
      ensures Valid() && Snapshot() == AppSpec.Previous(old(Snapshot()))
    {
      if files != [] {
        if selectedIndex == 0 {
          selectedIndex := |files| - 1;
        } else {
          selectedIndex := selectedIndex - 1;
        }
        listState := Some(selectedIndex);
      }
    }

    /** `play_selected`, which always returns `Ok`. */
    method PlaySelected()
      requires Valid()
      modifies this, player
      ensures Valid() && Snapshot() == AppSpec.PlaySelected(old(Snapshot()), player.attempt)
    {
      if files == [] {
        statusMessage := NothingToPlay;
        return;
      }
      if selectedIndex < |files| {
        var file := files[selectedIndex];
        var outcome := player.Play(file.path);
        match outcome {
          case Pass =>
            currentPlaying := Some(file.name);
            isPaused := false;
            player.SetVolume(volume);
            statusMessage := PlayingText(file.name);
          case Fail(why) =>
            statusMessage := ErrorText(why);
        }
      } else {
        // the "No file selected" branch: the cursor is in range whenever the library is non-empty
        assert false;
      }
    }

    method Stop()
      requires Valid()
      modifies this, player
      ensures Valid() && Snapshot() == AppSpec.Stop(old(Snapshot()))
    {
      player.Stop();
      currentPlaying := None;
      isPaused := false;
      statusMessage := Stopped;
    }

    method Pause()
      requires Valid()
      modifies this, player
      ensures Valid() && Snapshot() == AppSpec.Pause(old(Snapshot()))
    {
      if currentPlaying.Some? && !isPaused {
        player.Pause();
        isPaused := true;
        statusMessage := PausedText;
      }
    }

    method Resume()
      requires Valid()
      modifies this, player
      ensures Valid() && Snapshot() == AppSpec.Resume(old(Snapshot()))
    {
      if currentPlaying.Some? && isPaused {
        player.Resume();
        isPaused := false;
        statusMessage := PlayingText(currentPlaying.value);
      }
    }

    method TogglePause()
      requires Valid()
      modifies this, player
      ensures Valid() && Snapshot() == AppSpec.TogglePause(old(Snapshot()))
    {
      if currentPlaying.Some? {
        if isPaused {
          Resume();
        } else {
          Pause();
        }
      }
    }

    /** `play_next`, which always returns `Ok`. */
    method PlayNext()
      requires Valid()
      modifies this, player
      ensures Valid() && Snapshot() == AppSpec.PlayNext(old(Snapshot()), player.attempt)
    {
      if files != [] {
        var wasAtEnd := selectedIndex == |files| - 1;
        Next();
        PlaySelected();
        if wasAtEnd {
          statusMessage := LoopedText(files[0].name);
        }
      }
    }

    /** `play_previous`, which always returns `Ok`. */
    method PlayPrevious()
      requires Valid()
      modifies this, player
      ensures Valid() && Snapshot() == AppSpec.PlayPrevious(old(Snapshot()), player.attempt)
    {
      if files != [] {
        Previous();
        PlaySelected();
      }
    }

    method VolumeUp()
      requires Valid()
      modifies this, player
      ensures Valid() && Snapshot() == AppSpec.VolumeUp(old(Snapshot()))
    {
      volume := if volume + 1 < MaxVolume then volume + 1 else MaxVolume;
      player.SetVolume(volume);
      statusMessage := VolumeText(volume);
    }

    method VolumeDown()
      requires Valid()
      modifies this, player
      ensures Valid() && Snapshot() == AppSpec.VolumeDown(old(Snapshot()))
    {
      volume := if volume - 1 > 0 then volume - 1 else 0;
      player.SetVolume(volume);
      statusMessage := VolumeText(volume);
    }

    /** `refresh_files` over what the walk of the music directory now yields; it always returns `Ok`. */
    method RefreshFiles(walk: seq<Entry>)
      requires Valid()
      modifies this
      ensures Valid() && Snapshot() == AppSpec.RefreshFiles(old(Snapshot()), walk)
    {
      files := ScanMusicFiles(walk);
      if selectedIndex >= |files| && files != [] {
        selectedIndex := |files| - 1;
      }
      if files != [] {
        listState := Some(selectedIndex);
      } else {
        listState := None;
      }
      if files == [] {
        statusMessage := NoFilesFound;
      } else {
        statusMessage := RefreshedText(|files|);
      }
    }

    /** The auto-advance check of `run_app`'s loop. */
    method AutoAdvance()
      requires Valid()
      modifies this, player
      ensures Valid() && Snapshot() == AppSpec.AutoAdvance(old(Snapshot()), player.attempt)
    {
      var empty := player.IsEmpty();
      if currentPlaying.Some? && !isPaused && empty {
        statusMessage := AutoAdvancing;
        PlayNext();
      }
    }

    /** The key dispatch of `run_app`'s loop; returns true when the key quits. */
    method Dispatch(ev: Event, walk: seq<Entry>) returns (quit: bool)
      requires Valid()
      modifies this, player
      ensures Valid() && (Snapshot(), quit) == AppSpec.Dispatch(old(Snapshot()), ev, walk, player.attempt)
    {
      quit := false;
      if ev.Key? && ev.kind == Press {
        match ev.code {
          case Char('q') => quit := true;
          case Down => Next();
          case Char('j') => Next();
          case Up => Previous();
          case Char('k') => Previous();
          case Enter => PlaySelected();
          case Char('s') => Stop();
          case Char(' ') => TogglePause();
          case Char('+') => VolumeUp();
          case Char('-') => VolumeDown();
          case Char('r') => RefreshFiles(walk);
          case Char('n') => PlayNext();
          case Char('p') => PlayPrevious();
          case _ =>
        }
      }
    }

    /**
     * One turn of `run_app`'s loop after drawing: `drained` says whether the
     * device played out the queue meanwhile; then the auto-advance check,
     * then the dispatch of one event. Returns true when the key quits.
     */
    method Tick(drained: bool, ev: Event, walk: seq<Entry>) returns (quit: bool)
      requires Valid()
      modifies this, player
      ensures Valid() && (Snapshot(), quit) == AppSpec.Tick(old(Snapshot()), drained, ev, walk, player.attempt)
    {
      if drained {
        player.Drain();
      }
      AutoAdvance();
      quit := Dispatch(ev, walk);
    }
  }
}

# OxiPlayer controller, backend and view decisions in Dafny

OxiPlayer is a terminal music player. It scans a directory for audio files and lists them sorted by name. It plays the selected file through the audio device and moves to the next track when one finishes. This project models its core:

- **Library scan** (`Library`, from `App::scan_music_files`). The directory walk is an input: the sequence of entries it yields, each with a path, a file name and an extension. The scan keeps the entries whose extension, lower-cased, is mp3, wav, flac, ogg, m4a or aac. It then sorts them by name with a stable sort. `ScanMusicFiles` is the walk loop followed by the sort. The lemmas prove three things about the result. It is sorted in byte-wise string order. It is a permutation of the kept entries. It keeps walk order among equal names. `StableSortUnique` proves that these properties determine the result.
- **Playback backend** (`Audio`, from `AudioPlayer`). The backend has one slot that holds at most one session (a rodio `Sink`). The pure functions `PlayB`, `StopB`, `PauseB`, `ResumeB`, `SetVolumeB`, `IsPausedB` and `IsEmptyB` specify the operations. The class `AudioPlayer` performs them on its fields and is proved against those functions. Sessions carry ids, and the backend records which sessions were stopped. The invariant `OneSession` says that every session except the one in the slot has been stopped. `AtMostOneLive` derives from it that at most one session is live. The player's `attempt` function decides what building a session for a path meets: success, or failure to create the sink, open the file or decode it. The device playing out the queue is the environment step `DrainB` / `AudioPlayer.Drain`.
- **Application controller** (`AppSpec` and `Oxiplayer.App`, from `App` and `run_app`). `AppSpec` gives one transition function per `App` method, over `AppState`, a snapshot of the app's fields. It also defines `Consistent`, the invariant every reachable state keeps. The cursor is in range and selected by the list state whenever the library is non-empty. The list state is empty otherwise. The volume is in [0, 1]. The backend holds at most one live session. The class `Oxiplayer.App` has the source's fields and methods, and each method is proved to perform its `AppSpec` transition. `Tick` is one turn of the main loop after drawing. It takes whether the device drained the queue, the auto-advance check and the dispatch of one terminal event.
- **View decisions** (`View`, from `ui.rs`). These functions read an `AppState` value. They decide the prefix and style of each row, the list title or the empty placeholder, the info panel's texts and the footer.

Volume is in integer tenths: 7 is the initial 0.7, and 10 is 1.0. It is an `int`, so the clamping can be stated for any start value: `volume_up` never goes above 1.0, and `volume_down` never goes below 0.0.

Where the code behaves in a way a reader might not expect, this model follows the code:

- A failed play might be expected to clear the playing name, but the code keeps it. When `play` fails, `play_selected` changes only the status. The previous `current_playing` name stays, although the backend slot is now empty. The next turn of the loop therefore auto-advances unless the app is marked paused (`FailedPlayAutoAdvances`).
- The scan does not check that an entry is a regular file. A directory named `x.mp3` is kept, and so is the root when its name ends in a music extension.
- The scan never fails. Walk errors, including an error on the root, are dropped, and the function always returns `Ok`.
- `str::to_lowercase` is modelled as ASCII lower-casing. Only two non-ASCII characters lower-case to something that contains an ASCII letter: U+212A lower-cases to `k`, and U+0130 lower-cases to `i` followed by a combining dot. Neither result can complete one of the six extensions, so the keep-or-drop decision is the same.

## Model

| member | source | states |
|---|---|---|
| Library.ScanMusicFiles | src/main.rs:66-88 | the scan returns the kept entries sorted by name: sorted, a permutation of the kept entries, and in walk order among equal names |
| Library.KeptMembers | src/main.rs:70-84 | a track is pushed exactly when some walked entry with a music extension produced it |
| Library.ScanMembers | src/main.rs:66-88 | a track is in the scanned library exactly when a walked entry with a music extension produced it |
| Library.ExtensionCases | src/main.rs:72-74 | "MP3" and "Flac" are accepted; no extension, a non-UTF-8 extension, "txt" and the empty extension of a name ending in a dot are not |
| Library.IsMusicExtension | src/main.rs:72-74 | only a UTF-8 extension of three or four letters can be accepted, and each of the six formats written in lower case is |
| Text.Lower | src/main.rs:74 | lower-casing keeps the length, turns each upper-case ASCII letter into its lower-case letter, leaves every other character alone and leaves no upper-case ASCII letter behind |
| Library.Kept | src/main.rs:70-84 | the walk loop pushes at most one track per walked entry |
| Library.KeptAllOrNone | src/main.rs:70-84 | a walk whose entries all have music extensions keeps every entry, in walk order; a walk with none keeps nothing |
| Library.SortByName | src/main.rs:86 | the sort returns as many tracks as it was given |
| Library.SortByNameIdempotent | src/main.rs:86 | sorting a list already ordered by name changes nothing, so sorting twice is sorting once |
| Library.Scan | src/main.rs:66-88 | the library a walk yields is ordered by name and holds as many tracks as the loop kept |
| Library.SortByNameSorted | src/main.rs:86 | the sort yields a list ordered by name |
| Library.SortByNamePermutes | src/main.rs:86 | the sort keeps every track, each as many times as in the input |
| Library.SortByNameStable | src/main.rs:86 | the sort keeps the input order among tracks with equal names |
| Library.StableSortUnique | src/main.rs:86 | any name-sorted list that keeps the input order among equal names is the sort's result |
| Library.SortedNamesakesDetermine | src/main.rs:86 | two name-sorted lists that agree, name by name, on their tracks and order are equal |
| Library.ScanExample | src/main.rs:66-88 | a walk over b.mp3, a.wav and c.txt yields [a.wav, b.mp3] |
| Text.NameLe | src/main.rs:86 | Rust's `String` order, byte-wise on UTF-8 and so lexicographic on code points: a name sorts before every longer name that starts with it, and never after it |
| Text.NameLeTotal | src/main.rs:86 | any two names are comparable in the string order |
| Text.NameLeTransitive | src/main.rs:86 | the string order is transitive |
| Text.NameLeAntisymmetric | src/main.rs:86 | names that compare both ways are equal |
| Text.NameLeReflexive | src/main.rs:86 | every name compares less-or-equal to itself |
| Text.NatToString | src/main.rs:216 | the `{}` rendering of a count: a non-empty run of decimal digits with no leading zero |
| Text.ValueOfNatToString | src/main.rs:216 | reading back the decimal text of a count gives the count |
| Text.NatToStringInjective | src/main.rs:216 | different counts print differently |
| Audio.OneSession | src/audio.rs:25-52 | the backend invariant: the slot's session is live, and a created session is stopped exactly when it is not the one in the slot |
| Audio.AtMostOneLive | src/audio.rs:25-52 | under the backend invariant at most one session is live, and it is the one in the slot |
| Audio.Clamp | src/audio.rs:91 | the applied volume is in [0, 1] and equals the requested one when that is in range |
| Audio.StopB | src/audio.rs:46-52 | stop leaves the slot empty, stops the session it held, is a no-op on an empty slot, and leaves no live session |
| AppSpec.Consistent | src/main.rs:40-64 | the state invariant: the list state selects something exactly when the library is non-empty, and at most one playback session is live |
| Audio.PlayB | src/audio.rs:25-44 | play first stops the old session; on success the slot holds a new, unpaused, full-volume session that is the only live one; on any failure the slot is empty and the error text is passed on |
| Audio.PlayTwiceLeavesOne | src/audio.rs:25-44 | two plays in a row leave exactly one live session, the second |
| Audio.PauseB | src/audio.rs:54-60 | pause marks the session paused and does nothing on an empty slot |
| Audio.ResumeB | src/audio.rs:62-68 | resume marks the session playing and does nothing on an empty slot |
| Audio.SetVolumeB | src/audio.rs:88-94 | the session gets the clamped volume; an empty slot is unchanged |
| Audio.DrainB | src/audio.rs:79-86 | draining marks an unpaused session's queue consumed; a paused session or an empty slot is unchanged |
| Audio.IsPausedB | src/audio.rs:70-77 | an empty slot answers not paused; otherwise the session's paused flag |
| Audio.IsEmptyB | src/audio.rs:79-86 | an empty slot answers empty; otherwise whether the session's queue is consumed |
| Audio.QueriesAfterOperations | src/audio.rs:25-86 | a fresh session is neither paused nor empty; a failed play leaves the backend empty; pause shows in is_paused exactly when there is a session; resume clears it; stop leaves the backend empty and not paused; draining empties exactly an unpaused or already drained session |
| Audio.AudioPlayer.constructor | src/audio.rs:15-23 | a new player has an empty slot |
| Audio.AudioPlayer.Play | src/audio.rs:25-44 | performs PlayB on the slot and keeps the one-session invariant |
| Audio.AudioPlayer.Stop | src/audio.rs:46-52 | performs StopB on the slot |
| Audio.AudioPlayer.Pause | src/audio.rs:54-60 | performs PauseB on the slot |
| Audio.AudioPlayer.Resume | src/audio.rs:62-68 | performs ResumeB on the slot |
| Audio.AudioPlayer.IsPaused | src/audio.rs:70-77 | answers IsPausedB of the slot |
| Audio.AudioPlayer.IsEmpty | src/audio.rs:79-86 | answers IsEmptyB of the slot |
| Audio.AudioPlayer.SetVolume | src/audio.rs:88-94 | performs SetVolumeB on the slot |
| AppSpec.Init | src/main.rs:40-64 | the scanned library, cursor 0, selected in the list state only when there are tracks, nothing playing, volume 0.7, the empty- or ready-status |
| AppSpec.Next | src/main.rs:90-95 | the last index wraps to 0, any other goes one down, an empty library is untouched; only the cursor and list state change; the invariant is kept |
| AppSpec.Previous | src/main.rs:97-106 | index 0 wraps to the last, any other goes one up, an empty library is untouched; the invariant is kept |
| AppSpec.PlaySelected | src/main.rs:108-130 | empty library: only the status changes; success: the cursor's track is playing, unpaused, at the app's volume, with its status; failure: only the status and backend change and the playing name stays; "No file selected" never occurs under the invariant |
| AppSpec.Stop | src/main.rs:132-137 | always ends with nothing playing, not paused, status "Stopped", and no live session |
| AppSpec.Pause | src/main.rs:139-145 | a no-op unless a track is marked playing and not paused; then paused with status "Paused" |
| AppSpec.Resume | src/main.rs:147-155 | a no-op unless a track is marked playing and paused; then unpaused with the playing status |
| AppSpec.TogglePause | src/main.rs:157-165 | a no-op when nothing is playing; otherwise it is resume (status back to the playing text, backend resumed) when paused and pause (status "Paused", backend paused) when not, flipping the paused flag and leaving the playing name, library, cursor, list state and volume alone |
| AppSpec.PlayNext | src/main.rs:167-181 | from the last track: the first track is played as play_selected does after the cursor wraps to 0, and the status is then replaced by the loop-back text, whatever playing produced; from any other: cursor + 1 and play_selected's outcome; no-op on an empty library |
| AppSpec.PlayPrevious | src/main.rs:183-189 | moves up with wrap-around and plays; no-op on an empty library |
| AppSpec.VolumeUp | src/main.rs:191-195 | the volume never exceeds 1.0, rises by a tenth below it, stays at 1.0 from 1.0 (or above), and reaches the backend with its status |
| AppSpec.VolumeDown | src/main.rs:197-201 | the volume never drops below 0.0, falls by a tenth above it, stays at 0.0 from 0.0 (or below), and reaches the backend with its status |
| AppSpec.Percent | src/main.rs:194 | the percentage is 10 per tenth from 0 to 255, is 0 for any volume at or below zero and exactly 255 for any volume whose percentage reaches 255, like the saturating float-to-u8 cast |
| AppSpec.VolumeText | src/main.rs:194 | the volume status of a volume in range shows its whole percentage |
| AppSpec.VolumeTextInjective | src/main.rs:194 | different volumes in range show different volume statuses |
| AppSpec.VolumeKeysStayInRange | src/main.rs:191-201 | any sequence of volume keys keeps the volume in [0, 1] |
| AppSpec.RefreshFiles | src/main.rs:203-219 | clamps a cursor past the end to the last track, leaves it alone on an empty library with no list selection, never touches playback, and reports the count |
| AppSpec.RefreshClampsCursor | src/main.rs:205-207 | cursor 4 over a library refreshed to two tracks becomes 1 |
| AppSpec.RefreshedTextInjective | src/main.rs:216 | the refresh status determines the number of tracks found |
| AppSpec.LoopedTextDistinct | src/main.rs:173-177 | the loop-back status differs from every status play_selected leaves |
| AppSpec.PlayNextLoopBackIsDistinct | src/main.rs:167-181 | play_next from the last track leaves a status that play_next from any other track cannot |
| AppSpec.ShouldAdvance | src/main.rs:274 | the advance test holds exactly when a track is marked playing, the app is not paused, and the backend has no session or its queue is consumed |
| AppSpec.AutoAdvance | src/main.rs:273-277 | fires exactly when a track is marked playing, not paused, and the backend is empty, and then does what play_next does |
| AppSpec.FailedPlayAutoAdvances | src/main.rs:122-124 | after a failed play the old playing name stays and the next check auto-advances unless paused |
| AppSpec.PlayedTrackWaitsForDrain | src/main.rs:274 | a freshly played track does not auto-advance until its queue drains, and then does |
| AppSpec.Dispatch | src/main.rs:279-304 | only key presses act; 'q' quits and changes nothing; Down/'j' is next, Up/'k' previous, Enter play_selected, 's' stop, space toggle_pause, '+' volume_up, '-' volume_down, 'r' refresh_files, 'n' play_next, 'p' play_previous; every other key leaves the state alone; the invariant is kept |
| AppSpec.Tick | src/main.rs:270-305 | one loop turn is, in this order, the device's drain since the previous turn (when it happened), the auto-advance check, then the dispatch of the event (the drain's placement is the model's, see Left out); it quits exactly on 'q' and keeps the invariant |
| Oxiplayer.App.constructor | src/main.rs:40-64 | the new app's state is Init of the walk |
| Oxiplayer.App.Next | src/main.rs:90-95 | performs AppSpec.Next on the fields and keeps Valid |
| Oxiplayer.App.Previous | src/main.rs:97-106 | performs AppSpec.Previous on the fields |
| Oxiplayer.App.PlaySelected | src/main.rs:108-130 | performs AppSpec.PlaySelected through the player |
| Oxiplayer.App.Stop | src/main.rs:132-137 | performs AppSpec.Stop |
| Oxiplayer.App.Pause | src/main.rs:139-145 | performs AppSpec.Pause |
| Oxiplayer.App.Resume | src/main.rs:147-155 | performs AppSpec.Resume |
| Oxiplayer.App.TogglePause | src/main.rs:157-165 | performs AppSpec.TogglePause |
| Oxiplayer.App.PlayNext | src/main.rs:167-181 | performs AppSpec.PlayNext |
| Oxiplayer.App.PlayPrevious | src/main.rs:183-189 | performs AppSpec.PlayPrevious |
| Oxiplayer.App.VolumeUp | src/main.rs:191-195 | performs AppSpec.VolumeUp |
| Oxiplayer.App.VolumeDown | src/main.rs:197-201 | performs AppSpec.VolumeDown |
| Oxiplayer.App.RefreshFiles | src/main.rs:203-219 | performs AppSpec.RefreshFiles with a fresh scan |
| Oxiplayer.App.AutoAdvance | src/main.rs:273-277 | performs AppSpec.AutoAdvance |
| Oxiplayer.App.Dispatch | src/main.rs:279-304 | performs AppSpec.Dispatch |
| Oxiplayer.App.Tick | src/main.rs:270-305 | performs AppSpec.Tick: drain, auto-advance, dispatch |
| View.RowPrefix | src/ui.rs:117-123 | "♪ " exactly for rows named like the playing track, even the selected one; "> " exactly for the selected row otherwise; two spaces for the rest |
| View.RowStyle | src/ui.rs:105-115 | green-bold, yellow-bold and white follow the same precedence as the prefix |
| View.Rows | src/ui.rs:100-130 | one row per track in order, each with its track's name, its RowPrefix and its RowStyle; a row is marked playing exactly when its name equals the playing name, carries "> " exactly when it is the cursor row and not playing, and two spaces otherwise |
| View.ListTitle | src/ui.rs:132-134 | with no tracks and position 0 the title is the placeholder's "Music Files (0/0)" |
| View.ListTitleReadsBack | src/ui.rs:132-134 | the digits after "Music Files (" read back as the cursor position, and the digits between '/' and ')' as the number of tracks |
| View.ListTitleInjective | src/ui.rs:132-134 | the title determines both the cursor position and the number of tracks |
| View.FileList | src/ui.rs:62-149 | an empty library gets the placeholder titled "Music Files (0/0)"; otherwise the list titled with cursor + 1 and the count, highlighting the list state's row |
| View.PlayerStatus | src/ui.rs:162-197 | "Stopped" exactly when nothing is playing; otherwise "Paused" or "Playing" by the paused flag |
| View.PlayerStatusColor | src/ui.rs:164-197 | red, yellow or green according to the status text |
| View.NowPlaying | src/ui.rs:162-194 | the playing name, listed or not, or "No music playing" |
| View.VolumeLine | src/ui.rs:182 | the volume as a whole percentage |
| View.FooterLine | src/ui.rs:243-252 | the status message verbatim, green exactly while something is marked playing, yellow otherwise |
| View.EveryNamesakeMarked | src/ui.rs:105-118 | every row sharing the playing name is marked, duplicates included |
| View.UnlistedPlayingMarksNothing | src/ui.rs:105-123 | a playing name absent from the library marks no row, and the cursor row keeps "> " |
| View.OneCursorRow | src/ui.rs:109-121 | only the row at the cursor can carry "> " |

## Left out

- Terminal setup and teardown, argument handling, the missing-directory exit and printing of the loop's error in `main` are I/O.
- Drawing is left out: frames, layout, the header, the help text and colours as widget values. The renderer's decisions are functions of an `AppState` value, so drawing cannot change the app.
- `run_app`'s unbounded loop is modelled as one turn, `Tick`. `event::read` and its errors are left out, and the event is an input.
- In the program the device plays out the queue while `event::read` blocks, which is after the auto-advance check. `Tick` reports that drain at the start of the next turn instead, so the order drain, check, key in its contract is the model's own. The visible runs are the same: the key that follows either replaces or stops the session, pauses it (and a paused queue does not drain), or leaves the queue alone.
- `AudioPlayer::new` is modelled only after the output device is open. A failure to open the device, and the error `App::new` propagates from it, are left out.
- The `Mutex` around the slot is left out, because the model is single-threaded. A poisoned lock is not modelled. With a poisoned lock every method except `play` silently does nothing. `play` panics on `unwrap` after it has already built and started the new sink.
- The backend's `attempt` is fixed per path for the life of a player. A failure that changes over time, such as a file deleted and recreated, is not captured.
- The sink is a value held in the slot. Its in-place updates (pause, play, set_volume) replace that value. Nothing else refers to the sink, so no aliasing is lost.
- Error messages from rodio and the file system are their text, carried by `Attempt`. Their exact wording is not modelled.
- `WalkDir` traversal, file-system errors and `to_string_lossy` are left out. The walk is an input sequence of entries whose file names are already displayable.
- `ScanMusicFiles` does not check `path.file_name()`: an entry that has an extension always has a file name.
- Library.Scan: its own contract gives only the order and the count. That the tracks are exactly the kept ones, each as often as kept, is stated by Library.ScanMusicFiles, Library.SortByNamePermutes and Library.ScanMembers. Putting it on Scan too makes proofs that unfold Scan too costly.
- Library.Kept: its own contract is the length bound. Which tracks it holds is stated by Library.KeptMembers and Library.KeptAllOrNone.
- AppSpec.VolumeUp: volume in tenths does not model f32 drift. After several steps the float can sit just off a tenth, for example 0.70000005.
- AppSpec.VolumeDown: same as AppSpec.VolumeUp.
- AppSpec.Percent: the percentage is 10 per tenth. The f32 product can truncate one lower, for example 69 instead of 70.
- View.VolumeLine: uses `Percent`, with the same simplification.
- `Result` returns that are always `Ok` are left out: `play_selected`, `play_next`, `play_previous` and `refresh_files` are modelled as methods without a result.

/**
 * The playback backend (`AudioPlayer`): a single slot that holds at most
 * one playback session (a rodio `Sink`).
 *
 * The output device, the file system and the decoder are not modelled. What
 * `play` meets when it builds a session for a path is the player's
 * `attempt` function; the device consuming the queued audio is the
 * environment step `Drain`. Volumes are integer tenths: 10 is 1.0.
 *
 * The value-level functions (`PlayB`, `StopB`, ...) specify the operations;
 * the class `AudioPlayer` performs them on its fields and is proved against
 * them.
 */
module Audio {
  import opened Wrappers

  /** Full volume, 1.0, in tenths. */
  const MaxVolume := 10

  /**
   * What building a session for one path meets: success, or the step that
   * fails (creating the sink, opening the file, decoding it) with its error text.
   */
  datatype Attempt = Decodes | SinkFails(reason: string) | OpenFails(reason: string) | DecodeFails(reason: string)

  /** One playback session. `id` tells sessions apart; `empty` means its queue has been consumed. */
  datatype Sink = Sink(id: nat, paused: bool, empty: bool, volume: nat)

  /**
   * The backend's state: the slot, how many sessions were ever created
   * (their ids are 0 .. created-1) and the ids of those that were stopped.
   */
  datatype Backend = Backend(slot: Option<Sink>, created: nat, stopped: set<nat>)

  const Idle := Backend(None, 0, {})

  /** True when the slot holds the session with this id. */
  predicate Holds(b: Backend, id: nat)
  {
    b.slot.Some? && b.slot.value.id == id
  }

  /**
   * The backend invariant: the session in the slot is live, every other
   * session ever created has been stopped, and only created sessions were.
   */
  predicate OneSession(b: Backend)
    ensures OneSession(b) ==> forall id :: 0 <= id < b.created ==> (id in b.stopped <==> !Holds(b, id))
  {
    && (b.slot.Some? ==> b.slot.value.id < b.created && b.slot.value.id !in b.stopped)
    && (forall id :: id in b.stopped ==> id < b.created)
    && forall id :: 0 <= id < b.created && !Holds(b, id) ==> id in b.stopped
  }

  /** The sessions created and not yet stopped. */
  function LiveSessions(b: Backend): set<nat>
  {
    set id | 0 <= id < b.created && id !in b.stopped
  }

  /** Under the invariant at most one session is live, and it is the one in the slot. */
  lemma AtMostOneLive(b: Backend)
    requires OneSession(b)
    ensures LiveSessions(b) == if b.slot.Some? then {b.slot.value.id} else {}
    ensures |LiveSessions(b)| <= 1
  {
    var expected: set<nat> := if b.slot.Some? then {b.slot.value.id} else {};
    forall id | id in LiveSessions(b) ensures id in expected {
      assert Holds(b, id);
    }
    assert LiveSessions(b) == expected;
  }

  /** `volume.clamp(0.0, 1.0)`. */
  function Clamp(v: int): (r: nat)
    ensures r <= MaxVolume
    ensures 0 <= v <= MaxVolume ==> r == v
    ensures v < 0 ==> r == 0
    ensures v > MaxVolume ==> r == MaxVolume
  {
    if v < 0 then 0 else if v > MaxVolume then MaxVolume else v
  }

  /** `stop`: take the session out of the slot and stop it. */
  function StopB(b: Backend): (r: Backend)
    ensures r.slot.None?
    ensures b.slot.None? ==> r == b
    ensures b.slot.Some? ==> r.stopped == b.stopped + {b.slot.value.id} && r.created == b.created
    ensures OneSession(b) ==> OneSession(r) && LiveSessions(r) == {}
  {
    match b.slot
    case None => b
    case Some(sink) => Backend(None, b.created, b.stopped + {sink.id})
  }

  /**
   * `play`: stop the current session, then build a new one. A new sink plays
   * at full volume. When opening or decoding fails, the sink already created
   * is dropped, which stops it.
   */
  function PlayB(b: Backend, a: Attempt): (r: (Backend, Outcome<string>))
    ensures r.1.Pass? <==> a.Decodes?
    ensures r.1.Fail? ==> r.1.error == a.reason
    ensures b.slot.Some? ==> b.slot.value.id in r.0.stopped
    ensures a.Decodes? ==> r.0.slot == Some(Sink(b.created, false, false, MaxVolume))
    ensures !a.Decodes? ==> r.0.slot.None?
    ensures OneSession(b) ==> OneSession(r.0)
    ensures OneSession(b) && a.Decodes? ==> LiveSessions(r.0) == {b.created}
    ensures OneSession(b) && !a.Decodes? ==> LiveSessions(r.0) == {}
  {
    var idle := StopB(b);
    match a
    case SinkFails(why) => (idle, Fail(why))
    case OpenFails(why) => (Backend(None, idle.created + 1, idle.stopped + {idle.created}), Fail(why))
    case DecodeFails(why) => (Backend(None, idle.created + 1, idle.stopped + {idle.created}), Fail(why))
    case Decodes => (Backend(Some(Sink(idle.created, false, false, MaxVolume)), idle.created + 1, idle.stopped), Pass)
  }

  /** `pause`: pause the session if there is one. */
  function PauseB(b: Backend): (r: Backend)
    ensures b.slot.None? ==> r == b
    ensures b.slot.Some? ==> r.slot == Some(b.slot.value.(paused := true))
    ensures r.created == b.created && r.stopped == b.stopped
    ensures OneSession(b) ==> OneSession(r) && LiveSessions(r) == LiveSessions(b)
  {
    match b.slot
    case None => b
    case Some(sink) => b.(slot := Some(sink.(paused := true)))
  }

  /** `resume`: set the session playing if there is one. */
  function ResumeB(b: Backend): (r: Backend)
    ensures b.slot.None? ==> r == b
    ensures b.slot.Some? ==> r.slot == Some(b.slot.value.(paused := false))
    ensures r.created == b.created && r.stopped == b.stopped
    ensures OneSession(b) ==> OneSession(r) && LiveSessions(r) == LiveSessions(b)
  {
    match b.slot
    case None => b
    case Some(sink) => b.(slot := Some(sink.(paused := false)))
  }

  /** `set_volume`: apply the clamped volume to the session if there is one. */
  function SetVolumeB(b: Backend, v: int): (r: Backend)
    ensures b.slot.None? ==> r == b
    ensures b.slot.Some? ==> r.slot == Some(b.slot.value.(volume := Clamp(v)))
    ensures r.slot.Some? ==> r.slot.value.volume <= MaxVolume
    ensures r.created == b.created && r.stopped == b.stopped
    ensures OneSession(b) ==> OneSession(r) && LiveSessions(r) == LiveSessions(b)
  {
    match b.slot
    case None => b
    case Some(sink) => b.(slot := Some(sink.(volume := Clamp(v))))
  }

  /** The device has played out the queue of an unpaused session. */
  function DrainB(b: Backend): (r: Backend)
    ensures b.slot.None? || b.slot.value.paused ==> r == b
    ensures b.slot.Some? && !b.slot.value.paused ==> r.slot == Some(b.slot.value.(empty := true))
    ensures r.created == b.created && r.stopped == b.stopped
    ensures OneSession(b) ==> OneSession(r) && LiveSessions(r) == LiveSessions(b)
  {
    match b.slot
    case None => b
    case Some(sink) => if sink.paused then b else b.(slot := Some(sink.(empty := true)))
  }

  /** `is_paused`: false when there is no session. */
  function IsPausedB(b: Backend): (r: bool)
    ensures b.slot.None? ==> !r
    ensures r <==> b.slot.Some? && b.slot.value.paused
  {
    match b.slot
    case None => false
    case Some(sink) => sink.paused
  }

  /** `is_empty`: true when there is no session, or when its queue has been consumed. */
  function IsEmptyB(b: Backend): (r: bool)
    ensures b.slot.None? ==> r
    ensures r <==> b.slot.None? || b.slot.value.empty
  {
    match b.slot
    case None => true
    case Some(sink) => sink.empty
  }

  /**
   * What the queries answer after each operation: a fresh session plays and
   * has audio queued, pause and resume show up in `is_paused` exactly when
   * there is a session, and after stop the backend is empty and not paused.
   */
  lemma QueriesAfterOperations(b: Backend, a: Attempt)
    ensures PlayB(b, a).1.Pass? ==> !IsPausedB(PlayB(b, a).0) && !IsEmptyB(PlayB(b, a).0)
    ensures PlayB(b, a).1.Fail? ==> IsEmptyB(PlayB(b, a).0) && !IsPausedB(PlayB(b, a).0)
    ensures IsPausedB(PauseB(b)) <==> b.slot.Some?
    ensures !IsPausedB(ResumeB(b))
    ensures IsEmptyB(StopB(b)) && !IsPausedB(StopB(b))
    ensures IsEmptyB(DrainB(b)) <==> b.slot.None? || !b.slot.value.paused || b.slot.value.empty
  {
  }

  /** Two plays in a row leave one live session: the second one. */
  lemma PlayTwiceLeavesOne(b: Backend, p: Attempt, q: Attempt)
    requires OneSession(b) && p.Decodes? && q.Decodes?
    ensures var twice := PlayB(PlayB(b, p).0, q).0;
            LiveSessions(twice) == {b.created + 1} && twice.slot.value.id == b.created + 1
  {
  }

  /** The backend, with the slot as a mutable field. */
  class AudioPlayer {
    /** What building a session for each path meets (device, file system, decoder). */
    const attempt: string -> Attempt
    var slot: Option<Sink>
    var created: nat
    ghost var stopped: set<nat>

    ghost function State(): Backend
      reads this
    {
      Backend(slot, created, stopped)
    }

    ghost predicate Valid()
      reads this
    {
      OneSession(State())
    }

    /** `AudioPlayer::new` once the output device is open: an empty slot. */
    constructor (attempt: string -> Attempt)
      ensures Valid() && State() == Idle && this.attempt == attempt
    {
      this.attempt := attempt;
      slot := None;
      created := 0;
      stopped := {};
    }

    method Stop()
      requires Valid()
      modifies this
      ensures Valid() && State() == StopB(old(State()))
    {
      if slot.Some? {
        var sink := slot.value;
        slot := None;
        stopped := stopped + {sink.id};
      }
    }

    method Play(path: string) returns (r: Outcome<string>)
      requires Valid()
      modifies this
      ensures Valid() && (State(), r) == PlayB(old(State()), attempt(path))
    {
      Stop();
      var outcome := attempt(path);
      if outcome.SinkFails? {
        return Fail(outcome.reason);
      }
      var sink := Sink(created, false, false, MaxVolume);
      created := created + 1;
      if outcome.OpenFails? || outcome.DecodeFails? {
        // the new sink is dropped on the error path, and dropping stops it
        stopped := stopped + {sink.id};
        return Fail(outcome.reason);
      }
      slot := Some(sink);
      r := Pass;
    }

    method Pause()
      requires Valid()
      modifies this
      ensures Valid() && State() == PauseB(old(State()))
    {
      if slot.Some? {
        slot := Some(slot.value.(paused := true));
      }
    }

    method Resume()
      requires Valid()
      modifies this
      ensures Valid() && State() == ResumeB(old(State()))
    {
      if slot.Some? {
        slot := Some(slot.value.(paused := false));
      }
    }

    method IsPaused() returns (r: bool)
      ensures r == IsPausedB(State())
    {
      r := slot.Some? && slot.value.paused;
    }

    method IsEmpty() returns (r: bool)
      ensures r == IsEmptyB(State())
    {
      r := slot.None? || slot.value.empty;
    }

    method SetVolume(volume: int)
      requires Valid()
      modifies this
      ensures Valid() && State() == SetVolumeB(old(State()), volume)
    {
      if slot.Some? {
        var v := if volume < 0 then 0 else if volume > MaxVolume then MaxVolume else volume;
        slot := Some(slot.value.(volume := v));
      }
    }

    /** Environment step: the device thread plays the queue of an unpaused session to its end. */
    method Drain()
      requires Valid()
      modifies this
      ensures Valid() && State() == DrainB(old(State()))
    {
      if slot.Some? && !slot.value.paused {
        slot := Some(slot.value.(empty := true));
      }
    }
  }
}

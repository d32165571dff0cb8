/**
  The audio host of offscreen.js: a single `currentAudio` slot driven by the
  `playSoundOffscreen` and `stopSoundOffscreen` messages. Playing a new
  sound first pauses and rewinds the current one, so at most one sound the
  host created is ever audible.
*/
module Offscreen {

  /** An `Audio` element: its source, whether it is paused, and its playback position in seconds. */
  class Audio {
    const src: string
    var paused: bool
    var currentTime: int

    constructor (src: string)
      ensures this.src == src && paused && currentTime == 0
    {
      this.src := src;
      paused := true;
      currentTime := 0;
    }
  }

  /** A message to the offscreen document; an empty `soundPath` stands for a missing one. */
  datatype HostMessage = PlaySoundOffscreen(soundPath: string) | StopSoundOffscreen | OtherMessage(action: string)

  /** The offscreen document's state. */
  class SoundHost {
    var currentAudio: Audio?
    /** Every `Audio` the host has created. */
    ghost var made: set<Audio>

    ghost predicate Valid()
      reads this, made
    {
      && (currentAudio != null ==> currentAudio in made)
      && forall a | a in made && a != currentAudio :: a.paused
    }

    /** The sounds the host created that are playing. */
    ghost function Audible(): (playing: set<Audio>)
      reads this, made
      requires Valid()
      ensures playing <= made
      ensures currentAudio == null ==> playing == {}
      ensures currentAudio != null ==> playing <= {currentAudio}
    {
      set a | a in made && !a.paused
    }

    constructor ()
      ensures Valid() && currentAudio == null && made == {}
    {
      currentAudio := null;
      made := {};
    }

    /**
      `playSoundOffscreen` with a path: pause and rewind the current sound,
      make a new `Audio` current and start it. `started` is whether `play()`
      succeeded; when it fails the catch handler leaves no current sound.
    */
    method Play(soundPath: string, started: bool) returns (keepOpen: bool)
      requires Valid() && soundPath != ""
      modifies this, made
      ensures Valid() && !keepOpen
      ensures old(currentAudio) != null ==> old(currentAudio).paused && old(currentAudio).currentTime == 0
      ensures started ==> currentAudio != null && fresh(currentAudio)
                          && currentAudio.src == soundPath && !currentAudio.paused
      ensures !started ==> currentAudio == null
      ensures Audible() == if started then {currentAudio} else {}
      ensures forall a | a in old(made) && a != old(currentAudio) :: unchanged(a)
    {
      if currentAudio != null {
        currentAudio.paused := true;
        currentAudio.currentTime := 0;
      }
      var a := new Audio(soundPath);
      made := made + {a};
      currentAudio := a;
      if started {
        a.paused := false;
      } else {
        currentAudio := null;
      }
      keepOpen := false;
    }

    /**
      `stopSoundOffscreen`: pause, rewind and forget the current sound. With
      no current sound nothing changes, so stopping twice is stopping once.
    */
    method Stop() returns (keepOpen: bool)
      requires Valid()
      modifies this, made
      ensures Valid() && !keepOpen
      ensures currentAudio == null && made == old(made) && Audible() == {}
      ensures old(currentAudio) != null ==> old(currentAudio).paused && old(currentAudio).currentTime == 0
      ensures old(currentAudio) == null ==> forall a | a in made :: unchanged(a)
      ensures forall a | a in old(made) && a != old(currentAudio) :: unchanged(a)
    {
      if currentAudio != null {
        currentAudio.paused := true;
        currentAudio.currentTime := 0;
        currentAudio := null;
      }
      keepOpen := false;
    }

    /** The message listener: every branch returns false. */
    method OnMessage(msg: HostMessage, started: bool) returns (keepOpen: bool)
      requires Valid()
      modifies this, made
      ensures Valid() && !keepOpen
      ensures msg.PlaySoundOffscreen? && msg.soundPath != "" ==>
        (started ==> currentAudio != null && fresh(currentAudio)
                     && currentAudio.src == msg.soundPath && !currentAudio.paused) &&
        (!started ==> currentAudio == null) &&
        Audible() == (if started then {currentAudio} else {})
      ensures msg.StopSoundOffscreen? ==> currentAudio == null && made == old(made) && Audible() == {}
      ensures (msg.PlaySoundOffscreen? && msg.soundPath != "") || msg.StopSoundOffscreen? ==>
        (old(currentAudio) != null ==> old(currentAudio).paused && old(currentAudio).currentTime == 0)
      ensures forall a | a in old(made) && a != old(currentAudio) :: unchanged(a)
      ensures (msg.PlaySoundOffscreen? && msg.soundPath == "") || msg.OtherMessage? ==>
        currentAudio == old(currentAudio) && made == old(made) && forall a | a in made :: unchanged(a)
    {
      keepOpen := false;
      match msg {
        case PlaySoundOffscreen(soundPath) =>
          if soundPath != "" {
            keepOpen := Play(soundPath, started);
          }
        case StopSoundOffscreen =>
          keepOpen := Stop();
        case OtherMessage(_) =>
      }
    }

    /** The current sound finishes: the media element pauses and `onended` forgets it. */
    method OnEnded()
      requires Valid()
      modifies this, made
      ensures Valid()
      ensures currentAudio == null && made == old(made) && Audible() == {}
      ensures forall a | a in old(made) && a != old(currentAudio) :: unchanged(a)
    {
      if currentAudio != null {
        currentAudio.paused := true;
        currentAudio := null;
      }
    }
  }
}

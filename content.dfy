/**
  The page observer of content.js: one `videoPauseTimer` per page, armed when
  the watched video pauses, cleared when it plays or when the background asks
  for it, and reporting `videoPausedTooLong` when it expires; plus the marker
  that attaches the pause/play listeners to a video element only once.

  Timers are modelled as the page's table of pending timeouts (handle to
  delay) beside the variable that holds the last handle; `setTimeout` hands
  out positive handles, so a held handle is always truthy.
*/
module Content {
  import opened Wrappers
  import opened JsValues

  /** Fallback pause timeout, in seconds, when no usable setting is stored. */
  const DefaultVideoPauseSeconds := 10

  /**
    The pause-timer delay in milliseconds for a stored `totalVideoPauseSeconds`:
    the stored number when it is a number, not NaN and at least 1, otherwise 10
    seconds.
  */
  function PauseTimeoutMs(stored: Value): (ms: int)
    ensures ms >= 1000 && ms % 1000 == 0
    ensures stored.Number? && stored.n >= 1 ==> ms == 1000 * stored.n
    ensures !(stored.Number? && stored.n >= 1) ==> ms == 1000 * DefaultVideoPauseSeconds
  {
    SecondsOrDefault(stored, DefaultVideoPauseSeconds) * 1000
  }

  /** A message the page sends to the background script. */
  datatype Outgoing = VideoPausedTooLong(videoUrl: string) | VideoPlayed(videoUrl: string)

  /** At most one timeout is pending when every pending one is the handle the variable holds. */
  ghost predicate OnlyHeldPending(held: Option<nat>, pending: map<nat, int>) {
    forall h | h in pending :: held == Some(h)
  }

  lemma AtMostOnePending(held: Option<nat>, pending: map<nat, int>)
    requires OnlyHeldPending(held, pending)
    ensures |pending| <= 1
    ensures held.None? ==> pending == map[]
  {
    if held.Some? {
      assert pending.Keys <= {held.value};
      if held.value in pending {
        assert pending.Keys == {held.value};
      } else {
        assert pending.Keys == {};
      }
    } else {
      assert pending.Keys == {};
    }
  }

  /** A `<video>` element: its `dataset.driftListenersAttached` and the Drift listeners on it. */
  class Video {
    var driftListenersAttached: Option<string>
    var listeners: seq<string>

    constructor (marker: Option<string>)
      ensures driftListenersAttached == marker && listeners == []
    {
      driftListenersAttached := marker;
      listeners := [];
    }
  }

  /** The content script's state in one page. */
  class PageScript {
    /** `videoPauseTimer`: the last handle stored, which may already be cleared. */
    var videoPauseTimer: Option<nat>
    /** The page's pending timeouts created by this script: handle to delay in ms. */
    var pending: map<nat, int>
    var nextHandle: nat
    /** Messages sent to the background script, in order. */
    var sent: seq<Outgoing>

    /**
      Every pending timeout is the held one, so at most one is pending
      (`AtMostOnePending`). This rests on the pause listener and its storage
      read being one step: in the page the read at content.js:38 completes
      later, so a play event or `cancelVideoPauseTimer` arriving while it is
      pending is followed by the callback at content.js:59 arming a timer
      anyway, and two quick pauses each arm one.
    */
    ghost predicate Valid()
      reads this
    {
      && OnlyHeldPending(videoPauseTimer, pending)
      && nextHandle >= 1
      && (forall h | h in pending :: 1 <= h < nextHandle)
      && (videoPauseTimer.Some? ==> 1 <= videoPauseTimer.value < nextHandle)
    }

    constructor ()
      ensures Valid()
      ensures videoPauseTimer.None? && pending == map[] && sent == []
    {
      videoPauseTimer := None;
      pending := map[];
      nextHandle := 1;
      sent := [];
    }

    /**
      The pause listener with its storage read: clear the held timer, then
      arm a new one for the resolved delay. Exactly one timer is pending after.
    */
    method OnPause(stored: Value)
      requires Valid()
      modifies this
      ensures Valid()
      ensures videoPauseTimer == Some(old(nextHandle))
      ensures pending == map[old(nextHandle) := PauseTimeoutMs(stored)]
      ensures sent == old(sent)
    {
      if videoPauseTimer.Some? {
        pending := pending - {videoPauseTimer.value};
      }
      AtMostOnePending(videoPauseTimer, old(pending));
      assert pending == map[];
      var ms := PauseTimeoutMs(stored);
      var h := nextHandle;
      nextHandle := nextHandle + 1;
      pending := pending[h := ms];
      videoPauseTimer := Some(h);
    }

    /**
      The play listener: clear the held timer (the variable keeps the stale
      handle) and report `videoPlayed` with the page URL.
    */
    method OnPlay(href: string)
      requires Valid()
      modifies this
      ensures Valid()
      ensures pending == map[]
      ensures videoPauseTimer == old(videoPauseTimer)
      ensures sent == old(sent) + [VideoPlayed(href)]
    {
      if videoPauseTimer.Some? {
        pending := pending - {videoPauseTimer.value};
      }
      AtMostOnePending(old(videoPauseTimer), old(pending));
      sent := sent + [VideoPlayed(href)];
    }

    /**
      The `cancelVideoPauseTimer` message listener: clear the held timer and
      forget it; nothing to do when none is held. It always returns false.
    */
    method OnCancel() returns (keepOpen: bool)
      requires Valid()
      modifies this
      ensures Valid()
      ensures !keepOpen
      ensures pending == map[] && videoPauseTimer.None?
      ensures sent == old(sent) && nextHandle == old(nextHandle)
      ensures old(videoPauseTimer).None? ==> pending == old(pending)
    {
      AtMostOnePending(videoPauseTimer, pending);
      if videoPauseTimer.Some? {
        pending := pending - {videoPauseTimer.value};
        videoPauseTimer := None;
      }
      keepOpen := false;
    }

    /**
      The page fires timeout `h`: if it is still pending, its callback sends
      exactly one `videoPausedTooLong` with the page URL. A cleared timeout
      never fires.
    */
    method OnTimeout(h: nat, href: string)
      requires Valid()
      modifies this
      ensures Valid()
      ensures pending == old(pending) - {h}
      ensures videoPauseTimer == old(videoPauseTimer)
      ensures sent == old(sent) + (if h in old(pending) then [VideoPausedTooLong(href)] else [])
    {
      if h in pending {
        pending := pending - {h};
        sent := sent + [VideoPausedTooLong(href)];
      }
    }
  }

  /**
    `attachToVideo`: nothing for a missing element or one already marked;
    otherwise add the pause and play listeners and set the marker.
  */
  method AttachToVideo(v: Video?)
    modifies v
    ensures v != null ==> v.driftListenersAttached == Some("true")
    ensures v != null ==> (v.listeners ==
      if old(v.driftListenersAttached) == Some("true") then old(v.listeners)
      else old(v.listeners) + ["pause", "play"])
  {
    if v == null {
      return;
    }
    if v.driftListenersAttached == Some("true") {
      return;
    }
    v.listeners := v.listeners + ["pause", "play"];
    v.driftListenersAttached := Some("true");
  }

  /** The MutationObserver callback: attach to a found video that is not yet marked. */
  method OnMutation(found: Video?)
    modifies found
    ensures found != null ==> found.driftListenersAttached == Some("true")
    ensures found != null ==> (found.listeners ==
      if old(found.driftListenersAttached) == Some("true") then old(found.listeners)
      else old(found.listeners) + ["pause", "play"])
  {
    if found != null && found.driftListenersAttached != Some("true") {
      AttachToVideo(found);
    }
  }

  /**
    Script start followed by a DOM mutation that finds the same video: the
    initial `attachToVideo` and the observer together attach the listeners
    once.
  */
  method StartThenMutation(initial: Video?)
    modifies initial
    ensures initial != null ==> initial.driftListenersAttached == Some("true")
    ensures initial != null ==> (initial.listeners ==
      if old(initial.driftListenersAttached) == Some("true") then old(initial.listeners)
      else old(initial.listeners) + ["pause", "play"])
  {
    if initial != null {
      AttachToVideo(initial);
    }
    OnMutation(initial);
  }
}

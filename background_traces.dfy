/**
  Properties of the background focus monitor over whole sequences of events,
  starting from the state the script is loaded in.
*/
module BackgroundTraces {
  import opened Wrappers
  import opened JsValues
  import opened Background

  /** The state after delivering `evs` in order, starting from `s`. */
  function Run(s: State, evs: seq<Event>): State
    decreases |evs|
  {
    if evs == [] then s else Step(Run(s, evs[..|evs| - 1]), evs[|evs| - 1])
  }

  /**
    What holds in every state reachable from `Init`: the focus id and URL are
    set and cleared together; while nothing is monitored no drift alarm is
    armed and no notification is shown; only the two known notifications are
    ever shown.
  */
  ghost predicate Consistent(s: State) {
    && (s.focusTabId.None? <==> s.focusTabUrl.None?)
    && (s.focusTabId.None? ==> s.driftAlarm.None? && s.shown.Keys == {})
    && s.shown.Keys <= {DriftNotificationId, VideoPauseNotificationId}
  }

  lemma StepKeepsConsistent(s: State, e: Event)
    requires Consistent(s)
    ensures Consistent(Step(s, e))
  {
    match e {
      case TabRemoved(tabId) =>
        if s.focusTabId == Some(tabId) {
          assert Step(s, e).shown.Keys == s.shown.Keys - {DriftNotificationId, VideoPauseNotificationId};
        }
      case _ =>
    }
  }

  lemma {:induction false} RunKeepsConsistent(evs: seq<Event>)
    ensures Consistent(Run(Init, evs))
    decreases |evs|
  {
    if evs != [] {
      RunKeepsConsistent(evs[..|evs| - 1]);
      StepKeepsConsistent(Run(Init, evs[..|evs| - 1]), evs[|evs| - 1]);
    }
  }

  /**
    Once nothing is monitored, nothing is pending: in every reachable state
    without a focus tab, the drift alarm is disarmed and no notification is
    shown, and the focus URL is unset too.

    This rests on each listener running together with its storage read as
    one step. In the script the read at background.js:277 completes later,
    so a quick leave-and-return, or closing the focus tab while the read is
    pending, can let the callback at background.js:292 arm the alarm after
    it was cleared.

    It also rests on the worker staying loaded: a restart forgets the focus
    tab and keeps the alarm (see `RestartSilencesDriftAlarm`).
  */
  lemma {:induction false} InactiveIsQuiet(evs: seq<Event>)
    ensures var s := Run(Init, evs);
      s.focusTabId.None? ==> s.focusTabUrl.None? && s.driftAlarm.None? && s.shown.Keys == {}
    ensures var s := Run(Init, evs);
      s.driftAlarm.Some? ==> s.focusTabId.Some? && s.focusTabUrl.Some?
  {
    RunKeepsConsistent(evs);
  }

  // ---------------------------------------------------------------------------
  // The focus id follows the last start that was not undone by closing its tab

  predicate IsStart(e: Event) {
    e.Message? && e.req.StartMonitoring?
  }

  predicate Removes(e: Event, t: int) {
    e.TabRemoved? && e.tabId == t
  }

  /**
    Some `startMonitoring` for tab `t` was delivered, and after it neither
    another `startMonitoring` nor the removal of tab `t`.
  */
  ghost predicate StartedAndNotRemoved(evs: seq<Event>, t: int) {
    exists i :: 0 <= i < |evs| && IsStart(evs[i]) && evs[i].req.tabId == t &&
      forall j :: i < j < |evs| ==> !IsStart(evs[j]) && !Removes(evs[j], t)
  }

  /** How one event changes the focus id. */
  lemma StepFocus(s: State, e: Event)
    ensures IsStart(e) ==> Step(s, e).focusTabId == Some(e.req.tabId)
    ensures e.TabRemoved? && s.focusTabId == Some(e.tabId) ==> Step(s, e).focusTabId.None?
    ensures !IsStart(e) && !(e.TabRemoved? && s.focusTabId == Some(e.tabId)) ==>
      Step(s, e).focusTabId == s.focusTabId
  {
  }

  /** A `startMonitoring` at the end decides the predicate alone. */
  lemma LastIsStart(evs: seq<Event>, t: int)
    requires evs != [] && IsStart(evs[|evs| - 1])
    ensures StartedAndNotRemoved(evs, t) <==> evs[|evs| - 1].req.tabId == t
  {
    var n := |evs| - 1;
    if evs[n].req.tabId == t {
      assert IsStart(evs[n]) && evs[n].req.tabId == t;
    } else {
      // every earlier start for t is superseded by the last one
      forall i | 0 <= i < |evs| && IsStart(evs[i]) && evs[i].req.tabId == t
        ensures i < n && IsStart(evs[n])
      {
      }
    }
  }

  /** Any other event at the end keeps the predicate unless it closes tab `t`. */
  lemma LastIsNotStart(evs: seq<Event>, t: int)
    requires evs != [] && !IsStart(evs[|evs| - 1])
    ensures StartedAndNotRemoved(evs, t) <==>
      StartedAndNotRemoved(evs[..|evs| - 1], t) && !Removes(evs[|evs| - 1], t)
  {
    var n := |evs| - 1;
    var pre, e := evs[..n], evs[n];
    if StartedAndNotRemoved(evs, t) {
      var i :| 0 <= i < |evs| && IsStart(evs[i]) && evs[i].req.tabId == t &&
        forall j :: i < j < |evs| ==> !IsStart(evs[j]) && !Removes(evs[j], t);
      assert i < n && pre[i] == evs[i];
      assert forall j :: i < j < |pre| ==> pre[j] == evs[j];
      assert StartedAndNotRemoved(pre, t);
    }
    if StartedAndNotRemoved(pre, t) && !Removes(e, t) {
      var i :| 0 <= i < |pre| && IsStart(pre[i]) && pre[i].req.tabId == t &&
        forall j :: i < j < |pre| ==> !IsStart(pre[j]) && !Removes(pre[j], t);
      assert evs[i] == pre[i];
      forall j | i < j < |evs| ensures !IsStart(evs[j]) && !Removes(evs[j], t) {
        if j < n {
          assert evs[j] == pre[j];
        }
      }
      assert StartedAndNotRemoved(evs, t);
    }
  }

  /**
    Tab `t` is the focus tab after a sequence of events exactly when the last
    `startMonitoring` named `t` and tab `t` has not been closed since.
    No other event sets or clears the focus tab; in particular the popup's
    `stopMonitoring` does not. A restart of the worker, which `Run` does
    not contain, forgets the focus tab (see `RestartSilencesDriftAlarm`).
  */
  lemma {:induction false} FocusFollowsLastStart(evs: seq<Event>, t: int)
    ensures Run(Init, evs).focusTabId == Some(t) <==> StartedAndNotRemoved(evs, t)
    decreases |evs|
  {
    if evs == [] {
      return;
    }
    var n := |evs| - 1;
    var pre, e := evs[..n], evs[n];
    FocusFollowsLastStart(pre, t);
    StepFocus(Run(Init, pre), e);
    if IsStart(e) {
      LastIsStart(evs, t);
    } else {
      LastIsNotStart(evs, t);
    }
  }

  // ---------------------------------------------------------------------------
  // A restart of the service worker

  /**
    A restart while the drift alarm is armed leaves a state no run of the
    loaded script reaches: an alarm with no focus tab. Monitoring has
    stopped: the tab the last start named is forgotten, leaving any tab
    arms nothing, and when the kept alarm fires it is dropped without a
    nudge, because the focus URL is null.
  */
  lemma RestartSilencesDriftAlarm(evs: seq<Event>, u: int, now: int, st: Storage, st2: Storage)
    requires Run(Init, evs).driftAlarm.Some?
    ensures Run(Init, evs).focusTabId.Some?
    ensures StartedAndNotRemoved(evs, Run(Init, evs).focusTabId.value)
    ensures var r := Restart(Run(Init, evs));
      && !Consistent(r)
      && r.focusTabId.None?
      && Step(r, TabActivated(u, now, st)) == r
      && Deliver(r, AlarmFired(DriftAlarmName, st2)) == Outcome(r.(driftAlarm := None), [])
  {
    InactiveIsQuiet(evs);
    FocusFollowsLastStart(evs, Run(Init, evs).focusTabId.value);
  }

  // ---------------------------------------------------------------------------
  // Scenarios

  /**
    Starting on tab `t` and then activating `t` leaves the drift alarm
    disarmed and neither the drift nor the video-pause notification shown,
    whatever was armed or shown before.
  */
  lemma StartThenReturnDisarms(s: State, t: int, url: string, sender: Option<int>, st: Storage,
                               open: bool, now: int, st2: Storage)
    ensures var s1 := Step(s, Message(StartMonitoring(t, url), sender, st, open));
      var s2 := Step(s1, TabActivated(t, now, st2));
      s2.focusTabId == Some(t) && s2.focusTabUrl == Some(url) && s2.driftAlarm.None? &&
      DriftNotificationId !in s2.shown && VideoPauseNotificationId !in s2.shown
  {
  }

  /**
    The tab-drift nudge: start on tab `t` with a non-empty URL, activate
    another tab `u` at time `now` with no drift setting stored; the alarm is
    armed 10 seconds later; when it fires, the drift notification is shown
    with the focus URL (up to 100 characters) and the alarm is gone.
  */
  lemma DriftNudgeAfterLeaving(s: State, t: int, url: string, sender: Option<int>, st: Storage,
                               open: bool, u: int, now: int, st2: Storage, st3: Storage)
    requires url != "" && u != t
    requires "totalDriftSeconds" !in st2
    ensures var s1 := Step(s, Message(StartMonitoring(t, url), sender, st, open));
      var s2 := Step(s1, TabActivated(u, now, st2));
      var s3 := Step(s2, AlarmFired(DriftAlarmName, st3));
      && s2.driftAlarm == Some(now + 10000)
      && s3.driftAlarm.None?
      && DriftNotificationId in s3.shown
      && s3.shown[DriftNotificationId].message == DriftPrefix + Prefix(url, 100)
  {
  }

  /** Leaving the focus tab tells the focus tab's page to cancel its pause timer. */
  lemma LeavingCancelsPageTimer(s: State, u: int, now: int, st: Storage)
    requires s.focusTabId.Some? && s.focusTabId != Some(u)
    ensures SendToTab(s.focusTabId.value, "cancelVideoPauseTimer") in Deliver(s, TabActivated(u, now, st)).cmds
  {
  }

  /** A video pause reported by any tab other than the focus tab shows nothing and changes nothing. */
  lemma PauseFromOtherTabIgnored(s: State, url: string, sender: Option<int>, st: Storage, open: bool)
    requires sender != s.focusTabId || !FocusIdTruthy(s)
    ensures var r := OnMessage(s, VideoPausedTooLong(url), sender, st, open);
      r.state == s && r.cmds == [] && r.status == Some(PauseIgnored)
  {
  }

  // ---------------------------------------------------------------------------
  // No drift nudge after returning until the user leaves again

  /** Neither the drift alarm is armed nor the drift notification shown. */
  predicate Quiet(s: State) {
    s.driftAlarm.None? && DriftNotificationId !in s.shown
  }

  /** Activating a tab other than the current focus tab. */
  predicate Leaves(s: State, e: Event) {
    e.TabActivated? && s.focusTabId.Some? && e.tabId != s.focusTabId.value
  }

  /** Delivering `evs` from `s`, no event activates a tab other than the focus tab of the moment. */
  ghost predicate NeverLeaves(s: State, evs: seq<Event>) {
    forall k :: 0 <= k < |evs| ==> !Leaves(Run(s, evs[..k]), evs[k])
  }

  /** Only leaving the focus tab arms the drift alarm or shows the drift notification. */
  lemma StepKeepsQuiet(s: State, e: Event)
    requires Quiet(s) && !Leaves(s, e)
    ensures Quiet(Step(s, e))
  {
    match e {
      case TabActivated(tabId, now, st) =>
        if s.focusTabId == Some(tabId) {
          assert Step(s, e).shown == s.shown - {DriftNotificationId, VideoPauseNotificationId};
        }
      case TabRemoved(tabId) =>
        if s.focusTabId == Some(tabId) {
          assert Step(s, e).shown == s.shown - {DriftNotificationId, VideoPauseNotificationId};
        }
      case Message(req, _, _, _) =>
        if req.VideoPlayed? {
          assert Step(s, e).shown == s.shown - {VideoPauseNotificationId};
        }
      case _ =>
    }
  }

  lemma {:induction false} QuietUntilLeaving(s: State, evs: seq<Event>)
    requires Quiet(s) && NeverLeaves(s, evs)
    ensures Quiet(Run(s, evs))
    decreases |evs|
  {
    if evs != [] {
      var n := |evs| - 1;
      var pre := evs[..n];
      forall k | 0 <= k < |pre| ensures !Leaves(Run(s, pre[..k]), pre[k]) {
        assert pre[..k] == evs[..k];
      }
      QuietUntilLeaving(s, pre);
      assert !Leaves(Run(s, evs[..n]), evs[n]);
      StepKeepsQuiet(Run(s, pre), evs[n]);
    }
  }

  /**
    After the user returns to the focus tab, no drift notification is shown
    and no drift alarm is armed, whatever happens next, until some event
    activates a tab other than the focus tab of that moment.
  */
  lemma {:induction false} NoNudgeAfterReturn(s: State, t: int, now: int, st: Storage, evs: seq<Event>)
    requires s.focusTabId == Some(t)
    requires NeverLeaves(Step(s, TabActivated(t, now, st)), evs)
    ensures var s' := Run(Step(s, TabActivated(t, now, st)), evs);
      s'.driftAlarm.None? && DriftNotificationId !in s'.shown
  {
    var s1 := Step(s, TabActivated(t, now, st));
    assert s1.shown == s.shown - {DriftNotificationId, VideoPauseNotificationId};
    QuietUntilLeaving(s1, evs);
  }

  // ---------------------------------------------------------------------------
  // Idempotence of the disarming events

  /** Closing the focus tab twice has the effect of closing it once. */
  lemma RemovalIsIdempotent(s: State, t: int)
    ensures Step(Step(s, TabRemoved(t)), TabRemoved(t)) == Step(s, TabRemoved(t))
  {
  }

  /** Returning to the focus tab twice has the effect of returning once. */
  lemma ReturnIsIdempotent(s: State, t: int, now: int, st: Storage, now2: int, st2: Storage)
    ensures var s1 := Step(s, TabActivated(t, now, st));
      s.focusTabId == Some(t) ==> Step(s1, TabActivated(t, now2, st2)) == s1
  {
    var s1 := Step(s, TabActivated(t, now, st));
    if s.focusTabId == Some(t) {
      var gone := {DriftNotificationId, VideoPauseNotificationId};
      assert s1.shown - gone == s1.shown;
    }
  }

  // ---------------------------------------------------------------------------
  // stopMonitoring is not handled

  /**
    The `stopMonitoring` message the popup sends on deactivation reaches the
    fallthrough of the message listener: nothing changes and the listener
    returns false. So leaving the former focus tab afterwards still arms the
    drift alarm.
  */
  lemma StopMonitoringIsIgnored(s: State, t: int, url: string, sender: Option<int>, st: Storage,
                                open: bool, u: int, now: int, st2: Storage)
    requires u != t
    ensures OnMessage(s, OtherAction("stopMonitoring"), sender, st, open) == Reply(s, [], None, false)
    ensures var s1 := Step(s, Message(StartMonitoring(t, url), sender, st, open));
      var s2 := Step(s1, Message(OtherAction("stopMonitoring"), sender, st, open));
      var s3 := Step(s2, TabActivated(u, now, st2));
      s2 == s1 && s3.driftAlarm.Some?
  {
  }
}

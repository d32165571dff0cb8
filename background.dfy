/**
  The focus monitor of background.js: the process-wide focus target
  (`focusTabId`, `focusTabUrl`) and the listeners that react to inbound
  messages, tab activation, alarm expiry, tab removal and tab navigation.

  Each listener body, together with the storage read it waits for, is one
  atomic transition. Its inputs from the browser (the stored settings, the
  current time, whether the offscreen document exists) are parameters. Its
  calls into the browser are returned as a list of `Command`s. The state also
  holds the two browser tables the listeners act on: the named drift alarm
  and the shown notifications. `ApplyAll` replays the commands on those
  tables, and the `...EmitsItsEffects` lemmas prove the two views agree.
*/
module Background {
  import opened Wrappers
  import opened JsValues

  const DriftAlarmName := "driftAlarm"
  const DriftNotificationId := "driftNotification"
  const VideoPauseNotificationId := "videoPauseNotification"

  /** Fallback tab-drift delay, in milliseconds, when no usable setting is stored. */
  const TestDelayMilliseconds := 10000

  const DefaultTabDriftSoundKey := "nudge1"
  const DefaultVideoPauseSoundKey := "quietNudge4"

  /** The sound catalogue: key to file; `none` maps to no file. */
  const SoundOptions: map<string, Option<string>> := map[
    "none" := None,
    "nudge1" := Some("sounds/nudge1.wav"),
    "nudge2" := Some("sounds/nudge2.wav"),
    "nudge3" := Some("sounds/nudge3.wav"),
    "quietNudge4" := Some("sounds/quiet_nudge4.wav"),
    "whistleNudge5" := Some("sounds/whistle_nudge5.wav")
  ]

  // ---------------------------------------------------------------------------
  // Pure rules

  /**
    The drift delay in seconds: the stored `totalDriftSeconds` when it is a
    number, not NaN and at least 1; otherwise the 10-second fallback.
  */
  function DriftDelaySeconds(stored: Value): (d: int)
    ensures d >= 1
    ensures stored.Number? && stored.n >= 1 ==> d == stored.n
    ensures !(stored.Number? && stored.n >= 1) ==> d == TestDelayMilliseconds / 1000
  {
    SecondsOrDefault(stored, TestDelayMilliseconds / 1000)
  }

  /** The storage key and the default sound key of a nudge type, if it has one. */
  function SoundSetting(nudgeType: string): Option<(string, string)> {
    if nudgeType == "tabDrift" then Some(("tabDriftSoundChoice", DefaultTabDriftSoundKey))
    else if nudgeType == "videoPause" then Some(("videoPauseSoundChoice", DefaultVideoPauseSoundKey))
    else None
  }

  /** `SOUND_OPTIONS[key]` when it names a file; only a string can index the catalogue. */
  function SoundFile(key: Value): (file: Option<string>)
    ensures file.Some? ==> key.Str? && key.s in SoundOptions && SoundOptions[key.s] == file
    ensures key.Str? && key.s in SoundOptions ==> file == SoundOptions[key.s]
  {
    if key.Str? && key.s in SoundOptions then SoundOptions[key.s] else None
  }

  /**
    The file `playSoundForNudge` ends up playing for a nudge type, given the
    stored settings: the stored choice, or the type's default when the stored
    choice is falsy; nothing for `"none"`, for a key outside the catalogue and
    for a nudge type other than tabDrift and videoPause.
  */
  function ResolveSound(nudgeType: string, st: Storage): (file: Option<string>)
    ensures SoundSetting(nudgeType).None? ==> file.None?
    ensures (nudgeType == "tabDrift" && !Truthy(Read(st, "tabDriftSoundChoice")))
      ==> file == Some("sounds/nudge1.wav")
    ensures (nudgeType == "videoPause" && !Truthy(Read(st, "videoPauseSoundChoice")))
      ==> file == Some("sounds/quiet_nudge4.wav")
    ensures (SoundSetting(nudgeType).Some? && Read(st, SoundSetting(nudgeType).value.0) == Str("none"))
      ==> file.None?
    ensures (SoundSetting(nudgeType).Some? && Truthy(Read(st, SoundSetting(nudgeType).value.0)))
      ==> file == SoundFile(Read(st, SoundSetting(nudgeType).value.0))
    ensures file.Some? ==> file in SoundOptions.Values
  {
    match SoundSetting(nudgeType)
    case None => None
    case Some((storageKey, defaultKey)) =>
      var stored := Read(st, storageKey);
      var chosen := if Truthy(stored) then stored else Str(defaultKey);
      if chosen == Str("none") then None else SoundFile(chosen)
  }

  /** The commands that `playSoundForNudge` ends up issuing. */
  function SoundCommands(nudgeType: string, st: Storage): (cmds: seq<Command>)
    ensures |cmds| <= 1
    ensures cmds == [] <==> ResolveSound(nudgeType, st).None?
    ensures forall c | c in cmds :: c == PlaySound(ResolveSound(nudgeType, st).value)
  {
    match ResolveSound(nudgeType, st)
    case None => []
    case Some(file) => [PlaySound(file)]
  }

  /** A notification's visible content (its type and icon are the same for all). */
  datatype Notice = Notice(title: string, message: string, priority: int)

  const VideoPausePrefix := "Still watching? Your video on "
  const VideoPauseSuffix := " is paused."
  const DriftPrefix := "Time to return to: "

  /**
    The video-pause notification: the first 50 characters of the reported
    URL followed by "...", or "the page" when no URL was reported.
  */
  function VideoPauseNotice(videoUrl: string): (n: Notice)
    ensures n.title == "Video Paused" && n.priority == 1
    ensures videoUrl != "" ==>
      n.message == VideoPausePrefix + Prefix(videoUrl, 50) + "..." + VideoPauseSuffix
    ensures videoUrl == "" ==> n.message == VideoPausePrefix + "the page" + VideoPauseSuffix
    ensures |n.message| <= |VideoPausePrefix| + 53 + |VideoPauseSuffix|
  {
    var shown := if videoUrl != "" then Prefix(videoUrl, 50) + "..." else "the page";
    Notice("Video Paused", VideoPausePrefix + shown + VideoPauseSuffix, 1)
  }

  /** The tab-drift notification: "Time to return to: " and the first 100 characters of the focus URL. */
  function DriftNotice(url: string): (n: Notice)
    ensures n.title == "Stay Focused!" && n.priority == 2
    ensures DriftPrefix <= n.message && n.message[|DriftPrefix|..] <= url
    ensures |url| <= 100 ==> n.message == DriftPrefix + url
    ensures |url| > 100 ==> n.message == DriftPrefix + url[..100]
    ensures |n.message| <= |DriftPrefix| + 100
  {
    Notice("Stay Focused!", DriftPrefix + Prefix(url, 100), 2)
  }

  // ---------------------------------------------------------------------------
  // State, commands, events

  /** A call the listeners make into the browser. */
  datatype Command =
    | CreateAlarm(alarm: string, when: int)
    | ClearAlarm(alarm: string)
    | CreateNotification(id: string, notice: Notice)
    | ClearNotification(id: string)
    | PlaySound(file: string)             // playSoundOffscreen to the offscreen document
    | SendToTab(tabId: int, action: string)
    | SendRuntime(action: string)
    | RemoveStored(keys: seq<string>)

  /**
    The focus target plus the browser tables the listeners act on: the
    deadline of the drift alarm, if armed, and the shown notifications by id.
  */
  datatype State = State(
    focusTabId: Option<int>,
    focusTabUrl: Option<string>,
    driftAlarm: Option<int>,
    shown: map<string, Notice>)

  /** The state when the background script starts: nothing monitored, armed or shown. */
  const Init := State(None, None, None, map[])

  /** `if (focusTabId)`: set, and not the falsy id 0. */
  predicate FocusIdTruthy(s: State) {
    s.focusTabId.Some? && s.focusTabId.value != 0
  }

  /** `if (focusTabUrl)`: set, and not the empty string. */
  predicate FocusUrlTruthy(s: State) {
    s.focusTabUrl.Some? && s.focusTabUrl.value != ""
  }

  /**
    An inbound runtime message. `OtherAction` stands for every action name
    other than the three below, `stopMonitoring` among them. An empty
    `videoUrl` stands for a missing one.
  */
  datatype Request =
    | StartMonitoring(tabId: int, tabUrl: string)
    | VideoPausedTooLong(videoUrl: string)
    | VideoPlayed(videoUrl: string)
    | OtherAction(action: string)

  /** The status sent back by `sendResponse`. */
  datatype Status = MonitoringStarted(tabId: int) | PauseNotified | PauseIgnored | PlayHandled

  datatype Outcome = Outcome(state: State, cmds: seq<Command>)

  /** A message listener's outcome; `keepOpen` is the listener's return value. */
  datatype Reply = Reply(state: State, cmds: seq<Command>, status: Option<Status>, keepOpen: bool)

  // ---------------------------------------------------------------------------
  // Listeners

  /** The runtime message listener. */
  function OnMessage(s: State, req: Request, senderTab: Option<int>, st: Storage, offscreenOpen: bool): (r: Reply)
    // startMonitoring: new focus target, drift alarm cleared, notifications kept
    ensures req.StartMonitoring? ==>
      r.state == State(Some(req.tabId), Some(req.tabUrl), None, s.shown) &&
      r.cmds == [ClearAlarm(DriftAlarmName)] &&
      r.status == Some(MonitoringStarted(req.tabId)) && r.keepOpen
    // videoPausedTooLong: acted on only from the focus tab
    ensures req.VideoPausedTooLong? ==>
      r.keepOpen && r.state.focusTabId == s.focusTabId && r.state.focusTabUrl == s.focusTabUrl &&
      r.state.driftAlarm == s.driftAlarm &&
      if FocusIdTruthy(s) && senderTab == s.focusTabId then
        r.state.shown == s.shown[VideoPauseNotificationId := VideoPauseNotice(req.videoUrl)] &&
        r.status == Some(PauseNotified) &&
        r.cmds == [CreateNotification(VideoPauseNotificationId, VideoPauseNotice(req.videoUrl))]
                  + SoundCommands("videoPause", st)
      else
        r.state == s && r.cmds == [] && r.status == Some(PauseIgnored)
    // videoPlayed: always clears the video-pause notification, nothing else changes
    ensures req.VideoPlayed? ==>
      r.keepOpen && r.status == Some(PlayHandled) &&
      r.state == s.(shown := s.shown - {VideoPauseNotificationId}) &&
      ClearNotification(VideoPauseNotificationId) in r.cmds &&
      (SendRuntime("stopSoundOffscreen") in r.cmds <==> offscreenOpen)
    // every other action, stopMonitoring included, is not handled
    ensures req.OtherAction? ==> r == Reply(s, [], None, false)
  {
    match req
    case StartMonitoring(tabId, tabUrl) =>
      Reply(s.(focusTabId := Some(tabId), focusTabUrl := Some(tabUrl), driftAlarm := None),
            [ClearAlarm(DriftAlarmName)], Some(MonitoringStarted(tabId)), true)
    case VideoPausedTooLong(videoUrl) =>
      if FocusIdTruthy(s) && senderTab == s.focusTabId then
        var n := VideoPauseNotice(videoUrl);
        Reply(s.(shown := s.shown[VideoPauseNotificationId := n]),
              [CreateNotification(VideoPauseNotificationId, n)] + SoundCommands("videoPause", st),
              Some(PauseNotified), true)
      else
        Reply(s, [], Some(PauseIgnored), true)
    case VideoPlayed(_) =>
      Reply(s.(shown := s.shown - {VideoPauseNotificationId}),
            [ClearNotification(VideoPauseNotificationId)]
              + (if offscreenOpen then [SendRuntime("stopSoundOffscreen")] else []),
            Some(PlayHandled), true)
    case OtherAction(_) =>
      Reply(s, [], None, false)
  }

  /** The deadline the drift alarm is armed with when the user leaves the focus tab at time `now` (ms). */
  function DriftDeadline(now: int, st: Storage): (when: int)
    ensures when >= now + 1000
    ensures when - now == 1000 * DriftDelaySeconds(Read(st, "totalDriftSeconds"))
  {
    now + DriftDelaySeconds(Read(st, "totalDriftSeconds")) * 1000
  }

  /** The tab-activated listener. */
  function OnActivated(s: State, tabId: int, now: int, st: Storage): (o: Outcome)
    ensures s.focusTabId.None? ==> o == Outcome(s, [])
    ensures s.focusTabId == Some(tabId) ==>
      o.state == s.(driftAlarm := None, shown := s.shown - {DriftNotificationId, VideoPauseNotificationId})
    ensures s.focusTabId.Some? && s.focusTabId != Some(tabId) ==>
      o.state == s.(driftAlarm := Some(DriftDeadline(now, st))) &&
      o.state.driftAlarm.value >= now + 1000 &&
      SendToTab(s.focusTabId.value, "cancelVideoPauseTimer") in o.cmds
    ensures o.state.focusTabId == s.focusTabId && o.state.focusTabUrl == s.focusTabUrl
  {
    if s.focusTabId.None? then
      Outcome(s, [])
    else if tabId == s.focusTabId.value then
      Outcome(s.(driftAlarm := None, shown := s.shown - {DriftNotificationId, VideoPauseNotificationId}),
              [ClearAlarm(DriftAlarmName), ClearNotification(DriftNotificationId),
               ClearNotification(VideoPauseNotificationId)])
    else
      var when := DriftDeadline(now, st);
      Outcome(s.(driftAlarm := Some(when)),
              [SendToTab(s.focusTabId.value, "cancelVideoPauseTimer"), CreateAlarm(DriftAlarmName, when)])
  }

  /** The alarm listener. */
  function OnAlarm(s: State, name: string, st: Storage): (o: Outcome)
    ensures name == DriftAlarmName && FocusUrlTruthy(s) ==>
      o.state == s.(shown := s.shown[DriftNotificationId := DriftNotice(s.focusTabUrl.value)]) &&
      o.cmds == [CreateNotification(DriftNotificationId, DriftNotice(s.focusTabUrl.value))]
                + SoundCommands("tabDrift", st)
    ensures !(name == DriftAlarmName && FocusUrlTruthy(s)) ==> o == Outcome(s, [])
  {
    if name == DriftAlarmName && FocusUrlTruthy(s) then
      var n := DriftNotice(s.focusTabUrl.value);
      Outcome(s.(shown := s.shown[DriftNotificationId := n]),
              [CreateNotification(DriftNotificationId, n)] + SoundCommands("tabDrift", st))
    else
      Outcome(s, [])
  }

  /** The tab-removed listener. */
  function OnRemoved(s: State, tabId: int): (o: Outcome)
    ensures s.focusTabId == Some(tabId) ==>
      o.state == State(None, None, None, s.shown - {DriftNotificationId, VideoPauseNotificationId}) &&
      RemoveStored(["focusTabId", "focusTabUrl"]) in o.cmds
    ensures s.focusTabId != Some(tabId) ==> o == Outcome(s, [])
  {
    if s.focusTabId == Some(tabId) then
      Outcome(State(None, None, None, s.shown - {DriftNotificationId, VideoPauseNotificationId}),
              [ClearAlarm(DriftAlarmName), ClearNotification(DriftNotificationId),
               ClearNotification(VideoPauseNotificationId), RemoveStored(["focusTabId", "focusTabUrl"])])
    else
      Outcome(s, [])
  }

  /** The tab-updated listener; an empty `url` stands for an update without a URL change. */
  function OnUpdated(s: State, tabId: int, url: string): (o: Outcome)
    ensures o.cmds == []
    ensures s.focusTabId == Some(tabId) && url != "" ==> o.state == s.(focusTabUrl := Some(url))
    ensures !(s.focusTabId == Some(tabId) && url != "") ==> o.state == s
  {
    if s.focusTabId == Some(tabId) && url != "" then Outcome(s.(focusTabUrl := Some(url)), [])
    else Outcome(s, [])
  }

  // ---------------------------------------------------------------------------
  // The browser's side of the commands

  /** What one command does to the alarm and notification tables. */
  function ApplyCommand(s: State, c: Command): State {
    match c
    case CreateAlarm(name, when) => if name == DriftAlarmName then s.(driftAlarm := Some(when)) else s
    case ClearAlarm(name) => if name == DriftAlarmName then s.(driftAlarm := None) else s
    case CreateNotification(id, n) => s.(shown := s.shown[id := n])
    case ClearNotification(id) => s.(shown := s.shown - {id})
    case PlaySound(_) => s
    case SendToTab(_, _) => s
    case SendRuntime(_) => s
    case RemoveStored(_) => s
  }

  /** The commands applied in order. */
  function ApplyAll(s: State, cmds: seq<Command>): State
    decreases |cmds|
  {
    if cmds == [] then s else ApplyAll(ApplyCommand(s, cmds[0]), cmds[1..])
  }

  /** Applying two command lists in turn is applying their concatenation. */
  lemma {:induction false} ApplyAllAppend(s: State, a: seq<Command>, b: seq<Command>)
    ensures ApplyAll(s, a + b) == ApplyAll(ApplyAll(s, a), b)
    decreases |a|
  {
    if a == [] {
      assert a + b == b;
    } else {
      assert (a + b)[0] == a[0];
      assert (a + b)[1..] == a[1..] + b;
      ApplyAllAppend(ApplyCommand(s, a[0]), a[1..], b);
    }
  }

  lemma SoundCommandsLeaveTables(s: State, nudgeType: string, st: Storage)
    ensures ApplyAll(s, SoundCommands(nudgeType, st)) == s
  {
  }

  lemma ApplyAllSingle(s: State, c: Command)
    ensures ApplyAll(s, [c]) == ApplyCommand(s, c)
  {
    assert [c][1..] == [];
  }

  lemma ApplyAllCons(s: State, c: Command, rest: seq<Command>)
    ensures ApplyAll(s, [c] + rest) == ApplyAll(ApplyCommand(s, c), rest)
  {
    assert ([c] + rest)[0] == c;
    assert ([c] + rest)[1..] == rest;
  }

  /** Clearing the drift alarm or a notification twice has the effect of clearing it once. */
  lemma {:induction false} ClearIsIdempotent(s: State, id: string)
    ensures ApplyAll(s, [ClearAlarm(DriftAlarmName), ClearAlarm(DriftAlarmName)])
         == ApplyAll(s, [ClearAlarm(DriftAlarmName)])
    ensures ApplyAll(s, [ClearNotification(id), ClearNotification(id)])
         == ApplyAll(s, [ClearNotification(id)])
  {
    var a := ClearAlarm(DriftAlarmName);
    ApplyAllCons(s, a, [a]);
    ApplyAllSingle(ApplyCommand(s, a), a);
    ApplyAllSingle(s, a);
    var n := ClearNotification(id);
    ApplyAllCons(s, n, [n]);
    ApplyAllSingle(ApplyCommand(s, n), n);
    ApplyAllSingle(s, n);
    assert (s.shown - {id}) - {id} == s.shown - {id};
  }

  /** Creating a notification and then asking for a sound changes the tables as the creation alone does. */
  lemma NotifyThenSound(s: State, id: string, n: Notice, nudgeType: string, st: Storage)
    ensures ApplyAll(s, [CreateNotification(id, n)] + SoundCommands(nudgeType, st))
         == s.(shown := s.shown[id := n])
  {
    ApplyAllAppend(s, [CreateNotification(id, n)], SoundCommands(nudgeType, st));
    ApplyAllSingle(s, CreateNotification(id, n));
    SoundCommandsLeaveTables(s.(shown := s.shown[id := n]), nudgeType, st);
  }

  /** The alarm and notification changes of the message listener are exactly those its commands request. */
  lemma MessageEmitsItsEffects(s: State, req: Request, senderTab: Option<int>, st: Storage, offscreenOpen: bool)
    ensures var r := OnMessage(s, req, senderTab, st, offscreenOpen);
      ApplyAll(s, r.cmds) == r.state.(focusTabId := s.focusTabId, focusTabUrl := s.focusTabUrl)
  {
    match req {
      case StartMonitoring(_, _) =>
        ApplyAllSingle(s, ClearAlarm(DriftAlarmName));
      case VideoPausedTooLong(videoUrl) =>
        if FocusIdTruthy(s) && senderTab == s.focusTabId {
          NotifyThenSound(s, VideoPauseNotificationId, VideoPauseNotice(videoUrl), "videoPause", st);
        }
      case VideoPlayed(_) =>
        var c := ClearNotification(VideoPauseNotificationId);
        if offscreenOpen {
          ApplyAllCons(s, c, [SendRuntime("stopSoundOffscreen")]);
          ApplyAllSingle(ApplyCommand(s, c), SendRuntime("stopSoundOffscreen"));
        } else {
          assert [c] + [] == [c];
          ApplyAllSingle(s, c);
        }
      case OtherAction(_) =>
    }
  }

  /** The same agreement for the tab-activated listener. */
  lemma ActivatedEmitsItsEffects(s: State, tabId: int, now: int, st: Storage)
    ensures var o := OnActivated(s, tabId, now, st); ApplyAll(s, o.cmds) == o.state
  {
    if s.focusTabId.Some? {
      if tabId == s.focusTabId.value {
        var a, d, v := ClearAlarm(DriftAlarmName), ClearNotification(DriftNotificationId),
                       ClearNotification(VideoPauseNotificationId);
        assert [a, d, v] == [a] + ([d] + [v]);
        ApplyAllCons(s, a, [d] + [v]);
        var s1 := ApplyCommand(s, a);
        ApplyAllCons(s1, d, [v]);
        var s2 := ApplyCommand(s1, d);
        ApplyAllSingle(s2, v);
        assert s.shown - {DriftNotificationId} - {VideoPauseNotificationId}
            == s.shown - {DriftNotificationId, VideoPauseNotificationId};
      } else {
        var t := SendToTab(s.focusTabId.value, "cancelVideoPauseTimer");
        var c := CreateAlarm(DriftAlarmName, DriftDeadline(now, st));
        ApplyAllCons(s, t, [c]);
        ApplyAllSingle(s, c);
      }
    }
  }

  /** The same agreement for the alarm listener. */
  lemma AlarmEmitsItsEffects(s: State, name: string, st: Storage)
    ensures var o := OnAlarm(s, name, st); ApplyAll(s, o.cmds) == o.state
  {
    if name == DriftAlarmName && FocusUrlTruthy(s) {
      NotifyThenSound(s, DriftNotificationId, DriftNotice(s.focusTabUrl.value), "tabDrift", st);
    }
  }

  /** The same agreement for the tab-removed listener; the focus variables are not browser tables. */
  lemma RemovedEmitsItsEffects(s: State, tabId: int)
    ensures var o := OnRemoved(s, tabId);
      ApplyAll(s, o.cmds) == o.state.(focusTabId := s.focusTabId, focusTabUrl := s.focusTabUrl)
  {
    if s.focusTabId == Some(tabId) {
      var a, d, v, r := ClearAlarm(DriftAlarmName), ClearNotification(DriftNotificationId),
                        ClearNotification(VideoPauseNotificationId), RemoveStored(["focusTabId", "focusTabUrl"]);
      assert [a, d, v, r] == [a] + ([d] + ([v] + [r]));
      ApplyAllCons(s, a, [d] + ([v] + [r]));
      var s1 := ApplyCommand(s, a);
      ApplyAllCons(s1, d, [v] + [r]);
      var s2 := ApplyCommand(s1, d);
      ApplyAllCons(s2, v, [r]);
      ApplyAllSingle(ApplyCommand(s2, v), r);
      assert s.shown - {DriftNotificationId} - {VideoPauseNotificationId}
          == s.shown - {DriftNotificationId, VideoPauseNotificationId};
    }
  }

  // ---------------------------------------------------------------------------
  // Events

  /** One event delivered to the background script, with the inputs its listener reads. */
  datatype Event =
    | Message(req: Request, senderTab: Option<int>, storage: Storage, offscreenOpen: bool)
    | TabActivated(tabId: int, now: int, storage: Storage)
    | AlarmFired(name: string, storage: Storage)
    | TabRemoved(tabId: int)
    | TabUpdated(tabId: int, url: string)

  /** The browser drops a one-shot alarm once it has fired. */
  function Fire(s: State, name: string): (s': State)
    ensures name == DriftAlarmName ==> s' == s.(driftAlarm := None)
    ensures name != DriftAlarmName ==> s' == s
  {
    if name == DriftAlarmName then s.(driftAlarm := None) else s
  }

  /**
    The browser fires only an alarm that exists: the only alarm the script
    creates is the drift alarm, and once cleared it does not fire.
  */
  predicate Armed(s: State, name: string) {
    name == DriftAlarmName ==> s.driftAlarm.Some?
  }

  /** The outcome of delivering one event; an alarm that is not armed is never delivered. */
  function Deliver(s: State, e: Event): Outcome {
    match e
    case Message(req, sender, st, open) =>
      var r := OnMessage(s, req, sender, st, open);
      Outcome(r.state, r.cmds)
    case TabActivated(tabId, now, st) => OnActivated(s, tabId, now, st)
    case AlarmFired(name, st) =>
      if Armed(s, name) then OnAlarm(Fire(s, name), name, st) else Outcome(s, [])
    case TabRemoved(tabId) => OnRemoved(s, tabId)
    case TabUpdated(tabId, url) => OnUpdated(s, tabId, url)
  }

  function Step(s: State, e: Event): State {
    Deliver(s, e).state
  }

  /**
    The browser stops the idle service worker and loads the script again for
    the next event: background.js:3-4 set the focus id and URL back to null,
    while the drift alarm and the notifications, which the browser holds,
    are kept. `Run` has no such event; the lemmas about it hold for a worker
    that stays loaded.
  */
  function Restart(s: State): (s': State)
    ensures s'.focusTabId.None? && s'.focusTabUrl.None?
    ensures s'.driftAlarm == s.driftAlarm && s'.shown == s.shown
  {
    s.(focusTabId := None, focusTabUrl := None)
  }

  // ---------------------------------------------------------------------------
  // The listeners as the source writes them: module-level variables updated in place

  /**
    The background script's mutable state: `focusTabId` and `focusTabUrl`,
    and the browser's drift alarm and notification tables that the listeners
    change through their calls.
  */
  class FocusMonitor {
    var focusTabId: Option<int>
    var focusTabUrl: Option<string>
    var driftAlarm: Option<int>
    var shown: map<string, Notice>

    function Snapshot(): State
      reads this
    {
      State(focusTabId, focusTabUrl, driftAlarm, shown)
    }

    constructor ()
      ensures Snapshot() == Init
    {
      focusTabId := None;
      focusTabUrl := None;
      driftAlarm := None;
      shown := map[];
    }

    method HandleMessage(req: Request, senderTab: Option<int>, st: Storage, offscreenOpen: bool)
      returns (cmds: seq<Command>, status: Option<Status>, keepOpen: bool)
      modifies this
      ensures var r := OnMessage(old(Snapshot()), req, senderTab, st, offscreenOpen);
        Snapshot() == r.state && cmds == r.cmds && status == r.status && keepOpen == r.keepOpen
    {
      cmds, status, keepOpen := [], None, false;
      match req {
        case StartMonitoring(tabId, tabUrl) =>
          focusTabId := Some(tabId);
          focusTabUrl := Some(tabUrl);
          driftAlarm := None;
          cmds := [ClearAlarm(DriftAlarmName)];
          status, keepOpen := Some(MonitoringStarted(tabId)), true;
        case VideoPausedTooLong(videoUrl) =>
          if focusTabId.Some? && focusTabId.value != 0 && senderTab == focusTabId {
            var n := VideoPauseNotice(videoUrl);
            shown := shown[VideoPauseNotificationId := n];
            cmds := [CreateNotification(VideoPauseNotificationId, n)] + SoundCommands("videoPause", st);
            status := Some(PauseNotified);
          } else {
            status := Some(PauseIgnored);
          }
          keepOpen := true;
        case VideoPlayed(_) =>
          shown := shown - {VideoPauseNotificationId};
          cmds := [ClearNotification(VideoPauseNotificationId)];
          if offscreenOpen {
            cmds := cmds + [SendRuntime("stopSoundOffscreen")];
          }
          status, keepOpen := Some(PlayHandled), true;
        case OtherAction(_) =>
      }
    }

    method HandleActivated(tabId: int, now: int, st: Storage) returns (cmds: seq<Command>)
      modifies this
      ensures var o := OnActivated(old(Snapshot()), tabId, now, st);
        Snapshot() == o.state && cmds == o.cmds
    {
      cmds := [];
      if focusTabId.None? {
        return;
      }
      if tabId == focusTabId.value {
        driftAlarm := None;
        shown := shown - {DriftNotificationId, VideoPauseNotificationId};
        cmds := [ClearAlarm(DriftAlarmName), ClearNotification(DriftNotificationId),
                 ClearNotification(VideoPauseNotificationId)];
      } else {
        cmds := [SendToTab(focusTabId.value, "cancelVideoPauseTimer")];
        var seconds := DriftDelaySeconds(Read(st, "totalDriftSeconds"));
        var when := now + seconds * 1000;
        driftAlarm := Some(when);
        cmds := cmds + [CreateAlarm(DriftAlarmName, when)];
      }
    }

    /** The browser drops the fired alarm, then runs the alarm listener. */
    method HandleAlarm(name: string, st: Storage) returns (cmds: seq<Command>)
      modifies this
      ensures var o := OnAlarm(Fire(old(Snapshot()), name), name, st);
        Snapshot() == o.state && cmds == o.cmds
    {
      cmds := [];
      if name == DriftAlarmName {
        driftAlarm := None;
        if focusTabUrl.Some? && focusTabUrl.value != "" {
          var n := DriftNotice(focusTabUrl.value);
          shown := shown[DriftNotificationId := n];
          cmds := [CreateNotification(DriftNotificationId, n)] + SoundCommands("tabDrift", st);
        }
      }
    }

    method HandleRemoved(tabId: int) returns (cmds: seq<Command>)
      modifies this
      ensures var o := OnRemoved(old(Snapshot()), tabId);
        Snapshot() == o.state && cmds == o.cmds
    {
      cmds := [];
      if focusTabId == Some(tabId) {
        focusTabId := None;
        focusTabUrl := None;
        driftAlarm := None;
        shown := shown - {DriftNotificationId, VideoPauseNotificationId};
        cmds := [ClearAlarm(DriftAlarmName), ClearNotification(DriftNotificationId),
                 ClearNotification(VideoPauseNotificationId), RemoveStored(["focusTabId", "focusTabUrl"])];
      }
    }

    method HandleUpdated(tabId: int, url: string)
      modifies this
      ensures Snapshot() == OnUpdated(old(Snapshot()), tabId, url).state
    {
      if focusTabId == Some(tabId) && url != "" {
        focusTabUrl := Some(url);
      }
    }
  }
}

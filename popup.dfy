/**
  The settings popup of popup.js: the arithmetic and validation of the
  settings form, the minutes/seconds split when settings are loaded, the
  sound-selector defaults, the status line, the guard against activating on
  browser-internal pages, and the storage-change filter that decides whether
  the popup reloads.
*/
module Popup {
  import opened Wrappers
  import opened JsValues

  const DefaultDriftTotalSeconds := 15
  const DefaultVideoPauseTotalSeconds := 10
  const DefaultIdleTotalSeconds := 60
  const MinimumIdleSeconds := 15
  const MinimumFocusSeconds := 5

  const DefaultTabDriftSoundKey := "nudge1"
  const DefaultVideoPauseSoundKey := "quietNudge4"
  const DefaultIdleNudgeSoundKey := "nudge2"

  // ---------------------------------------------------------------------------
  // Numbers in the form

  /** The result of `parseInt(field.value, 10)`: an integer, or NaN for a blank or non-numeric field. */
  datatype Parsed = Int(i: int) | NotANumber

  /** `mins * 60 + secs` with JavaScript's NaN propagation. */
  function Total(mins: Parsed, secs: Parsed): (t: Parsed)
    ensures t.Int? <==> mins.Int? && secs.Int?
    ensures t.Int? ==> t.i - secs.i == 60 * mins.i
  {
    if mins.Int? && secs.Int? then Int(mins.i * 60 + secs.i) else NotANumber
  }

  /** `total < minimum`; a comparison with NaN is false. */
  predicate Below(total: Parsed, minimum: int) {
    total.Int? && total.i < minimum
  }

  /** The nine fields of the settings form as the save handler reads them. */
  datatype Form = Form(
    driftMinutes: Parsed, driftSeconds: Parsed,
    videoPauseMinutes: Parsed, videoPauseSeconds: Parsed,
    idleMinutes: Parsed, idleSeconds: Parsed,
    tabDriftSound: Value, videoPauseSound: Value, idleNudgeSound: Value)

  /** The six keys the save handler writes to storage. */
  datatype Saved = Saved(
    totalDriftSeconds: Parsed, totalVideoPauseSeconds: Parsed, totalIdleSeconds: Parsed,
    tabDriftSoundChoice: Value, videoPauseSoundChoice: Value, idleNudgeSoundChoice: Value)

  /** Which validation stopped the save (the handler returns without writing). */
  datatype SaveError = DriftTooShort | VideoPauseTooShort | IdleTooShort

  /**
    The save handler: total each timeline, stop at the first total below its
    minimum (5 seconds for drift and video pause, 15 for idle), otherwise
    write all six keys.
  */
  function SaveSettings(f: Form): (r: Result<Saved, SaveError>)
    ensures var drift := Total(f.driftMinutes, f.driftSeconds);
      var video := Total(f.videoPauseMinutes, f.videoPauseSeconds);
      var idle := Total(f.idleMinutes, f.idleSeconds);
      && (r.Ok? <==> !Below(drift, MinimumFocusSeconds) && !Below(video, MinimumFocusSeconds)
                     && !Below(idle, MinimumIdleSeconds))
      && (r.Ok? ==> r.value == Saved(drift, video, idle, f.tabDriftSound, f.videoPauseSound, f.idleNudgeSound))
      && (r == Err(DriftTooShort) <==> Below(drift, MinimumFocusSeconds))
      && (r == Err(VideoPauseTooShort) <==> !Below(drift, MinimumFocusSeconds) && Below(video, MinimumFocusSeconds))
    ensures r.Ok? && r.value.totalDriftSeconds.Int? ==> r.value.totalDriftSeconds.i >= MinimumFocusSeconds
    ensures r.Ok? && r.value.totalVideoPauseSeconds.Int? ==> r.value.totalVideoPauseSeconds.i >= MinimumFocusSeconds
    ensures r.Ok? && r.value.totalIdleSeconds.Int? ==> r.value.totalIdleSeconds.i >= MinimumIdleSeconds
  {
    var drift := Total(f.driftMinutes, f.driftSeconds);
    if Below(drift, MinimumFocusSeconds) then Err(DriftTooShort)
    else
      var video := Total(f.videoPauseMinutes, f.videoPauseSeconds);
      if Below(video, MinimumFocusSeconds) then Err(VideoPauseTooShort)
      else
        var idle := Total(f.idleMinutes, f.idleSeconds);
        if Below(idle, MinimumIdleSeconds) then Err(IdleTooShort)
        else Ok(Saved(drift, video, idle, f.tabDriftSound, f.videoPauseSound, f.idleNudgeSound))
  }

  /**
    The validation does not catch a field that does not parse: its total is
    NaN, `NaN < 5` is false, and NaN is written as the drift delay.
  */
  lemma SaveAcceptsUnparsedField(f: Form)
    requires f.driftMinutes == NotANumber
    requires !Below(Total(f.videoPauseMinutes, f.videoPauseSeconds), MinimumFocusSeconds)
    requires !Below(Total(f.idleMinutes, f.idleSeconds), MinimumIdleSeconds)
    ensures SaveSettings(f).Ok? && SaveSettings(f).value.totalDriftSeconds == NotANumber
  {
  }

  /** A total the save should refuse: one that does not parse, or one below its minimum. */
  predicate Refused(total: Parsed, minimum: int) {
    total.NotANumber? || Below(total, minimum)
  }

  /**
    The save as evidently intended: a total that does not parse is refused
    like one below its minimum, so every total it writes is a number that
    meets its minimum. Where no field fails to parse it is the save handler.
  */
  function SaveIntended(f: Form): (r: Result<Saved, SaveError>)
    ensures var drift := Total(f.driftMinutes, f.driftSeconds);
      var video := Total(f.videoPauseMinutes, f.videoPauseSeconds);
      var idle := Total(f.idleMinutes, f.idleSeconds);
      && (r.Ok? <==> !Refused(drift, MinimumFocusSeconds) && !Refused(video, MinimumFocusSeconds)
                     && !Refused(idle, MinimumIdleSeconds))
      && (r == Err(DriftTooShort) <==> Refused(drift, MinimumFocusSeconds))
      && (r.Ok? ==> r == SaveSettings(f))
    ensures r.Ok? ==>
      && r.value.totalDriftSeconds.Int? && r.value.totalDriftSeconds.i >= MinimumFocusSeconds
      && r.value.totalVideoPauseSeconds.Int? && r.value.totalVideoPauseSeconds.i >= MinimumFocusSeconds
      && r.value.totalIdleSeconds.Int? && r.value.totalIdleSeconds.i >= MinimumIdleSeconds
  {
    var drift := Total(f.driftMinutes, f.driftSeconds);
    if Refused(drift, MinimumFocusSeconds) then Err(DriftTooShort)
    else
      var video := Total(f.videoPauseMinutes, f.videoPauseSeconds);
      if Refused(video, MinimumFocusSeconds) then Err(VideoPauseTooShort)
      else
        var idle := Total(f.idleMinutes, f.idleSeconds);
        if Refused(idle, MinimumIdleSeconds) then Err(IdleTooShort)
        else Ok(Saved(drift, video, idle, f.tabDriftSound, f.videoPauseSound, f.idleNudgeSound))
  }

  /** The two saves differ only on forms with a field that does not parse. */
  lemma {:induction false} SaveIntendedAgrees(f: Form)
    requires Total(f.driftMinutes, f.driftSeconds).Int?
    requires Total(f.videoPauseMinutes, f.videoPauseSeconds).Int?
    requires Total(f.idleMinutes, f.idleSeconds).Int?
    ensures SaveIntended(f) == SaveSettings(f)
  {
  }

  // ---------------------------------------------------------------------------
  // Loading settings into the form

  /** JavaScript's `n % 60`, which takes the sign of `n`. */
  function JsRem60(n: int): (r: int)
    ensures n >= 0 ==> 0 <= r < 60
    ensures n < 0 ==> -60 < r <= 0
    ensures (n - r) % 60 == 0
  {
    if n >= 0 then n % 60 else -((-n) % 60)
  }

  /**
    The minutes and seconds fields shown for a stored total: `Math.floor(x / 60)`
    and `x % 60` where `x` is the stored number, or `default` when the stored
    value is not a number. NaN shows as NaN in both fields.
  */
  function SplitForDisplay(stored: Value, default: int): (fields: (Parsed, Parsed))
    ensures !IsNumber(stored) && default >= 0 ==>
      fields == (Int(default / 60), Int(default % 60))
    ensures stored.Number? && stored.n >= 0 ==>
      fields == (Int(stored.n / 60), Int(stored.n % 60)) && 0 <= fields.1.i < 60
    ensures stored.NaN? ==> fields == (NotANumber, NotANumber)
    ensures stored.Number? ==> (fields.0.Int? && fields.1.Int?
      && fields.0.i * 60 <= stored.n < fields.0.i * 60 + 60
      && fields.1 == Int(JsRem60(stored.n)))
    ensures stored.Number? && stored.n < 0 ==> -60 < fields.1.i <= 0
  {
    var x := if IsNumber(stored) then stored else Number(default);
    if x.NaN? then (NotANumber, NotANumber) else (Int(x.n / 60), Int(JsRem60(x.n)))
  }

  /**
    Saving the fields a stored number was split into gives back that number
    exactly when it is not negative or is a whole number of minutes; a
    negative value such as -7 shows as -1 min -7 s and totals -67.
  */
  lemma {:induction false} SplitRoundTrip(n: int, default: int)
    ensures var (m, s) := SplitForDisplay(Number(n), default);
      Total(m, s) == Int(n) <==> (n >= 0 || n % 60 == 0)
  {
    var q, r := n / 60, JsRem60(n);
    assert n == q * 60 + n % 60;
    if n < 0 && n % 60 != 0 {
      var e := n % 60;
      assert 0 < e < 60;
      var k := -n;
      assert k % 60 == 60 - e by {
        assert k == (-q - 1) * 60 + (60 - e);
      }
      assert q * 60 + r == n - 60;
    } else if n < 0 {
      var k := -n;
      assert k == (-q) * 60;
      assert k % 60 == 0;
    }
  }

  /** Stored -7 shows as -1 minutes and -7 seconds, which save back as -67. */
  lemma NegativeSplitMisread(default: int)
    ensures SplitForDisplay(Number(-7), default) == (Int(-1), Int(-7))
    ensures Total(Int(-1), Int(-7)) == Int(-67)
  {
  }

  /**
    The split as evidently intended: the seconds field is the remainder of
    the same floor division that gives the minutes, so it lies in [0, 60)
    for every stored number. It is the split above on every number that is
    not negative.
  */
  function SplitIntended(stored: Value, default: int): (fields: (Parsed, Parsed))
    ensures stored.Number? ==> fields.0.Int? && fields.1.Int? && 0 <= fields.1.i < 60
    ensures stored.Number? && stored.n >= 0 ==> fields == SplitForDisplay(stored, default)
    ensures !stored.Number? && default >= 0 ==> fields == SplitForDisplay(stored, default)
  {
    var x := if IsNumber(stored) then stored else Number(default);
    if x.NaN? then (NotANumber, NotANumber) else (Int(x.n / 60), Int(x.n % 60))
  }

  /** Saving the fields of the intended split gives back every stored number. */
  lemma {:induction false} SplitIntendedRoundTrip(n: int, default: int)
    ensures var (m, s) := SplitIntended(Number(n), default);
      Total(m, s) == Int(n)
  {
  }

  /** The value a sound selector shows: the stored choice, or the selector's default when it is falsy. */
  function SoundSelect(stored: Value, default: string): (v: Value)
    ensures Truthy(stored) ==> v == stored
    ensures !Truthy(stored) ==> v == Str(default)
    ensures default != "" ==> Truthy(v)
  {
    if Truthy(stored) then stored else Str(default)
  }

  /** The form as `loadAndApplySettings` fills it from storage. */
  function LoadedForm(st: Storage): (f: Form)
    ensures (f.driftMinutes, f.driftSeconds) == SplitForDisplay(Read(st, "totalDriftSeconds"), DefaultDriftTotalSeconds)
    ensures (f.videoPauseMinutes, f.videoPauseSeconds)
      == SplitForDisplay(Read(st, "totalVideoPauseSeconds"), DefaultVideoPauseTotalSeconds)
    ensures (f.idleMinutes, f.idleSeconds) == SplitForDisplay(Read(st, "totalIdleSeconds"), DefaultIdleTotalSeconds)
    ensures f.tabDriftSound == SoundSelect(Read(st, "tabDriftSoundChoice"), DefaultTabDriftSoundKey)
    ensures f.videoPauseSound == SoundSelect(Read(st, "videoPauseSoundChoice"), DefaultVideoPauseSoundKey)
    ensures f.idleNudgeSound == SoundSelect(Read(st, "idleNudgeSoundChoice"), DefaultIdleNudgeSoundKey)
  {
    var (dm, ds) := SplitForDisplay(Read(st, "totalDriftSeconds"), DefaultDriftTotalSeconds);
    var (vm, vs) := SplitForDisplay(Read(st, "totalVideoPauseSeconds"), DefaultVideoPauseTotalSeconds);
    var (im, isec) := SplitForDisplay(Read(st, "totalIdleSeconds"), DefaultIdleTotalSeconds);
    Form(dm, ds, vm, vs, im, isec,
         SoundSelect(Read(st, "tabDriftSoundChoice"), DefaultTabDriftSoundKey),
         SoundSelect(Read(st, "videoPauseSoundChoice"), DefaultVideoPauseSoundKey),
         SoundSelect(Read(st, "idleNudgeSoundChoice"), DefaultIdleNudgeSoundKey))
  }

  /** The total a stored duration reloads to: the stored number, or the default for a non-number. */
  function Reloaded(stored: Value, default: int): Parsed {
    if stored.Number? then Int(stored.n) else if stored.NaN? then NotANumber else Int(default)
  }

  /**
    Opening the popup and pressing save without editing writes back the
    stored durations (or the popup's defaults where nothing usable was
    stored), as long as every stored duration is a non-negative number or
    not a number at all, and the selectors' choices.
  */
  lemma {:induction false} LoadThenSaveKeepsSettings(st: Storage)
    requires forall key | key in {"totalDriftSeconds", "totalVideoPauseSeconds", "totalIdleSeconds"} ::
      Read(st, key).Number? ==> Read(st, key).n >= 0
    ensures var f := LoadedForm(st);
      && Total(f.driftMinutes, f.driftSeconds) == Reloaded(Read(st, "totalDriftSeconds"), DefaultDriftTotalSeconds)
      && Total(f.videoPauseMinutes, f.videoPauseSeconds)
         == Reloaded(Read(st, "totalVideoPauseSeconds"), DefaultVideoPauseTotalSeconds)
      && Total(f.idleMinutes, f.idleSeconds) == Reloaded(Read(st, "totalIdleSeconds"), DefaultIdleTotalSeconds)
    ensures var f := LoadedForm(st);
      && (Read(st, "totalDriftSeconds").Number? ==> Read(st, "totalDriftSeconds").n >= MinimumFocusSeconds)
      && (Read(st, "totalVideoPauseSeconds").Number? ==> Read(st, "totalVideoPauseSeconds").n >= MinimumFocusSeconds)
      && (Read(st, "totalIdleSeconds").Number? ==> Read(st, "totalIdleSeconds").n >= MinimumIdleSeconds)
      ==> SaveSettings(f) == Ok(Saved(
            Reloaded(Read(st, "totalDriftSeconds"), DefaultDriftTotalSeconds),
            Reloaded(Read(st, "totalVideoPauseSeconds"), DefaultVideoPauseTotalSeconds),
            Reloaded(Read(st, "totalIdleSeconds"), DefaultIdleTotalSeconds),
            f.tabDriftSound, f.videoPauseSound, f.idleNudgeSound))
  {
    ReloadedRoundTrip(Read(st, "totalDriftSeconds"), DefaultDriftTotalSeconds);
    ReloadedRoundTrip(Read(st, "totalVideoPauseSeconds"), DefaultVideoPauseTotalSeconds);
    ReloadedRoundTrip(Read(st, "totalIdleSeconds"), DefaultIdleTotalSeconds);
  }

  lemma {:induction false} ReloadedRoundTrip(stored: Value, default: int)
    requires default >= 0
    requires stored.Number? ==> stored.n >= 0
    ensures var (m, s) := SplitForDisplay(stored, default); Total(m, s) == Reloaded(stored, default)
  {
    if stored.Number? {
      SplitRoundTrip(stored.n, default);
    } else if !stored.NaN? {
      SplitRoundTrip(default, default);
    }
  }

  // ---------------------------------------------------------------------------
  // The status line and the activate button

  const InactiveText := "Drift is inactive. Activate on a site to begin."
  const ActivePrefix := "Drift is active on: "
  const SpecialPageText := "Cannot activate Drift on special browser pages."

  /** What `updatePopupUI` shows: the status text, the button label and `data-active`. */
  datatype View = View(statusText: string, buttonText: string, dataActive: string)

  /**
    The status line names the first 70 characters of the focus URL, followed
    by "..." only when the URL is longer; without an active focus URL it
    shows the inactive text. `data-active` follows the same choice.
  */
  function StatusView(isActive: bool, url: string): (v: View)
    ensures v.dataActive == "true" <==> isActive && url != ""
    ensures v.dataActive == "true" || v.dataActive == "false"
    ensures !(isActive && url != "") ==> v.statusText == InactiveText
    ensures isActive && url != "" ==>
      && ActivePrefix <= v.statusText
      && var shown := v.statusText[|ActivePrefix|..];
         && (|url| <= 70 ==> shown == url)
         && (|url| > 70 ==> shown == url[..70] + "...")
  {
    if isActive && url != "" then
      View(ActivePrefix + Prefix(url, 70) + (if |url| > 70 then "..." else ""), "Deactivate Drift", "true")
    else
      View(InactiveText, "Activate Drift on this Site", "false")
  }

  /** A browser-internal page that the popup refuses to monitor. */
  predicate IsSpecialPage(url: string) {
    url == "" || StartsWith(url, "chrome://") || StartsWith(url, "brave://") || StartsWith(url, "edge://")
  }

  /** The active tab of the current window, as `chrome.tabs.query` reports it (no URL reads as ""). */
  datatype Tab = Tab(id: int, url: string)

  /** What a click on the activate button does. */
  datatype Click = Deactivate | NoActiveTab | RefusedSpecialPage | Activate(tabId: int, tabUrl: string)

  /** A call the popup makes into storage or to the background script. */
  datatype PopupCommand =
    | RemoveStored(keys: seq<string>)
    | StoreFocus(tabId: int, tabUrl: string)
    | SendStartMonitoring(tabId: int, tabUrl: string)
    | SendStopMonitoring

  /**
    The click handler's decision: deactivate when the button shows active;
    otherwise refuse a missing tab or a tab with a falsy id silently, refuse a
    missing URL or a chrome://, brave:// or edge:// page with a message, and
    activate on anything else.
  */
  function DecideClick(isActiveNow: bool, tab: Option<Tab>): (c: Click)
    ensures c == Deactivate <==> isActiveNow
    ensures c.Activate? <==> !isActiveNow && tab.Some? && tab.value.id != 0 && !IsSpecialPage(tab.value.url)
    ensures c.Activate? ==> (tab == Some(Tab(c.tabId, c.tabUrl)) && c.tabId != 0 && c.tabUrl != ""
      && !StartsWith(c.tabUrl, "chrome://") && !StartsWith(c.tabUrl, "brave://") && !StartsWith(c.tabUrl, "edge://"))
    ensures c == RefusedSpecialPage <==> !isActiveNow && tab.Some? && tab.value.id != 0 && IsSpecialPage(tab.value.url)
  {
    if isActiveNow then Deactivate
    else if tab.None? || tab.value.id == 0 then NoActiveTab
    else if IsSpecialPage(tab.value.url) then RefusedSpecialPage
    else Activate(tab.value.id, tab.value.url)
  }

  /** The storage writes and messages that follow a click, in order. */
  function ClickCommands(c: Click): (cmds: seq<PopupCommand>)
    ensures c.Activate? ==> cmds == [StoreFocus(c.tabId, c.tabUrl), SendStartMonitoring(c.tabId, c.tabUrl)]
    ensures c == Deactivate ==> cmds == [RemoveStored(["focusTabId", "focusTabUrl"]), SendStopMonitoring]
    ensures c == NoActiveTab || c == RefusedSpecialPage ==> cmds == []
  {
    match c
    case Deactivate => [RemoveStored(["focusTabId", "focusTabUrl"]), SendStopMonitoring]
    case NoActiveTab => []
    case RefusedSpecialPage => []
    case Activate(tabId, tabUrl) => [StoreFocus(tabId, tabUrl), SendStartMonitoring(tabId, tabUrl)]
  }

  // ---------------------------------------------------------------------------
  // Storage-change filter

  /** The eight keys whose change makes the popup reload. */
  const WatchedKeys: set<string> := {
    "focusTabId", "focusTabUrl", "totalDriftSeconds", "totalVideoPauseSeconds", "totalIdleSeconds",
    "tabDriftSoundChoice", "videoPauseSoundChoice", "idleNudgeSoundChoice"
  }

  /**
    The storage-change listener's test: reload only for the "local" area and
    only if some changed key is watched. The scan stops at the first watched key.
  */
  method NeedsUIRefresh(namespace: string, changed: seq<string>) returns (refresh: bool)
    ensures refresh <==> namespace == "local" && exists i :: 0 <= i < |changed| && changed[i] in WatchedKeys
  {
    refresh := false;
    if namespace != "local" {
      return;
    }
    var i := 0;
    while i < |changed|
      invariant 0 <= i <= |changed|
      invariant !refresh
      invariant forall j :: 0 <= j < i ==> changed[j] !in WatchedKeys
    {
      if changed[i] in WatchedKeys {
        refresh := true;
        break;
      }
      i := i + 1;
    }
  }

  // ---------------------------------------------------------------------------
  // The popup's DOM fields, assigned in place

  /** The popup's elements that the script writes. */
  class PopupView {
    var statusText: string
    var buttonText: string
    var dataActive: string
    var form: Form

    constructor (initial: Form)
      ensures statusText == "" && buttonText == "" && dataActive == "" && form == initial
    {
      statusText, buttonText, dataActive := "", "", "";
      form := initial;
    }

    /** `updatePopupUI`. */
    method UpdatePopupUI(isActive: bool, url: string)
      modifies this
      ensures View(statusText, buttonText, dataActive) == StatusView(isActive, url)
      ensures form == old(form)
    {
      if isActive && url != "" {
        var tail := if |url| > 70 then "..." else "";
        statusText := ActivePrefix + Prefix(url, 70) + tail;
        buttonText := "Deactivate Drift";
        dataActive := "true";
      } else {
        statusText := InactiveText;
        buttonText := "Activate Drift on this Site";
        dataActive := "false";
      }
    }

    /**
      `loadAndApplySettings` with its storage read: the status from the stored
      focus keys (a missing URL shows as ""), then every form field.
    */
    method LoadAndApplySettings(st: Storage)
      modifies this
      ensures View(statusText, buttonText, dataActive)
        == StatusView(Truthy(Read(st, "focusTabId")), UrlText(Read(st, "focusTabUrl")))
      ensures form == LoadedForm(st)
    {
      UpdatePopupUI(Truthy(Read(st, "focusTabId")), UrlText(Read(st, "focusTabUrl")));
      form := LoadedForm(st);
    }

    /** The activate button's click handler; a refusal replaces the status text. */
    method OnActivateClick(tab: Option<Tab>) returns (cmds: seq<PopupCommand>)
      modifies this
      ensures var c := DecideClick(old(dataActive) == "true", tab);
        && cmds == ClickCommands(c)
        && (c == RefusedSpecialPage ==> statusText == SpecialPageText)
        && (c != RefusedSpecialPage ==> statusText == old(statusText))
        && buttonText == old(buttonText) && dataActive == old(dataActive) && form == old(form)
    {
      var c := DecideClick(dataActive == "true", tab);
      if c == RefusedSpecialPage {
        statusText := SpecialPageText;
      }
      cmds := ClickCommands(c);
    }

    /** The storage-change listener: reload when `NeedsUIRefresh` says so. */
    method OnStorageChanged(namespace: string, changed: seq<string>, st: Storage) returns (reloaded: bool)
      modifies this
      ensures reloaded <==> namespace == "local" && exists i :: 0 <= i < |changed| && changed[i] in WatchedKeys
      ensures reloaded ==> (form == LoadedForm(st)
        && View(statusText, buttonText, dataActive)
           == StatusView(Truthy(Read(st, "focusTabId")), UrlText(Read(st, "focusTabUrl"))))
      ensures !reloaded ==> (statusText == old(statusText) && buttonText == old(buttonText)
        && dataActive == old(dataActive) && form == old(form))
    {
      reloaded := NeedsUIRefresh(namespace, changed);
      if reloaded {
        LoadAndApplySettings(st);
      }
    }
  }

  /** The URL argument `updatePopupUI` receives: a stored string, or its default "" when none is stored. */
  function UrlText(stored: Value): string {
    if stored.Str? then stored.s else ""
  }
}

/**
  How the popup, the background script and the content script meet through
  the settings in storage and the `startMonitoring` message: the durations
  the popup writes are the ones the background and the page use, and where
  they disagree about defaults and minimums.
*/
module Components {
  import opened Wrappers
  import opened JsValues
  import Background
  import Content
  import Popup

  /**
    What `chrome.storage.local.set` does with a total that is NaN. The popup
    passes NaN on as it is; what the store then holds is the browser's
    behaviour, not the scripts', so the model takes it as a parameter: NaN
    kept, stored as null, the key left out of the write, or the whole write
    rejected.
  */
  datatype NaNWrite = KeepsNaN | StoresNull | DropsKey | RejectsWrite

  /** The six keys the save handler writes. */
  const SavedKeys: set<string> := {
    "totalDriftSeconds", "totalVideoPauseSeconds", "totalIdleSeconds",
    "tabDriftSoundChoice", "videoPauseSoundChoice", "idleNudgeSoundChoice"
  }

  /** Some total of the save is NaN. */
  predicate HasNaN(saved: Popup.Saved) {
    saved.totalDriftSeconds.NotANumber? || saved.totalVideoPauseSeconds.NotANumber?
    || saved.totalIdleSeconds.NotANumber?
  }

  /** The store refuses the whole write. */
  predicate Rejected(saved: Popup.Saved, w: NaNWrite) {
    w == RejectsWrite && HasNaN(saved)
  }

  /** What the store holds for one total afterwards, when the write goes through; `None` when the key is left out. */
  function StoredTotal(p: Popup.Parsed, w: NaNWrite): (v: Option<Value>)
    ensures p.Int? ==> v == Some(Number(p.i))
    ensures v.None? <==> p.NotANumber? && (w == DropsKey || w == RejectsWrite)
    // whatever a NaN total leaves behind, the duration rule rejects it
    ensures p.NotANumber? && v.Some? ==> forall d :: SecondsOrDefault(v.value, d) == d
  {
    match p
    case Int(i) => Some(Number(i))
    case NotANumber =>
      match w
      case KeepsNaN => Some(NaN)
      case StoresNull => Some(Null)
      case DropsKey => None
      case RejectsWrite => None
  }

  /** How the key of one saved total reads after a write that went through. */
  ghost predicate WroteTotal(st: Storage, st': Storage, key: string, p: Popup.Parsed, w: NaNWrite) {
    && (p.Int? ==> Read(st', key) == Number(p.i))
    && (p.NotANumber? && w == KeepsNaN ==> Read(st', key) == NaN)
    && (p.NotANumber? && w == StoresNull ==> Read(st', key) == Null)
    && (p.NotANumber? && w == DropsKey ==> Read(st', key) == Read(st, key))
  }

  function Put(st: Storage, key: string, v: Option<Value>): Storage {
    if v.Some? then st[key := v.value] else st
  }

  /**
    The storage after a successful save: the three totals as the store keeps
    them and the three sound choices; a rejected write changes nothing; no
    key outside the six changes.
  */
  function AfterSave(st: Storage, saved: Popup.Saved, w: NaNWrite): (st': Storage)
    ensures Rejected(saved, w) ==> st' == st
    ensures !Rejected(saved, w) ==>
      && WroteTotal(st, st', "totalDriftSeconds", saved.totalDriftSeconds, w)
      && WroteTotal(st, st', "totalVideoPauseSeconds", saved.totalVideoPauseSeconds, w)
      && WroteTotal(st, st', "totalIdleSeconds", saved.totalIdleSeconds, w)
      && Read(st', "tabDriftSoundChoice") == saved.tabDriftSoundChoice
      && Read(st', "videoPauseSoundChoice") == saved.videoPauseSoundChoice
      && Read(st', "idleNudgeSoundChoice") == saved.idleNudgeSoundChoice
    ensures forall key | key !in SavedKeys :: (key in st' <==> key in st) && (key in st ==> st'[key] == st[key])
  {
    if Rejected(saved, w) then st
    else
      Put(Put(Put(st,
        "totalDriftSeconds", StoredTotal(saved.totalDriftSeconds, w)),
        "totalVideoPauseSeconds", StoredTotal(saved.totalVideoPauseSeconds, w)),
        "totalIdleSeconds", StoredTotal(saved.totalIdleSeconds, w))
        ["tabDriftSoundChoice" := saved.tabDriftSoundChoice]
        ["videoPauseSoundChoice" := saved.videoPauseSoundChoice]
        ["idleNudgeSoundChoice" := saved.idleNudgeSoundChoice]
  }

  /**
    A numeric drift and video-pause total the popup accepts, once written,
    is the delay the background arms the drift alarm with and the delay the
    page arms its pause timer with.
  */
  lemma {:induction false} SavedDurationsAreHonoured(st: Storage, f: Popup.Form, now: int, w: NaNWrite)
    requires Popup.SaveSettings(f).Ok?
    ensures var saved := Popup.SaveSettings(f).value;
      var st' := AfterSave(st, saved, w);
      !Rejected(saved, w) ==>
        && (saved.totalDriftSeconds.Int? ==>
              Background.DriftDeadline(now, st') == now + 1000 * saved.totalDriftSeconds.i)
        && (saved.totalVideoPauseSeconds.Int? ==>
              Content.PauseTimeoutMs(Read(st', "totalVideoPauseSeconds")) == 1000 * saved.totalVideoPauseSeconds.i)
  {
    var saved := Popup.SaveSettings(f).value;
    var st' := AfterSave(st, saved, w);
    if !Rejected(saved, w) {
      if saved.totalDriftSeconds.Int? {
        assert saved.totalDriftSeconds.i >= Popup.MinimumFocusSeconds;
        assert Read(st', "totalDriftSeconds") == Number(saved.totalDriftSeconds.i);
      }
      if saved.totalVideoPauseSeconds.Int? {
        assert saved.totalVideoPauseSeconds.i >= Popup.MinimumFocusSeconds;
        assert Read(st', "totalVideoPauseSeconds") == Number(saved.totalVideoPauseSeconds.i);
      }
    }
  }

  /**
    With the intended save, every accepted setting is honoured whatever the
    store does with NaN: nothing it writes is NaN, so the write is never
    rejected, and the drift and video-pause totals become the alarm delay
    and the page timer delay.
  */
  lemma {:induction false} IntendedSaveIsHonoured(st: Storage, f: Popup.Form, now: int, w: NaNWrite)
    requires Popup.SaveIntended(f).Ok?
    ensures var saved := Popup.SaveIntended(f).value;
      var st' := AfterSave(st, saved, w);
      && !Rejected(saved, w)
      && Background.DriftDeadline(now, st') == now + 1000 * saved.totalDriftSeconds.i
      && Content.PauseTimeoutMs(Read(st', "totalVideoPauseSeconds")) == 1000 * saved.totalVideoPauseSeconds.i
  {
    SavedDurationsAreHonoured(st, f, now, w);
  }

  /**
    A drift field left unparsable passes the popup's check with a NaN total.
    If the store keeps NaN or null, the background falls back to its
    10-second delay; if it leaves the key out or rejects the write, the
    background keeps using whatever was stored before.
  */
  lemma {:induction false} UnparsedDriftOutcomes(st: Storage, f: Popup.Form, now: int, w: NaNWrite)
    requires f.driftSeconds == Popup.NotANumber
    requires Popup.SaveSettings(f).Ok?
    ensures Popup.SaveSettings(f).value.totalDriftSeconds == Popup.NotANumber
    ensures var st' := AfterSave(st, Popup.SaveSettings(f).value, w);
      && (w == KeepsNaN || w == StoresNull ==> Background.DriftDeadline(now, st') == now + 10000)
      && (w == DropsKey || w == RejectsWrite ==>
            Read(st', "totalDriftSeconds") == Read(st, "totalDriftSeconds")
            && Background.DriftDeadline(now, st') == Background.DriftDeadline(now, st))
  {
    var saved := Popup.SaveSettings(f).value;
    assert HasNaN(saved);
    var st' := AfterSave(st, saved, w);
    if w == KeepsNaN || w == StoresNull {
      assert !Rejected(saved, w);
      assert Read(st', "totalDriftSeconds") == NaN || Read(st', "totalDriftSeconds") == Null;
    }
  }

  /**
    With no drift setting stored, the popup shows 15 seconds, but the
    background arms the alarm 10 seconds after the user leaves.
  */
  lemma DriftDefaultsDisagree(st: Storage, now: int)
    requires "totalDriftSeconds" !in st
    ensures var f := Popup.LoadedForm(st);
      Popup.Total(f.driftMinutes, f.driftSeconds) == Popup.Int(15)
    ensures Background.DriftDeadline(now, st) == now + 10000
  {
    Popup.ReloadedRoundTrip(Undefined, Popup.DefaultDriftTotalSeconds);
  }

  /**
    The popup refuses drift totals from 1 to 4 seconds, but the background
    honours such a stored value: its floor is 1 second, not 5.
  */
  lemma DriftFloorsDisagree(f: Popup.Form, n: int)
    requires 1 <= n < Popup.MinimumFocusSeconds
    requires Popup.Total(f.driftMinutes, f.driftSeconds) == Popup.Int(n)
    ensures Popup.SaveSettings(f) == Err(Popup.DriftTooShort)
    ensures Background.DriftDelaySeconds(Number(n)) == n
  {
  }

  /**
    Activating on a tab: the popup stores and sends the tab it clicked on,
    and delivering that `startMonitoring` makes the tab the background's
    focus tab with a truthy id and URL, so leaving it arms the drift alarm.
  */
  lemma {:induction false} ActivationStartsMonitoring(tab: Popup.Tab, s: Background.State, sender: Option<int>,
                                                      st: Storage, open: bool, u: int, now: int, st2: Storage)
    requires Popup.DecideClick(false, Some(tab)).Activate?
    requires u != tab.id
    ensures Popup.SendStartMonitoring(tab.id, tab.url) in Popup.ClickCommands(Popup.DecideClick(false, Some(tab)))
    ensures var s1 := Background.Step(s, Background.Message(Background.StartMonitoring(tab.id, tab.url), sender, st, open));
      && Background.FocusIdTruthy(s1) && Background.FocusUrlTruthy(s1)
      && s1.focusTabId == Some(tab.id)
      && Background.Step(s1, Background.TabActivated(u, now, st2)).driftAlarm
         == Some(Background.DriftDeadline(now, st2))
  {
    var c := Popup.DecideClick(false, Some(tab));
    assert c == Popup.Activate(tab.id, tab.url);
    assert tab.id != 0 && tab.url != "";
  }

  /**
    Deactivating in the popup removes the stored focus keys and sends
    `stopMonitoring`, which the background does not handle: its focus tab
    stays what it was.
  */
  lemma DeactivationKeepsBackgroundFocus(tab: Option<Popup.Tab>, s: Background.State, sender: Option<int>,
                                         st: Storage, open: bool)
    ensures Popup.ClickCommands(Popup.DecideClick(true, tab))
      == [Popup.RemoveStored(["focusTabId", "focusTabUrl"]), Popup.SendStopMonitoring]
    ensures Background.Step(s, Background.Message(Background.OtherAction("stopMonitoring"), sender, st, open)) == s
  {
  }
}

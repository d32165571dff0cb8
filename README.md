# Drift — a Dafny model of the focus monitor

Drift is a browser extension that nudges the user back to a chosen "focus
tab". The popup activates it on the current tab and stores the settings.
The background script remembers the focus tab. When the user switches away
from it, the background script arms a one-shot drift alarm. When the alarm
fires, it shows a "Stay Focused!" notification and asks the offscreen
document to play a sound. On the focus tab's page, the content script
starts a pause timer whenever the video pauses. If the pause lasts too
long, it reports `videoPausedTooLong`, and the background script answers
with a "Video Paused" notification and a sound.

The model has one module per script:

- `JsValues` (`js_values.dfy`) holds the JavaScript values that storage can hand back.
  - Truthiness and `typeof … === "number"`.
  - The "number, not NaN, at least 1, else default" rule that the background and content scripts share.
  - `substring(0, n)` and `startsWith`.
- `Background` (`background.dfy`) models each listener of background.js as a pure function.
  - Each function takes the script's state plus the inputs its asynchronous reads would deliver: the storage snapshot, `Date.now()` and whether an offscreen document exists.
  - It returns the new state and the browser calls it makes, as a list of `Command`s.
  - The browser's drift alarm and the notifications on screen are part of the state. `ApplyAll` gives the browser's meaning of the commands, and one lemma per listener proves that the commands produce exactly the listener's state change.
  - The class `FocusMonitor` holds the script's module-level variables and updates them in place. Each of its methods is proved equal to the matching function.
- `BackgroundTraces` (`background_traces.dfy`) replays whole sequences of events from the script's initial state. It proves:
  - the invariants every reachable state keeps;
  - that the focus tab is exactly the one named by the last `startMonitoring` whose tab has not since been closed;
  - the drift-nudge, return-to-focus and ignore scenarios.
- `Content` (`content.dfy`) models content.js:
  - The class `PageScript` holds `videoPauseTimer` and the page's table of pending timeouts.
  - The class `Video` holds the element's `data-drift-listeners-attached` marker and its listeners.
  - The methods prove that at most one pause timeout is ever pending, and that listeners are attached once.
- `Popup` (`popup.dfy`) models the popup script:
  - save validation with `parseInt`'s NaN;
  - splitting stored totals into minutes and seconds, with JavaScript's truncating `%`;
  - the status line;
  - the activate button's decision;
  - the storage-change filter, a loop;
  - the class `PopupView`, which holds the DOM fields the script assigns.
- `Offscreen` (`offscreen.dfy`) models the one-slot `currentAudio` of offscreen.js. The sound host keeps at most one of the sounds it created audible.
- `Components` (`components.dfy`) connects the scripts through storage and the `startMonitoring` message.

Values the source receives from the browser become parameters:

- storage contents;
- the clock;
- the result of `hasOffscreenDocument()`;
- the sender tab;
- whether `Audio.play()` succeeds;
- which timeout fires.

Calls the source makes into the browser become `Command` values (background) or `PopupCommand` values (popup). In the content script they become updates to the timer table and to the list of sent messages.

## Model

| member | source | states |
|---|---|---|
| JsValues.SecondsOrDefault | background.js:278-289 | a stored duration is used only when it is a number, not NaN and at least 1; anything else gives the default |
| JsValues.Prefix | background.js:327 | `substring(0, n)`: a prefix of the string, at most `n` long, the whole string when it is shorter than `n` |
| Background.DriftDelaySeconds | background.js:277-289 | the drift delay is the stored `totalDriftSeconds` when it is a number, not NaN and at least 1, otherwise 10 seconds; always at least 1 |
| Background.DriftDeadline | background.js:290-294 | the alarm is armed `1000 * delay` ms after now, so at least one second later |
| Background.SoundFile | background.js:81-91 | only a catalogue key maps to a file; `none` and unknown keys give no file |
| Background.ResolveSound | background.js:112-137 | unknown nudge type gives no sound; falsy stored choice gives the type's default (`nudge1` for tab drift, `quietNudge4` for video pause); `"none"` gives no sound; otherwise the catalogue file of the stored key; a file played is always one of the catalogue's |
| Background.SoundCommands | background.js:125-136 | at most one play request, and one exactly when a sound resolves |
| Background.VideoPauseNotice | background.js:163-173 | "Video Paused", priority 1, the first 50 characters of the URL followed by "...", or "the page" when no URL was reported |
| Background.DriftNotice | background.js:323-329 | "Stay Focused!", priority 2, "Time to return to: " followed by the whole URL when it has at most 100 characters, otherwise by exactly its first 100 |
| Background.OnMessage | background.js:141-247 | `startMonitoring` sets the focus id and URL, issues only the alarm clear and keeps the channel open; `videoPausedTooLong` notifies and plays a sound only when the focus id is truthy and the sender is the focus tab, otherwise changes nothing; `videoPlayed` clears the video-pause notification and stops the sound only when an offscreen document exists; any other action changes nothing and returns false |
| Background.OnActivated | background.js:250-313 | with no focus tab nothing happens; returning to the focus tab clears the alarm and both notifications; switching to another tab tells the focus tab's page to cancel its timer and arms the alarm at the stored delay; the focus variables never change |
| Background.OnAlarm | background.js:316-357 | the drift alarm with a truthy focus URL shows the drift notification and asks for the tab-drift sound; any other alarm, or a falsy URL, does nothing |
| Background.OnRemoved | background.js:360-377 | closing the focus tab resets the focus id, URL and alarm, clears both notifications and removes the stored focus keys; closing another tab does nothing |
| Background.OnUpdated | background.js:379-384 | only a URL change of the focus tab updates the focus URL |
| Background.Fire | background.js:292-294 | the one-shot drift alarm is gone once it fires |
| Background.Restart | background.js:3-4 | a restart of the service worker runs the script's first lines again: the focus id and URL become null, while the browser keeps the drift alarm and the notifications |
| Background.ClearIsIdempotent | background.js:256-272 | clearing the alarm or a notification twice is clearing it once |
| Background.NotifyThenSound | background.js:321-352 | a notification followed by a sound request changes the notification table as the notification alone does |
| Background.SoundCommandsLeaveTables | background.js:81-109 | a sound request changes neither the alarm nor the notifications |
| Background.MessageEmitsItsEffects | background.js:141-247 | the message listener's browser calls produce exactly its alarm and notification changes |
| Background.ActivatedEmitsItsEffects | background.js:250-313 | the same agreement for the tab-activated listener |
| Background.AlarmEmitsItsEffects | background.js:316-357 | the same agreement for the alarm listener |
| Background.RemovedEmitsItsEffects | background.js:360-377 | the same agreement for the tab-removed listener |
| Background.FocusMonitor.constructor | background.js:3-4 | the script starts with no focus tab, no alarm and no notifications |
| Background.FocusMonitor.HandleMessage | background.js:141-247 | the in-place message listener ends in the state, calls, status and return value of `OnMessage` |
| Background.FocusMonitor.HandleActivated | background.js:250-313 | the in-place tab-activated listener agrees with `OnActivated` |
| Background.FocusMonitor.HandleAlarm | background.js:316-357 | the in-place alarm listener, after the browser drops the fired alarm, agrees with `OnAlarm` |
| Background.FocusMonitor.HandleRemoved | background.js:360-377 | the in-place tab-removed listener agrees with `OnRemoved` |
| Background.FocusMonitor.HandleUpdated | background.js:379-384 | the in-place tab-updated listener agrees with `OnUpdated` |
| BackgroundTraces.StepKeepsConsistent | background.js:141-384 | every listener keeps the focus id and URL set or cleared together, keeps alarm and notifications empty while nothing is monitored, and shows only the two known notifications |
| BackgroundTraces.RunKeepsConsistent | background.js:3-4 | every state reachable from the initial one is consistent |
| BackgroundTraces.InactiveIsQuiet | background.js:360-367 | once nothing is monitored no alarm is armed and no notification is shown; an armed alarm implies a focus tab and URL |
| BackgroundTraces.StepFocus | background.js:143-145 | only `startMonitoring` sets the focus id and only closing the focus tab clears it |
| BackgroundTraces.FocusFollowsLastStart | background.js:143-145 | tab `t` is the focus tab exactly when the last `startMonitoring` named `t` and `t` was not closed since |
| BackgroundTraces.RestartSilencesDriftAlarm | background.js:316-357 | after a restart with the drift alarm armed, the state breaks the run invariant: the last start's tab is forgotten, leaving any tab arms nothing, and the kept alarm fires without a notification or a sound |
| BackgroundTraces.StartThenReturnDisarms | background.js:254-272 | starting on a tab and activating it leaves no alarm and neither notification |
| BackgroundTraces.DriftNudgeAfterLeaving | background.js:277-329 | leaving the focus tab with no stored delay arms the alarm 10 s later; firing it shows "Time to return to: " and the first 100 characters of the focus URL and drops the alarm |
| BackgroundTraces.LeavingCancelsPageTimer | background.js:297-311 | leaving the focus tab sends `cancelVideoPauseTimer` to it |
| BackgroundTraces.PauseFromOtherTabIgnored | background.js:160-203 | a pause report not from the focus tab changes nothing |
| BackgroundTraces.StepKeepsQuiet | background.js:250-313 | with the drift alarm disarmed and the drift notification not shown, only activating a tab other than the focus tab can arm the alarm or show that notification; an alarm that is not armed is never delivered |
| BackgroundTraces.QuietUntilLeaving | background.js:316-357 | from a state with no drift alarm and no drift notification, any sequence of events that never leaves the focus tab keeps it so |
| BackgroundTraces.NoNudgeAfterReturn | background.js:254-272 | after returning to the focus tab there is no drift alarm and no drift notification until some event activates a tab other than the focus tab of that moment |
| BackgroundTraces.RemovalIsIdempotent | background.js:360-377 | closing a tab twice has the effect of closing it once |
| BackgroundTraces.ReturnIsIdempotent | background.js:254-272 | returning to the focus tab twice has the effect of returning once |
| BackgroundTraces.StopMonitoringIsIgnored | background.js:246 | `stopMonitoring` changes nothing and returns false, so leaving the old focus tab still arms the alarm |
| Content.PauseTimeoutMs | content.js:38-57 | the pause timeout is the stored `totalVideoPauseSeconds` in ms when it is a number, not NaN and at least 1, otherwise 10 000 ms |
| Content.AtMostOnePending | content.js:33-35 | when every pending timeout is the held handle, at most one is pending, and none when no handle is held |
| Content.Video.constructor | content.js:9-13 | a found video carries its marker and no Drift listeners yet |
| Content.PageScript.constructor | content.js:5 | the script starts with no timer held and nothing pending or sent |
| Content.PageScript.OnPause | content.js:31-80 | the pause listener clears the held timer and arms one new timeout for the resolved delay, which is then the only pending one |
| Content.PageScript.OnPlay | content.js:82-102 | the play listener leaves no timeout pending, keeps the stale handle and sends `videoPlayed` with the page URL |
| Content.PageScript.OnCancel | content.js:125-136 | `cancelVideoPauseTimer` leaves nothing pending and no handle held, sends nothing, returns false |
| Content.PageScript.OnTimeout | content.js:59-77 | a firing timeout sends exactly one `videoPausedTooLong` with the page URL if it was still pending, nothing otherwise |
| Content.AttachToVideo | content.js:15-106 | a missing element is skipped; an element already marked keeps its listeners; otherwise the pause and play listeners are added and the marker is set |
| Content.OnMutation | content.js:109-117 | the observer attaches only to a found, unmarked video |
| Content.StartThenMutation | content.js:109-123 | the initial attach followed by the observer attaches the listeners once |
| Popup.Total | popup.js:233 | `mins * 60 + secs` is NaN exactly when a field is NaN |
| Popup.SaveSettings | popup.js:217-259 | the save is accepted exactly when no total is below its minimum (5 s drift and video pause, 15 s idle) as JavaScript compares, with NaN never below; it then writes the three totals and the three sound choices; the first failing check is reported; a numeric saved total meets its minimum |
| Popup.SaveAcceptsUnparsedField | popup.js:222-236 | a drift field that does not parse passes validation and its NaN total is handed to the storage write |
| Popup.SaveIntended | popup.js:233-246 | the intended save refuses a total that does not parse as it refuses one below its minimum, so every total it writes is a number meeting its minimum; what it accepts it saves as the handler does |
| Popup.SaveIntendedAgrees | popup.js:233-246 | when every total parses, the intended save and the handler give the same result |
| Popup.JsRem60 | popup.js:77 | `n % 60` takes the sign of `n` and differs from `n` by a multiple of 60 |
| Popup.SplitForDisplay | popup.js:72-95 | a stored number `x` is shown as the minutes `m` with `60m <= x < 60m + 60` and the seconds `x % 60` with the sign of `x` (so between -59 and 0 for a negative `x`); a non-number shows the default; NaN shows as NaN |
| Popup.SplitRoundTrip | popup.js:72-77 | saving the displayed minutes and seconds gives back the stored number exactly when it is non-negative or a whole number of minutes |
| Popup.NegativeSplitMisread | popup.js:73-77 | a stored -7 shows as -1 minutes and -7 seconds, which total -67 |
| Popup.SplitIntended | popup.js:73-77 | the intended split takes the seconds as the floor remainder, always in [0, 60); it is the handler's split on every value that is not a negative number |
| Popup.SplitIntendedRoundTrip | popup.js:73-77 | saving the intended split's fields gives back every stored number |
| Popup.ReloadedRoundTrip | popup.js:72-95 | for non-negative stored numbers and non-numbers, the displayed fields total the stored value or the default |
| Popup.LoadedForm | popup.js:57-105 | every form field is filled from its stored key or its default |
| Popup.LoadThenSaveKeepsSettings | popup.js:57-259 | saving right after loading writes back the stored durations (or the popup's defaults) and the shown sound choices, when the stored durations meet the minimums |
| Popup.SoundSelect | popup.js:97-102 | a selector shows the stored choice, or its default when the choice is falsy |
| Popup.StatusView | popup.js:42-55 | active with a URL: "Drift is active on: ", the first 70 characters, "..." only when longer, `data-active` "true"; otherwise the inactive text and "false" |
| Popup.DecideClick | popup.js:141-194 | deactivate exactly when the button shows active; activate exactly when a tab with a truthy id and a URL that is not a chrome://, brave:// or edge:// page exists; a special page is refused |
| Popup.ClickCommands | popup.js:141-212 | deactivation removes the focus keys, then sends `stopMonitoring`; activation stores the focus tab, then sends `startMonitoring`; a refusal sends nothing |
| Popup.NeedsUIRefresh | popup.js:111-130 | refresh exactly when the area is "local" and some changed key is one of the eight watched keys |
| Popup.PopupView.constructor | popup.js:2-27 | the popup starts with empty text fields and the initial form |
| Popup.PopupView.UpdatePopupUI | popup.js:42-55 | the assigned DOM fields are those of `StatusView` and the form is unchanged |
| Popup.PopupView.LoadAndApplySettings | popup.js:57-105 | the status follows the stored focus keys and the form is `LoadedForm` |
| Popup.PopupView.OnActivateClick | popup.js:141-215 | the click issues `ClickCommands` of `DecideClick`; only a special page changes the status text |
| Popup.PopupView.OnStorageChanged | popup.js:111-138 | the popup reloads exactly when the area is "local" and a watched key changed; a reload sets the status line, button and `data-active` from the stored focus keys and the form from storage; otherwise nothing changes |
| Offscreen.Audio.constructor | offscreen.js:16 | a new `Audio` has the given source, is paused and is at position 0 |
| Offscreen.SoundHost.constructor | offscreen.js:5 | no current sound at load |
| Offscreen.SoundHost.Audible | offscreen.js:5-51 | at most the current sound is audible, and none without a current sound |
| Offscreen.SoundHost.Play | offscreen.js:8-36 | the previous sound is paused and rewound; a new sound with the path becomes current and plays, or no sound is current when `play()` fails; no other sound changes; returns false |
| Offscreen.SoundHost.Stop | offscreen.js:37-48 | the current sound is paused, rewound and forgotten; with none nothing changes; returns false |
| Offscreen.SoundHost.OnMessage | offscreen.js:7-51 | play with a path and stop both pause and rewind the previous sound; play makes a new playing sound current, or none when `play()` fails; stop leaves none; a missing path or any other action changes nothing; no other sound ever changes; always returns false |
| Offscreen.SoundHost.OnEnded | offscreen.js:21-25 | a finished sound is paused and forgotten |
| Components.StoredTotal | popup.js:246-254 | a numeric total is stored as that number; for a NaN total the key is left out exactly when the store drops it or rejects the write, and whatever else it keeps is rejected by the duration rule |
| Components.AfterSave | popup.js:246-254 | a save writes the three totals as the store keeps them and the three sound choices; a write the store rejects changes nothing; no key other than the six changes |
| Components.SavedDurationsAreHonoured | background.js:277-294 | once written, a numeric drift or video-pause total the popup accepts is the delay the background arms the alarm with and the delay the page's timer uses |
| Components.UnparsedDriftOutcomes | background.js:277-294 | an unparsable drift field passes validation as NaN; if the store keeps NaN or null the background uses 10 s, and if it drops the key or rejects the write the background keeps the previously stored delay |
| Components.IntendedSaveIsHonoured | background.js:277-294 | with the intended save, no store outcome for NaN arises: the write is never rejected, and the accepted drift and video-pause totals are the alarm and page-timer delays |
| Components.DriftDefaultsDisagree | popup.js:30 | with no drift setting the popup shows 15 s while the background arms 10 s |
| Components.DriftFloorsDisagree | background.js:283 | the popup refuses 1 to 4 s totals, which the background would honour |
| Components.ActivationStartsMonitoring | popup.js:196-209 | activation sends the clicked tab in `startMonitoring`, which makes it the focus tab with a truthy id and URL, so leaving it arms the alarm |
| Components.DeactivationKeepsBackgroundFocus | popup.js:143-163 | deactivation sends `stopMonitoring`, which leaves the background's focus tab as it was |

## Discrepancies

These are recorded as written; the model does not change the behaviour.

- Default drift delay: with no stored setting, the popup displays 15 s (popup.js:30). The background arms its alarm after 10 s (background.js:10, 279). See `Components.DriftDefaultsDisagree`.
- Floor versus minimum: the popup refuses drift totals below 5 s (popup.js:34, 234). The background accepts any stored number of at least 1 s (background.js:283). See `Components.DriftFloorsDisagree`.
- Deactivation: the popup sends `stopMonitoring` (popup.js:156-161). The background's message listener has no branch for it (background.js:246), so the background keeps monitoring the old focus tab in memory, and the drift alarm is still armed when the user leaves that tab. See `BackgroundTraces.StopMonitoringIsIgnored` and `Components.DeactivationKeepsBackgroundFocus`.
- A blank or non-numeric duration field: `parseInt` gives NaN, `NaN < 5` is false, and NaN is handed to `chrome.storage.local.set` (popup.js:222-246). What the store keeps is browser behaviour and a parameter of the model. If it keeps NaN or null, the background and content scripts fall back to 10 s. If it drops the key or rejects the write, the previous setting stays in force. See `Popup.SaveAcceptsUnparsedField` and `Components.UnparsedDriftOutcomes`, and "## Findings" for the intended save.
- A negative stored total that is not a whole number of minutes does not survive load-then-save. JavaScript's `%` takes the sign of the dividend while `Math.floor` rounds down (popup.js:73-77). See `Popup.SplitRoundTrip` and "## Findings". No save path of the popup stores such a total: `Popup.SaveSettings` ensures that every numeric total it saves is at least 5.

## Findings

| source | as written | input that shows it | evidently intended | confidence | as-written member | corrected member |
|---|---|---|---|---|---|---|
| popup.js:233-246 | a total that does not parse is NaN, `NaN < 5` is false, and the NaN is saved | a blank drift minutes field | refuse such a total as a too-short one | high, not executed | Popup.SaveAcceptsUnparsedField | Popup.SaveIntended |
| popup.js:73-77 | the seconds field is the truncating `x % 60` while the minutes are `Math.floor(x / 60)` | a stored total of -7, shown as -1 min -7 s and saved back as -67 | the floor remainder, -1 min 53 s | low (no popup save stores a negative total), not executed | Popup.NegativeSplitMisread | Popup.SplitIntendedRoundTrip |

`Popup.SaveSettings` and `Popup.SplitForDisplay` stay the functions the rest of the model uses for the popup, because they are what the scripts do. The corrected halves are connected to them by `Popup.SaveIntendedAgrees` and by `Popup.SplitIntended`'s contract. `Components.IntendedSaveIsHonoured` proves what the intended save achieves across the scripts.

## Left out

- Browser APIs (alarms, notifications, storage, tabs, runtime messaging, offscreen documents) are not modelled as such. They are modelled as commands, or as parameters for the values they return. Only the alarm and the notifications the background creates have their effect modelled (`ApplyAll`).
- Callback and promise interleavings are not modelled. Each listener, together with its storage read, is one atomic step. This leaves out:
  - a second event arriving between `chrome.storage.local.get` and its callback;
  - the page's pause timer being armed after a `cancelVideoPauseTimer` that arrived while the storage read was pending;
  - the offscreen `play()` promise resolving or failing after a later message has replaced `currentAudio`.
- The offscreen document's lifecycle is not modelled: `hasOffscreenDocument`, `setupOffscreenDocument` with its `creatingOffscreenDocument` flag, and the 100 ms delay before `playSoundOffscreen` (background.js:36-79, 96-109). A sound request is one `PlaySound` command. Whether a document exists is a parameter of `videoPlayed`.
- How `chrome.storage.local.set` treats a NaN value is not fixed: `Components.NaNWrite` names four outcomes (NaN kept, null stored, key dropped, write rejected) and the lemmas cover each one.
- Restarts of the background service worker are not events of `BackgroundTraces.Run`. The browser may stop the idle worker and load it again, which sets the focus id and URL back to null (background.js:3-4) while the drift alarm and the notifications remain. `InactiveIsQuiet`, `FocusFollowsLastStart` and the run invariant hold only for a worker that stays loaded. `Background.Restart` and `BackgroundTraces.RestartSilencesDriftAlarm` state what a restart does instead.
- Notifications that the user dismisses or that the system hides are not modelled: only the script's own clears remove an entry from `shown`. The table may therefore list a notice that is no longer on screen. The proved properties state that a notice is absent, so they still hold.
- The drift alarm's deadline is not compared with the clock: an armed alarm may fire at any later event. The model only requires that an alarm that is not armed never fires.
- `chrome.runtime.getURL` is left out: sound paths are the catalogue's relative paths.
- Keys on `SOUND_OPTIONS`'s prototype chain (such as `toString`) are not modelled: only the object's own keys index the catalogue.
- Numbers are mathematical integers. Fractional and infinite stored durations, floating-point rounding of `x * 1000` and `Date.now()` as a float are left out. The only non-integer value modelled is NaN.
- Strings are sequences of characters. UTF-16 code units (which `substring` and `length` count) are not distinguished from characters.
- The popup's focus URL is read as a string, or as "" when none is stored. A stored non-string URL is not modelled.
- `sendResponse` payload strings are abstracted to a `Status` value. Console logging, `lastError` reporting and failed storage writes (other than the rejected NaN save above) are left out.
- DOM details are left out: element lookup, `statusMessage.style.color`, and the 3-second revert after a refused activation (popup.js:186-193).
- `findVideoElement`'s selector is left out: the video found is a parameter.
- Idle detection, notification-click handling and any handler for `stopMonitoring` do not exist in the modelled scripts. They are not added.

# LNMTL text-to-speech extension: a verified model of its core

This project models the browser extension that reads Chinese sentences
aloud on top of the Web Speech API. It covers three parts:

- **The playback controller `TTSPlayer`** (`extension/ttsPlayer.js`,
  modelled in `player.dfy`, module `Player`).
  - It plays an ordered list of text segments one after another.
  - A generation counter (`playbackInstanceId`) fences the end closures
    only. The `playNext` timers of old runs are not fenced.
  - A keep-alive refresher resumes the engine.
  - Setters check the pitch, rate and volume ranges.
- **The content script** (`extension/content.js`, modelled in
  `content.dfy`, module `Content`).
  - Its settings object starts from built-in defaults and is merged with
    what storage holds and with every later change.
  - The one-shot `speak` builds an utterance from the settings.
  - The `speakBatched` chain speaks a text ten characters per utterance.
    Nothing in `extension/content.js` calls `speakBatched`: the injected
    buttons call `speak` (line 41). The chain is modelled as written.
- **The settings popup** (`extension/popup.js`, modelled in `popup.dfy`,
  module `Popup`).
  - `updateVoices` picks a default voice.
  - The voice dropdown is rebuilt with the current voice selected.
  - The change handlers write one setting each.

The module `Speech` (`speech.dfy`) holds the parts the three files share:

- the loosely typed settings value (string, number or `undefined`);
- voices, utterances and engine commands;
- the "last match wins" lookup of a voice, `LastWhere`, which the player
  and the content script use by name and the popup by language.

The browser runs timers and engine callbacks one at a time. The model turns
each callback into a method that the environment calls:

- `PlayNext(gen, …)` is an armed `playNext` timer firing.
- `SegmentEnded(gen, index)` is a segment's end closure running.
- `StartRefresher` is the refresher run from an utterance's `onstart` or
  `onresume` handler.
- `RefresherTick` is an armed keep-alive timer firing.
- `DeferredSpeak` is the oldest armed 50 ms timer of `_speak` firing, which
  hands its utterance to the engine.
- `SpeakStarts` is such a timer firing followed by its utterance's start
  event, which runs the refresher.

The player keeps three kinds of outstanding callback as state. Each armed
`playNext` is stored with its run. Each end closure of a started segment is
stored as an `EndTag(gen, index)`. Each armed speak timer is stored with its
utterance, oldest first.

Everything observable is appended to a trace:

- every engine command;
- every `onstart` and `onend` listener notification.

The content script and the popup record their engine commands and their
settings saves in the same way.

The invariant `ChainOk` holds across every step. It says these things:

- `0 <= currentIndex <= |textList|`.
- No callback belongs to a run that has not started.
- Every started segment is a segment of the list.
- The current run has at most one outstanding link. That link is either its
  armed `playNext` or its speaking segment.

The trace invariant says that every index passed to a listener names a
segment of the list.

In several places the code does not do what its own comments, or calls that
have no effect, show was meant. The model follows the code:

- **The watchdog is never cancelled.** The code calls
  `clearTimeout(this._refreshId)` in the utterance's `onend` and `onpause`
  handlers (`extension/ttsPlayer.js:145`, `:162`). Those handlers are plain
  functions, so there `this` is the utterance and not the player, and the
  call cancels nothing. The call in `pause()` is commented out (`:85`).
  `reset()` issues none. Every armed refresher therefore stays armed
  (`armedRefreshers` only grows) and keeps resuming while not paused.
- **An engine error is not an end.** `onerror` only logs (`:151-153`), so a
  segment that fails with an error never runs its end closure.
- **There is no stopped state.** Running out of segments leaves `isPlaying`
  true. The next `playNext` simply does nothing.
- **A stale end closure still notifies.** The comment at `:58-60` says the
  generation check exists to cancel an old chain. The check at `:61` comes
  after the `onend` notification, so the end closure of a superseded run
  still calls `onend` with its own index (`RestartFencesOldRun`).
- **A stale `playNext` still plays.** The comment at `:37-38` says the
  generation keeps old runs from continuing. Only the end closure checks it
  (`:61`); `playNext` does not (`:44`). A `playNext` of an old run that fires
  while a newer run plays starts the current segment again. One way this
  happens: `reset()` while a segment speaks, whose end closure then re-arms
  the old run's `playNext` 200 ms later, and `play()` within that delay
  (`StaleRunReachable`). If the current run's utterance is already with the
  engine, the stale `playNext` cancels it, and that utterance's end closure
  moves the position on. So a superseded run cuts the current segment short
  (`StalePlayNextCutsShort`). `play()` called twice in one task goes
  differently: both first `playNext` timers have delay 0 and fire in the
  order they were armed, the old run's first. Its cancel comes before the
  new run has started anything, and the new run's cancel falls inside the
  old utterance's 50 ms delay. Both utterances are then spoken, so the first
  segment is spoken twice, with `onstart(0)` and `onend(0)` each twice, and
  nothing is cut short.
- **A cancel does not stop a speak still in its 50 ms delay.** `_speak`
  cancels at once but hands the utterance to the engine 50 ms later
  (`:167-169`). A `reset()`, `skip()`, `speak()` or another `_speak` within
  that window cancels before the deferred speak, so the utterance is spoken
  anyway (`ResetBeforeDeferredSpeak`). Two `_speak` calls in that window
  queue both utterances.
- **Defaults differ between files.** The player's default language is
  `"zh_CN"`, while the content script and the popup use `"zh-CN"`. The
  content script's default voice is a named Google voice, while the popup's
  is `""`.
- **The comment in `updateVoices` is not what the code does.** The comment
  says the default voice is the first voice of the language, but the loop
  keeps the last one. The model follows the loop.

## Model

| member | source | states |
|---|---|---|
| Speech.LastWhereIsLastMatch | extension/ttsPlayer.js:124-128 | the loop that reassigns the voice for every voice passing its test ends with a voice exactly when some voice passes, and then with the last such voice |
| Speech.VoiceNamedIsLastMatch | extension/ttsPlayer.js:123-128 | the voice lookup finds a voice exactly when some voice has the wanted name, and then it is the last voice of the list with that name; with no match the voice stays unset |
| Speech.ResolveVoice | extension/content.js:68-73 | the for-of loop that reassigns the voice ends with the last voice whose name matches, or none |
| Player.ChainAfterPlay | extension/ttsPlayer.js:33-40 | a new run (generation + 1, index 0, its first `playNext` armed) keeps the sequencing invariant; everything the old run left outstanding becomes stale |
| Player.ChainAfterReset | extension/ttsPlayer.js:95-97 | setting the index back to 0 keeps the sequencing invariant |
| Player.ChainAfterStart | extension/ttsPlayer.js:43-52 | a `playNext` that starts segment `currentIndex` inside the list consumes its timer and arms one end closure tagged with its run and that index, keeping the invariant; for the current run that closure becomes the run's only link |
| Player.ChainAfterIdle | extension/ttsPlayer.js:43-44 | a `playNext` whose guard fails consumes its timer and keeps the invariant |
| Player.ChainAfterEnd | extension/ttsPlayer.js:58-67 | an end closure always names a valid segment; one of the current run is the run's live link, and advancing the index by one and arming `playNext` keeps the invariant; one of a stale run keeps it without changing anything |
| Player.TtsPlayer.constructor | extension/ttsPlayer.js:12-31 | initial state: language `zh_CN`, no voice, pitch, rate and volume 1, index 0, generation 0, not playing, not paused, no listeners, nothing outstanding |
| Player.TtsPlayer.Play | extension/ttsPlayer.js:33-76 | after `play()` the index is 0, playback is on, the generation is the old one + 1, exactly one `playNext` of the new run is armed, and the engine was cancelled |
| Player.TtsPlayer.PlayNext | extension/ttsPlayer.js:43-70 | with `currentIndex` inside the list and playback on, it notifies `onstart` with that index (if registered), arms the end closure of the segment, cancels, and arms the deferred speak of the segment; otherwise it does nothing but consume its timer; it checks no generation |
| Player.TtsPlayer.StartSegment | extension/ttsPlayer.js:44-52 | the body of `playNext` once the guard holds: the `onstart` notification, the armed end closure, the cancel and the armed deferred speak |
| Player.TtsPlayer.ArmEnd | extension/ttsPlayer.js:51-52 | the end closure captures the run and the current index, and the `playNext` timer that fired is consumed |
| Player.TtsPlayer.NotifyStart | extension/ttsPlayer.js:46-48 | `onstart` is called with the current index only when a listener is registered, and every notified index is a valid segment |
| Player.TtsPlayer.SegmentEnded | extension/ttsPlayer.js:52-68 | `onend` is called with the captured index (if registered); a closure of the current run advances the index by exactly 1 and arms one `playNext`; a closure of a stale run changes neither; the invariant, and with it the index bound 0 ≤ `currentIndex` ≤ length of the list, is kept |
| Player.TtsPlayer.NotifyEnd | extension/ttsPlayer.js:54-56 | `onend` is called with the captured index only when a listener is registered |
| Player.TtsPlayer.FollowEnd | extension/ttsPlayer.js:61-67 | the generation fence: advance and re-arm only when the captured generation is still current |
| Player.TtsPlayer.Reset | extension/ttsPlayer.js:95-99 | `reset()` sets the index to 0, turns playback off and cancels the engine, keeping the invariant |
| Player.TtsPlayer.Skip | extension/ttsPlayer.js:101-104 | `skip()` only cancels the engine; no other state changes |
| Player.TtsPlayer.Speak | extension/ttsPlayer.js:106-109 | `speak()` turns playback off, clears the pause flag, cancels, and arms the deferred speak of the text |
| Player.TtsPlayer.SpeakText | extension/ttsPlayer.js:111-128 | `_speak` clears the pause flag and cancels at once, and arms a speak timer for an utterance carrying the current language, pitch, rate and volume and the voice named by the voice setting; nothing is spoken yet |
| Player.TtsPlayer.DeferredSpeak | extension/ttsPlayer.js:167-169 | the oldest armed speak timer hands its utterance to the engine, whatever was cancelled meanwhile, and is consumed |
| Player.TtsPlayer.Pause | extension/ttsPlayer.js:84-88 | `pause()` sets the pause flag and pauses the engine |
| Player.TtsPlayer.Resume | extension/ttsPlayer.js:90-93 | `resume()` clears the pause flag and resumes the engine |
| Player.TtsPlayer.StartRefresher | extension/ttsPlayer.js:173-178 | the refresher issues `resume` exactly when not paused, and arms one more keep-alive timer |
| Player.TtsPlayer.RefresherTick | extension/ttsPlayer.js:173-178 | a keep-alive tick issues `resume` exactly when not paused and re-arms itself, so the number of armed timers stays the same |
| Player.TtsPlayer.SetPitch | extension/ttsPlayer.js:185-189 | the pitch takes `x` exactly when `x` is numeric and in [0, 2]; otherwise it keeps its value |
| Player.TtsPlayer.SetRate | extension/ttsPlayer.js:195-199 | the rate takes `x` exactly when `x` is numeric and in [0.1, 10]; otherwise it keeps its value |
| Player.TtsPlayer.SetVolume | extension/ttsPlayer.js:205-209 | the volume takes `x` exactly when `x` is numeric and in [0, 1]; otherwise it keeps its value |
| Player.TtsPlayer.SetVoice | extension/ttsPlayer.js:215-217 | the voice setter stores its argument unchecked |
| Player.TtsPlayer.SetLang | extension/ttsPlayer.js:223-225 | the language setter stores its argument unchecked |
| Player.TtsPlayer.SetOnStart | extension/ttsPlayer.js:227-229 | registers or removes the `onstart` listener |
| Player.TtsPlayer.SetOnEnd | extension/ttsPlayer.js:231-233 | registers or removes the `onend` listener |
| Player.SpeakingFirst | extension/ttsPlayer.js:33-52 | a fresh two-segment player after `play()` and the first `playNext`: the end closure of segment 0 of the new run is the only chain callback outstanding, no `playNext` is armed, and the deferred speak of segment 0 is the only speak timer armed |
| Player.RestartFencesOldRun | extension/ttsPlayer.js:54-63 | for any valid player whose current run has segment `index` speaking: `play()` again, then that segment ends; its end closure still notifies `onend` with `index`, but the index stays 0 and nothing more is armed, so the only new armed `playNext` is the new run's first |
| Player.TtsPlayer.RunEffectsInOrder | extension/ttsPlayer.js:43-67 | with both listeners registered, an undisturbed run over `n` segments adds exactly five entries per segment, in index order: `onstart(i)`, the cancel, the speak of segment `i`, the `resume` of the refresher its start event runs, `onend(i)`, for each `i` from 0 to `n - 1` |
| Player.TtsPlayer.SpeakStarts | extension/ttsPlayer.js:130-178 | the oldest speak timer hands its utterance to the engine, and the utterance's start event runs the refresher: `resume` exactly when not paused, one more keep-alive timer, and that utterance removed from the armed speaks |
| Player.TtsPlayer.StartAndSpeak | extension/ttsPlayer.js:43-52 | the current run's `playNext` starts segment `currentIndex`, then the deferred speak that `_speak` arms (`:167-169`) fires and the utterance starts: the trace gains the segment's start effects, ending in a `resume`, its end closure is armed and one more keep-alive timer is armed |
| Player.TtsPlayer.RunStep | extension/ttsPlayer.js:43-67 | one undisturbed link of the chain: the segment is started, spoken, starts and ends, the index advances by one, the run's `playNext` is armed again, one keep-alive timer more is armed, and the trace gains exactly that segment's effects |
| Player.TtsPlayer.PlaySegments | extension/ttsPlayer.js:43-67 | from index 0, undisturbed links until the index reaches the end of the list; the trace gains the effects of every segment in order, its resume included, and one keep-alive timer per segment stays armed |
| Player.TtsPlayer.PlayNextIdle | extension/ttsPlayer.js:43-44 | a `playNext` whose guard fails only consumes its timer |
| Player.TtsPlayer.PlayToEnd | extension/ttsPlayer.js:43-67 | all segments are played and the last `playNext` finds the list exhausted and consumes its timer; no `playNext`, end closure or speak of the run is left, only one keep-alive timer per segment |
| Player.TtsPlayer.NaturalRun | extension/ttsPlayer.js:33-76 | `play()` with every utterance starting and ending naturally: the trace gains one cancel and then the effects of every segment once, in order; the run ends with the index at the end of the list and playback still on; every `playNext`, end closure and speak it armed is consumed, and one keep-alive timer per segment stays armed |
| Player.StalePlayNextCutsShort | extension/ttsPlayer.js:43-67 | for any valid playing player with a stale run's `playNext` armed while the current run speaks segment `idx`: that `playNext` passes its guard, notifies `onstart` with `idx` again, cancels and arms the speak of that segment once more; the cancelled utterance's end closure then advances the index to `idx + 1` and re-arms the current run, while the stale run's end closure for `idx` is left pending |
| Player.StaleRunReachable | extension/ttsPlayer.js:33-99 | from a fresh player: `play()`, the first `playNext`, the deferred speak, `reset()`, the segment's end, `play()`, the new run's first `playNext` and its deferred speak reach a state where an old run's `playNext` is armed while the current run speaks its first segment and no speak is waiting in its 50 ms delay |
| Player.ResetBeforeDeferredSpeak | extension/ttsPlayer.js:95-115 | `speak(text)` followed at once by `reset()`: both cancels come before the deferred speak, which then speaks the text |
| Player.ResetStopsChain | extension/ttsPlayer.js:95-97 | for any valid player whose current run has segment `index` speaking: `reset()`, then that segment ends; the closure, being of the current run, advances the index to 1 and arms one `playNext`, but playback stays off, so every armed `playNext` fails its guard (`PlayNext`) and no new segment starts until `play()`; a speak timer already armed still fires |
| Content.Split | extension/content.js:55-56 | segment and remainder concatenate to the text, the segment holds min(10, length) characters, and the remainder of a non-empty text is shorter than the text |
| Content.ChunksConcat | extension/content.js:55-77 | the chunks the chain speaks, joined in order, are the original text |
| Content.ChunkLengths | extension/content.js:55-56 | every chunk holds between 1 and 10 characters, and every chunk but the last exactly 10 |
| Content.ChunkCount | extension/content.js:51-56 | the chain speaks ⌈length / 10⌉ utterances |
| Content.BatchCommandsSpeakChunks | extension/content.js:58-79 | the whole chain issues, per chunk in order, one cancel and one utterance of that chunk built from the settings, and nothing else |
| Content.ContentScript.constructor | extension/content.js:10-17 | the default settings: language `zh-CN`, pitch, rate and volume 1, the Google Mandarin voice, whose name has a no-break space after "Google", and the sentence query |
| Content.ContentScript.LoadSettings | extension/content.js:125-127 | every key of the stored result overwrites that setting; every other key keeps its prior or default value |
| Content.ContentScript.OnSettingsChanged | extension/content.js:135-139 | every changed key takes its `newValue`; every other key is unchanged |
| Content.ContentScript.Speak | extension/content.js:82-111 | cancel, then speak the text with the language, pitch, rate and volume of the settings and the last voice named by the voice setting |
| Content.ContentScript.SpeakBatched | extension/content.js:47-80 | an empty text issues nothing and ends the chain; otherwise it cancels and speaks the first ten characters and hands the remainder on, so the commands so far plus those of the rest of the chain are the commands of the whole chain |
| Popup.LastWithLangIsLastMatch | extension/popup.js:38-42 | the lookup finds a voice exactly when one has the wanted language, and then it is the last voice of the list with that language |
| Popup.DefaultVoiceRule | extension/popup.js:36-43 | a non-empty voice setting is kept; an empty one becomes the name of the last voice of the current language, and stays empty when none matches; no other setting changes |
| Popup.DefaultVoiceSelected | extension/popup.js:36-57 | when no voice was chosen and some voice has the current language, the default picked is shown selected |
| Popup.ChoiceSurvivesRebuild | extension/popup.js:64-67 | after picking a voice with a non-empty name, the next rebuild keeps the choice and marks that voice current |
| Popup.PopupPage.constructor | extension/popup.js:124 | the page holds the settings `loadSettings` handed it, an empty dropdown and no saves |
| Popup.PopupPage.UpdateVoices | extension/popup.js:32-59 | the settings get the default voice as `DefaultVoiceRule` says; the dropdown has exactly one option per voice, in order, with label = name and value = language, selected (and default-selected) exactly when both the language and the name match the settings |
| Popup.PopupPage.OnVoiceDropdownChange | extension/popup.js:64-68 | the language becomes the picked option's value, the voice its label, and the settings are saved |
| Popup.PopupPage.OnSettingChange | extension/popup.js:94-99 | the named setting becomes the input's string value and is saved; every other setting is unchanged |
| Popup.PickAndRebuild | extension/popup.js:32-68 | build the dropdown, pick voice `k` (non-empty name), rebuild: option `k` is the selected one |

## Left out

- The Web Speech API is not modelled. Engine calls are recorded as commands.
  Engine events are the environment calling a step method.
- Real-time scheduling is not modelled: the lengths of the delays of 0, 50,
  200 and 1000 ms, and `speakBatched`'s wait for the utterance's end event.
  Each timer is an outstanding callback that the environment fires, in any
  order. Only the speak timers, which all have the same delay, are kept in
  the order they were armed.
  - The `setTimeout(onend, 0)` deferral in `utter.onend` is folded into
    `SegmentEnded`.
- The engine's own queue is not modelled. Nothing ties the moment an end
  closure fires (`SegmentEnded`) to the deferred speak of its segment or to
  a cancel.
- `Player.TtsPlayer.NaturalRun` starts with no speak timer outstanding.
  A speak armed earlier would fire first, ahead of the run's own speaks,
  and the run's trace would then not be exactly its own effects.
- `Player.TtsPlayer.NaturalRun` delivers no keep-alive tick during the run.
  Each tick that fires while not paused adds one more `resume` between the
  entries the run states (`RefresherTick`).
- `Player.TtsPlayer.NotifyStart`, `Player.TtsPlayer.NotifyEnd`: the
  listeners are assumed not to call back into the player. In the code a
  listener runs synchronously in the middle of `playNext` (`:47`) and of the
  end closure (`:55`). A listener that calls `play()` or `reset()` there
  changes what the rest of that callback does, which the model does not
  capture.
- The `alreadyPlayed` duplicate-start guard is not modelled. It reacts to an
  engine defect and carries no controller state.
- `onerror` and the logging handlers are not modelled, because they only log.
- `playAt` is not modelled. It calls a global `speak` that no file defines,
  since the content script's `speak` is private to its closure.
- `Player.TtsPlayer.SegmentEnded` assumes each started segment ends exactly
  once: its requires names an outstanding end closure. Double-fired end
  events from the engine are not modelled.
- The refresher's timer handle `_refreshId` is not modelled, because no code
  path ever cancels a refresher. Armed refreshers are only counted.
- The content script's own 500 ms refresher in `speak` is not modelled.
  Neither is the completion callback passed to the player's
  `speak(text, onend)`.
- The getters are not modelled separately. They return the fields, which the
  model exposes directly.
- `isNumeric` with `parseFloat`/`isFinite` is not modelled. A setter's input
  is either numeric with its real value or not numeric. JavaScript numbers
  are modelled as exact reals, and the loose `==` coercions of settings
  values are modelled as strict equality.
- Strings are sequences of Unicode characters. JavaScript's `substring`
  counts UTF-16 code units, so a chunk that holds characters outside the
  Basic Multilingual Plane can differ.
- Chrome storage I/O is not modelled. This covers `chrome.storage.sync.get`
  and `set`, the popup's `default_settings` passed to `get`, and the
  `namespace` argument of `onSettingsChanged`. What storage returns is a
  parameter, and a save is recorded as the settings it writes.
- The DOM is not modelled: button injection, the browser compatibility
  check, and the slider `oninput` handlers with their `toFixed(2)` display.
  The query field's change handler writes one setting exactly as
  `Popup.PopupPage.OnSettingChange` does.
- `Content.BatchCommandsSpeakChunks` assumes the settings and the voice list
  do not change between chunks. Each step of the chain, `SpeakBatched`,
  reads them as they are when it runs.

# Story viewer and orchestrator: a Dafny model

This project models the two state machines of the "Great Nerf War" visual
novel. Both work on one story shape: a list of scenes, each a list of
dialogue lines.

- **The viewer** (`script.js`) holds one reader's position `(currentScene,
  currentDialogue)` in a fixed story. It has a two-second lock
  (`isSceneTransition`) after each scene change and the player's name. It
  publishes and receives "scene advanced" messages on
  `nerfwar/scene/advanced`.
- **The orchestrator** (`orchestrator.js`, class `StoryOrchestrator`) is a
  control dashboard. It holds its own position in an editable story, steps
  through it and publishes each page. It keeps a table of devices that sent a
  heartbeat and expires them after 60 s. It follows story-state messages from
  other dashboards and edits the current line's text and media.

The two share no protocol: they use different topics and different name
placeholders, so they are modelled as two separate machines over a common data
module.

Files:

- `wrappers.dfy`: `Option`.
- `strings.dfy`: JavaScript's `trim`, with ECMAScript's whitespace set.
- `story.dfy`, module `StoryModel`: the data model (media, lines, scenes,
  positions). It also holds the line counts behind `getCurrentPosition` and
  `getTotalDialogueCount`, the one-line forward/backward step both machines
  use, and an in-place line replacement.
- `viewer.dfy`, module `Viewer`: class `Viewer` (the module globals of
  `script.js`), the name substitution, the button predicates and the inbound
  scene clamp.
- `orchestrator.dfy`, module `Orchestrator`: class `StoryOrchestrator`, plus
  the pure step, filter, presence and media functions its methods are proved
  against.

Environment inputs become explicit:

- Publishing appends to an `outbox` / `published` list, and only while the
  connection flag is set.
- `Date.now()` is a `now` argument.
- The cooldown `setTimeout` is an `EndCooldown()` call.
- The 30 s sweep timer is a `SweepDevices(now)` call.
- Inbound JSON is a record whose fields may be absent (`Option`).

A JavaScript TypeError from reading a missing scene or line is modelled by its
effect: the handler stops at that point. If that happens before any write,
nothing changes. `broadcastNext` reads the current scene, and
`broadcastPrevious` the previous one, before moving: when that scene is
missing, the TypeError comes before the move and nothing changes
(orchestrator.js:444-448, 478). When the new position names no line, the
TypeError comes after the move: the position changes and nothing is published.

Behaviour of the code worth knowing:

- Personalisation replaces only the FIRST `{PLAYER_NAME}` (script.js:353).
  The orchestrator's story uses a different token, `{playerName}`, and the
  orchestrator never substitutes it.
- The viewer ignores a message by comparing the player NAME, not a client id.
  So two viewers with the same name ignore each other (script.js:631).
- The viewer publishes only on scene crossings, and sends only a one-based
  scene number, never a line (script.js:303, 333, 648-652). A receiver lands
  on line 0 of the clamped scene, lock or no lock.
- The orchestrator does not clamp positions it receives (orchestrator.js:406-407).
- Every `connectMQTT` call draws a new random client id (orchestrator.js:268),
  and it runs again after a lost connection and on "reconnect". Every message,
  page syncs included, is published retained (orchestrator.js:360). So after a
  reconnect, provided no other dashboard has published a page sync since, the
  dashboard's own last page sync comes back under an id that is no longer its
  own, and it snaps back to the position it last announced. The broker keeps
  only the latest retained message on `nerfwar/story/state`, so a later sync
  from another dashboard arrives instead and is adopted.
- A device survives a sweep at exactly 60000 ms; it is removed only when
  `now - lastSeen > 60000` (orchestrator.js:677).
- The code has no story validation, no flat-to-position inverse and no
  `deleteScene`, so none is modelled.

## Model

| member | source | states |
|---|---|---|
| `StoryModel.TotalLines` | orchestrator.js:695-697 | the total line count is non-negative, and at least the number of scenes for an authored story |
| `StoryModel.LinesBeforeIsPrefixTotal` | orchestrator.js:687-697 | the loop sum over the scenes before `k` equals the `reduce` total of the first `k` scenes |
| `StoryModel.FlatIndexInRange` | orchestrator.js:687-697 | for a valid position, lines-before-plus-line is in `[0, total)` |
| `StoryModel.FlatIndexInjective` | orchestrator.js:172-178 | two valid positions with the same flat index (the one `updateActiveStates` highlights) are the same position |
| `StoryModel.LinesBeforeMonotone` | orchestrator.js:689-691 | counting more scenes never gives fewer lines; scene `j`'s lines fit before scene `k > j` |
| `StoryModel.EndIsLastFlatIndex` | orchestrator.js:687-697 | the last line of the last scene has flat index total - 1 |
| `StoryModel.StepForward` | script.js:286-304 | stays exactly at the last line of the last scene; otherwise moves to a valid position with flat index + 1, crossing a scene exactly when the scene index changes |
| `StoryModel.StepBackward` | script.js:315-334 | stays exactly at (0,0); otherwise moves to a valid position with flat index - 1, onto the previous scene's last line when crossing |
| `StoryModel.ForwardThenBackward` | script.js:286-334 | from any valid position but the end, a step back after a step forward returns to the start, crossing the same boundary |
| `StoryModel.BackwardThenForward` | script.js:286-334 | from any valid position but (0,0), a step forward after a step back returns to the start |
| `StoryModel.ForwardSteps` | script.js:279-308 | pressing Next `n` times from a valid position stays on a valid position |
| `StoryModel.ForwardStepsCount` | script.js:286-304 | before the end, each press of Next advances the flat index by exactly one |
| `StoryModel.WalkReachesEnd` | script.js:286-304 | total - 1 presses from (0,0) reach the last line, and further presses change nothing |
| `StoryModel.ReplaceLine` | orchestrator.js:514-519 | same scenes, titles, backgrounds and line counts; only the line at the position changes |
| `Strings.Trim` | script.js:438 | the result is never longer than the input and neither starts nor ends with whitespace |
| `Strings.TrimCutsBlankEnds` | script.js:438 | the result is the input with its leading and trailing whitespace cut off: a slice of it with only whitespace before and after |
| `Strings.TrimEmptyExactlyWhenBlank` | script.js:438 | the result is empty exactly when the input is all whitespace |
| `Viewer.IndexOf` | script.js:353 | returns the first index at or after `from` where the token occurs, or none when it occurs nowhere there |
| `Viewer.Expand` | script.js:353 | a replacement without `$` is inserted as is (`$$`, `$&`, `` $` ``, `$'` are expanded) |
| `Viewer.Personalize` | script.js:353 | text without `{PLAYER_NAME}` is returned unchanged |
| `Viewer.PersonalizeReplacesFirstToken` | script.js:353 | for a name without `$`, only the first token is replaced by the name; the rest, later tokens included, is kept |
| `Viewer.DollarNameKeepsToken` | script.js:353 | the name `$&` leaves "Hi {PLAYER_NAME}!" unchanged |
| `Viewer.PersonalizeLiteral` | script.js:351-354 | the first token is replaced by the name verbatim, prefix and suffix kept; no token: unchanged |
| `Viewer.PersonalizeLiteralAgrees` | script.js:353 | the verbatim reading equals the source's for every name without `$` |
| `Viewer.PlayerNameFrom` | script.js:436-439 | the name is never empty and never padded; a blank input gives "Brave Veteran", any other input its trimmed form |
| `Viewer.PrevButtonDisabled` | script.js:401-404 | Previous is disabled exactly where a step back stays put |
| `Viewer.NextButtonDisabled` | script.js:406-411 | Next is disabled exactly where a step forward stays put |
| `Viewer.ClampScene` | script.js:633 | the result is a valid scene index; an in-range one-based id maps to id - 1; below range gives 0, above gives the last scene |
| `Viewer.Viewer.constructor` | script.js:19-27 | starts at (0,0), named "Brave Veteran", unlocked, not connected |
| `Viewer.Viewer.SetConnected` | script.js:601-623 | the connection flag is what the transport last reported |
| `Viewer.Viewer.EndCooldown` | script.js:297 | the lock is released |
| `Viewer.Viewer.PublishSceneChange` | script.js:644-658 | while connected, appends one-based `sceneId` = index + 1 with the current player name; otherwise sends nothing |
| `Viewer.Viewer.NextScene` | script.js:279-308 | locked: nothing changes; otherwise `StepForward`; the lock is set and a message published only on a scene crossing; at the end nothing changes; the position stays valid |
| `Viewer.Viewer.PreviousScene` | script.js:311-338 | locked: nothing changes; otherwise `StepBackward`, with the same lock and publish rule; at (0,0) nothing changes |
| `Viewer.Viewer.OnMessageArrived` | script.js:626-641 | a message with the local player name changes nothing; any other sets (`ClampScene(sceneId)`, 0) whatever the lock |
| `Viewer.Viewer.JumpToScene` | script.js:703-710 | an existing scene index goes to (index, 0); any other index is ignored, not clamped |
| `Viewer.Viewer.ResetStory` | script.js:490-504 | the position becomes (0,0) |
| `Viewer.Viewer.StartStory` | script.js:432-439 | the player name becomes `PlayerNameFrom(input)` |
| `Viewer.PeerFollowsSceneCrossing` | script.js:631-652 | a viewer with the same scene count and another name lands on line 0 of the scene a crossing peer published |
| `Orchestrator.NextTarget` | orchestrator.js:443-457 | from a valid position, steps exactly like `StepForward`, with no move exactly at the end; from a missing scene, no move |
| `Orchestrator.PrevTarget` | orchestrator.js:471-484 | from a valid position, steps exactly like `StepBackward`, with no move exactly at (0,0) |
| `Orchestrator.NextThenPreviousRestores` | orchestrator.js:443-496 | after a successful Next from a valid position, Previous returns to that position |
| `Orchestrator.PreviousThenNextRestores` | orchestrator.js:443-496 | after a successful Previous from a valid position, Next returns to that position |
| `Orchestrator.StoryStateTarget` | orchestrator.js:403-412 | a move happens exactly when `orchestratorId` is present, non-empty and not its own; it goes to (`sceneId` or 0, `dialogueIndex` or 0), unclamped |
| `Orchestrator.OwnPageSyncIgnored` | orchestrator.js:403-436 | a dashboard's own page sync, echoed back while its client id is unchanged, is ignored |
| `Orchestrator.PeerAdoptsPageSync` | orchestrator.js:403-436 | another dashboard adopts exactly the announced position |
| `Orchestrator.AfterHeartbeat` | orchestrator.js:393-401 | an accepted heartbeat inserts or overwrites its sender with `lastSeen = now` and keeps all other entries; a missing, empty or own id leaves the table as it was |
| `Orchestrator.Unexpired` | orchestrator.js:672-680 | exactly the entries with `now - lastSeen <= 60000` remain, each unchanged |
| `Orchestrator.HeartbeatLifetime` | orchestrator.js:672-680 | a device heard at `t` survives a sweep at `t + 60000` and is gone at `t + 60001` |
| `Orchestrator.SweepIdempotent` | orchestrator.js:672-680 | a second sweep at the same time removes nothing more |
| `Orchestrator.WithImage` | orchestrator.js:577-585 | the media object exists afterwards and its image is the new asset; speaker, text and audio are kept |
| `Orchestrator.WithAudio` | orchestrator.js:597-606 | the media object exists afterwards and its audio is the new asset; speaker, text and image are kept |
| `Orchestrator.StoryOrchestrator.constructor` | orchestrator.js:16-28 | the loaded story, at (0,0), no devices, not connected |
| `Orchestrator.StoryOrchestrator.SetConnected` | orchestrator.js:276-309 | the flag is what the transport last reported |
| `Orchestrator.StoryOrchestrator.ConnectMQTT` | orchestrator.js:265-274 | each connection attempt replaces the client id with a new one |
| `Orchestrator.StoryOrchestrator.Publish` | orchestrator.js:351-368 | sends and reports true exactly while connected |
| `Orchestrator.StoryOrchestrator.SelectScene` | orchestrator.js:149-155 | position (index, 0), unchecked |
| `Orchestrator.StoryOrchestrator.SelectDialogue` | orchestrator.js:157-163 | position (scene, line), unchecked |
| `Orchestrator.StoryOrchestrator.BroadcastCurrentPage` | orchestrator.js:423-441 | publishes the current line's page sync when it exists and the dashboard is connected; otherwise nothing is sent |
| `Orchestrator.StoryOrchestrator.BroadcastNext` | orchestrator.js:443-469 | no target: no change, nothing sent; otherwise moves to `NextTarget` and publishes that line if it exists |
| `Orchestrator.StoryOrchestrator.BroadcastPrevious` | orchestrator.js:471-496 | no target: no change, nothing sent; otherwise moves to `PrevTarget` and publishes that line if it exists |
| `Orchestrator.StoryOrchestrator.GetCurrentPosition` | orchestrator.js:687-693 | returns lines before the current scene plus the current line, which is below the total for a valid position |
| `Orchestrator.StoryOrchestrator.HandleClientHeartbeat` | orchestrator.js:393-401 | the table becomes `AfterHeartbeat` of the old one |
| `Orchestrator.StoryOrchestrator.SweepDevices` | orchestrator.js:670-684 | the table becomes `Unexpired` of the old one |
| `Orchestrator.StoryOrchestrator.DisconnectDevice` | orchestrator.js:657-668 | publishes the disconnect command and removes only that key |
| `Orchestrator.StoryOrchestrator.HandleStoryStateUpdate` | orchestrator.js:403-412 | the position becomes `StoryStateTarget`, or is unchanged when that is none |
| `Orchestrator.StoryOrchestrator.HandleMQTTMessage` | orchestrator.js:370-391 | heartbeats touch only the table, story state only the position; responses, commands and unknown topics change nothing |
| `Orchestrator.StoryOrchestrator.BroadcastStoryUpdate` | orchestrator.js:531-538 | while connected, publishes the whole story as a `story-update` command |
| `Orchestrator.StoryOrchestrator.BroadcastMediaUpdate` | orchestrator.js:613-625 | while connected, publishes the current line's media |
| `Orchestrator.StoryOrchestrator.SaveDialogue` | orchestrator.js:499-529 | a blank trimmed speaker or text, or a missing line, changes nothing; otherwise only the current line's speaker and text change, its media and all other lines are kept, and the story is published |
| `Orchestrator.StoryOrchestrator.SaveImageToDialogue` | orchestrator.js:573-590 | on an existing line, only that line changes, to `WithImage`, and its media is published; on a missing line nothing changes |
| `Orchestrator.StoryOrchestrator.SaveAudioToDialogue` | orchestrator.js:592-611 | on an existing line, only that line changes, to `WithAudio` with the chosen autoplay, and its media is published; on a missing line nothing changes |
| `Orchestrator.ReconnectReplaysOwnPageSync` | orchestrator.js:265-283 | a connected dashboard that publishes a page sync, reconnects under a new id and moves elsewhere is moved back to the announced position when its retained page sync is delivered again, that is, when no other dashboard has published a page sync since |

## Left out

- Transport: reconnect delays, subscribing, JSON encoding and parsing, the
  broker's store of retained messages (one per topic, the latest; which page
  sync a reconnecting dashboard receives depends on whether another dashboard
  published since its own), and errors swallowed around `send`.
  Messages are records and publishing is an appended list. The connection
  state is a flag set by `SetConnected`, and the client id is replaced by
  `ConnectMQTT`; the random draw of that id is its `newId` argument.
- Rendering and input: `updateDisplay`, `updateLivePreview`,
  `updateMediaPreview`, `updateActiveStates`, scene lists, notifications,
  scene titles, touch, keyboard, drag and drop, `escapeHtml`, and the
  `window.*` wrappers.
- Progress-bar percentages (script.js:376-377, orchestrator.js:203): they are
  floating-point display values.
- Timers: the cooldown, the sweep interval, `debounce` and the editor's
  auto-save timer. They become the explicit `EndCooldown` and `SweepDevices`
  calls and a `now` argument.
- File reading and MIME checks in `handleImageUpload`/`handleAudioUpload`,
  audio play/pause/volume, `toggleAudio` and `announcePresence`: these are
  browser and transport calls. The autoplay choice read from the DOM is a
  parameter of `SaveAudioToDialogue`.
- The asynchronous `init`/`loadStoryData`: the constructor takes the loaded
  story.
- `getStoryState` and `logStoryState`: debugging output only.
- Viewer.Viewer.OnMessageArrived: `sceneId` is an integer field. A missing
  or non-numeric `sceneId` makes the source store NaN; that case is not
  modelled.
- Orchestrator.StoryOrchestrator.HandleStoryStateUpdate: `sceneId` and
  `dialogueIndex` are optional integers. JavaScript's `|| 0` on other falsy or
  non-numeric values is not modelled.
- Orchestrator.StoryOrchestrator.SaveDialogue: when the current scene exists
  but the line index is outside it, the source writes a fresh `{speaker, text}`
  object at that index, growing the array or adding a non-index property. The
  model leaves the story unchanged in that case.
- Strings.Trim: only the whitespace set of ECMAScript (WhiteSpace and
  LineTerminator) is modelled, on Unicode scalar values.
- The hard-coded story contents (script.js:41-228, orchestrator.js:55-80) are
  not reproduced. Both satisfy `WellFormed`, which the constructors require.

## Findings

| source | as written | input that shows it | evidently intended | confidence | as-written member | corrected member |
|---|---|---|---|---|---|---|
| script.js:353 | The typed player name is passed as the replacement argument of `String.prototype.replace`, so `$&`, `$$`, `` $` `` and `$'` in it are expanded, not shown | player name `$&` with line "Hi {PLAYER_NAME}!" shows "Hi {PLAYER_NAME}!" | the name appears exactly as typed | medium; not executed | `Viewer.DollarNameKeepsToken` | `Viewer.PersonalizeLiteral` |

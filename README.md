# Playback dispatch of the Serenity Android client, in Dafny

This project models `VideoPlayerIntentUtils`, the component of the Serenity home-theater client that
decides how a video is played. It reads three stored preferences: whether an external player is used,
whether the video queue is continued through the external player, and which external player is selected.
It also holds the shared video queue. From these it takes one of four paths:

- start the internal player;
- launch an external player, falling back once to the `"default"` player when the selected one is not found;
- show a non-cancelable Resume/Restart dialog whose buttons then launch;
- show a notice.

Where it applies, it also resets the video's resume offset to 0.

Files:

- `media.dfy` (module `Media`): the video, with its mutable resume offset, and the FIFO video queue (`java.util.LinkedList`) as a class.
- `dispatch.dfy` (module `Dispatch`): the decisions as pure functions with their laws. It holds the preference defaults, the three-way route of `launchExternalPlayer`, the launch-with-fallback of `launchPlayer`, what `playAllFromQueue` takes from the queue, and FIFO order over successive queue-continuation calls.
- `player_intents.dfy` (module `PlayerIntents`): the class `VideoPlayerIntentUtils`. Its methods change the queue, the video's offset, the open dialogs and a log of outside effects, and each postcondition states the new state in terms of the functions of `Dispatch`.

Outside effects are entries of the `log` field: notices, starting the internal player, showing the prompt, and each external launch attempt with the player, the video and its offset at that moment. Whether a named external player can be started is an oracle, the set `installed` passed to each call. An escaping `ActivityNotFoundException` is the result `PlayerNotFound`.

## Model

| member | source | states |
|---|---|---|
| `Media.VideoQueue.IsEmpty` | serenity-app/src/main/java/us/nineworlds/serenity/ui/util/VideoPlayerIntentUtils.java:107 | the answer is true exactly when no video is queued |
| `Media.VideoQueue.Clear` | serenity-app/src/main/java/us/nineworlds/serenity/ui/util/VideoPlayerIntentUtils.java:185 | the queue is empty afterwards |
| `Media.VideoQueue.Add` | serenity-app/src/main/java/us/nineworlds/serenity/ui/util/VideoPlayerIntentUtils.java:207 | the video is appended at the tail, the rest unchanged |
| `Media.VideoQueue.Poll` | serenity-app/src/main/java/us/nineworlds/serenity/ui/util/VideoPlayerIntentUtils.java:114 | returns and removes the head, or returns None and changes nothing on an empty queue |
| `Media.FifoLaw` | serenity-app/src/main/java/us/nineworlds/serenity/ui/util/VideoPlayerIntentUtils.java:51 | two videos added to an empty queue are polled back in order, then the queue yields None |
| `Media.VideoContentInfo.SetResumeOffset` | serenity-app/src/main/java/us/nineworlds/serenity/ui/util/VideoPlayerIntentUtils.java:169 | the offset takes the new value; the derived watch state is left unknown |
| `Dispatch.UnsetPreferences` | serenity-app/src/main/java/us/nineworlds/serenity/ui/util/VideoPlayerIntentUtils.java:108-110 | keys never stored read as external player off, continuous playback off, player `"default"` (the last as at line 69) |
| `Dispatch.ChooseRoute` | serenity-app/src/main/java/us/nineworlds/serenity/ui/util/VideoPlayerIntentUtils.java:71-82 | start-from-beginning iff the queue is non-empty or `"default"` is selected; prompt iff otherwise partially watched and not auto-resumed; launch-as-is in every remaining case; the three conditions partition all inputs |
| `Dispatch.LaunchAttempts` | serenity-app/src/main/java/us/nineworlds/serenity/ui/util/VideoPlayerIntentUtils.java:89-98 | one or two attempts; the first is the selected player; a second happens iff the first is not found, and it is `"default"` |
| `Dispatch.LaunchOutcome` | serenity-app/src/main/java/us/nineworlds/serenity/ui/util/VideoPlayerIntentUtils.java:93-98 | the launch ends normally iff the selected player or `"default"` is installed; otherwise the second failure escapes |
| `Dispatch.AttemptEvents` | serenity-app/src/main/java/us/nineworlds/serenity/ui/util/VideoPlayerIntentUtils.java:94-97 | one log entry per attempted player, in order, each recording whether that player was found |
| `Dispatch.FallbackLaw` | serenity-app/src/main/java/us/nineworlds/serenity/ui/util/VideoPlayerIntentUtils.java:85-98 | in log terms: at most two attempts, the second (`"default"`) only after the first failed, and success iff the last attempt found its player |
| `Dispatch.ExternalLaunch` | serenity-app/src/main/java/us/nineworlds/serenity/ui/util/VideoPlayerIntentUtils.java:65-83 | the offset becomes 0 iff the queue is non-empty or `"default"` is selected; a prompt, with no launch, iff the video is otherwise partially watched and not auto-resumed; in every other case an immediate launch at the resulting offset |
| `Dispatch.PlayAllPoll` | serenity-app/src/main/java/us/nineworlds/serenity/ui/util/VideoPlayerIntentUtils.java:106-115 | a video is handed over iff the queue is non-empty and both external player and continuous playback are on; then exactly the head is removed and the rest stays in order; otherwise the queue is unchanged |
| `Dispatch.ContinuousPlaybackIsFifo` | serenity-app/src/main/java/us/nineworlds/serenity/ui/util/VideoPlayerIntentUtils.java:112-115 | with both settings on, n successive calls hand over the first n queued videos in queue order and leave the rest queued |
| `Dispatch.QueueUntouchedWithoutContinuation` | serenity-app/src/main/java/us/nineworlds/serenity/ui/util/VideoPlayerIntentUtils.java:106-134 | with either setting off, any number of calls hands nothing over and leaves the queue as it was |
| `PlayerIntents.VideoPlayerIntentUtils.constructor` | serenity-app/src/main/java/us/nineworlds/serenity/ui/util/VideoPlayerIntentUtils.java:49-54 | the injected queue and preferences are kept; nothing has been started and no dialog is open |
| `PlayerIntents.VideoPlayerIntentUtils.Launch` | serenity-app/src/main/java/us/nineworlds/serenity/ui/util/VideoPlayerIntentUtils.java:94 | one launch attempt is logged with the video's current offset; it succeeds iff the player is installed |
| `PlayerIntents.VideoPlayerIntentUtils.LaunchPlayer` | serenity-app/src/main/java/us/nineworlds/serenity/ui/util/VideoPlayerIntentUtils.java:85-99 | logs exactly the attempts of `LaunchAttempts` for the currently selected player and returns `LaunchOutcome`; the offset and the queue are untouched |
| `PlayerIntents.VideoPlayerIntentUtils.LaunchExternalPlayer` | serenity-app/src/main/java/us/nineworlds/serenity/ui/util/VideoPlayerIntentUtils.java:65-83 | the new offset, the log, the open dialogs and the outcome are those of `ExternalLaunch` for the current queue, selected player and video; the queue is untouched |
| `PlayerIntents.VideoPlayerIntentUtils.ShowResumeDialogQueue` | serenity-app/src/main/java/us/nineworlds/serenity/ui/util/VideoPlayerIntentUtils.java:137-178 | one more dialog for the video is open and the prompt, with the offset it resumes from, is logged |
| `PlayerIntents.VideoPlayerIntentUtils.ResumeClicked` | serenity-app/src/main/java/us/nineworlds/serenity/ui/util/VideoPlayerIntentUtils.java:154-162 | dialog k closes, and its video is launched, with fallback, from its unchanged offset |
| `PlayerIntents.VideoPlayerIntentUtils.RestartClicked` | serenity-app/src/main/java/us/nineworlds/serenity/ui/util/VideoPlayerIntentUtils.java:163-172 | dialog k closes, its video's offset becomes 0, then it is launched, with fallback, from 0 |
| `PlayerIntents.PromptThenResume` | serenity-app/src/main/java/us/nineworlds/serenity/ui/util/VideoPlayerIntentUtils.java:153-162 | a prompted request followed by Resume logs the prompt and then exactly the launches of the same request with autoResume set; the dialog closes and the offset is unchanged |
| `PlayerIntents.PromptThenRestart` | serenity-app/src/main/java/us/nineworlds/serenity/ui/util/VideoPlayerIntentUtils.java:163-172 | a prompted request followed by Restart logs the prompt and then exactly the launches of a request that starts from the beginning; the dialog closes and the offset is 0 |
| `PlayerIntents.VideoPlayerIntentUtils.PlayAllFromQueue` | serenity-app/src/main/java/us/nineworlds/serenity/ui/util/VideoPlayerIntentUtils.java:106-135 | the queue becomes `PlayAllPoll`'s rest. A handed-over head gets `ExternalLaunch` with autoResume false. Otherwise exactly one entry is logged: the queue-empty notice, the not-enabled notice, or the internal queue player. No offset or dialog changes in those cases |
| `PlayerIntents.VideoPlayerIntentUtils.PlayVideo` | serenity-app/src/main/java/us/nineworlds/serenity/ui/util/VideoPlayerIntentUtils.java:180-196 | a non-empty queue is cleared with a notice. With the external player on, the queue stays empty and the effect is `ExternalLaunch` on an empty queue. Otherwise the queue is exactly the video, and the internal player is started once with the given autoResume. Where the video is not reset, it is left as it was |
| `PlayerIntents.VideoPlayerIntentUtils.LaunchInternalPlayer` | serenity-app/src/main/java/us/nineworlds/serenity/ui/util/VideoPlayerIntentUtils.java:204-215 | the video is appended to the queue, where the internal player finds it, and the internal player is started with that autoResume |

At its edges the code behaves as follows, and so does the model:

- The Resume/Restart dialog is non-cancelable (line 153). There is no "dismissed" outcome: a pushed button is the only way a dialog closes.
- When the fallback launch fails too, nothing reports it. The exception escapes (line 97), and the model returns `PlayerNotFound`. There is no failure notice.
- The `"default"` player can also fail to launch. With `"default"` selected and not found, it is attempted twice.
- The queue may hold a video more than once, since other screens add to the shared queue. Only `playVideo` reduces it to a single entry.

## Left out

- Android mechanics are reduced to log entries: `Toast`, `Intent`, `startActivityForResult` with its request codes, `AlertDialog` building and focus. The two internal-player starts are kept apart as `StartInternalPlayer` and `StartQueuePlayback`.
- The text of the prompt, including `TimeUtil.formatDuration`, is left out. The log records only the offset.
- Dependency injection is left out: the queue and preferences are constructor arguments.
- `ExternalPlayerFactory` and `ExternalPlayer` internals are left out. Whether a player identifier can be launched is the `installed` set passed to each call.
- `VideoContentInfo.isPartiallyWatched` is not part of this model. It is the field `partiallyWatched`. Offsets are written only through `SetResumeOffset`, whose contract says nothing about that field afterwards. So after a reset, a later request may or may not be prompted, and the model does not decide which.
- Editing preferences is left out. `prefs` is never written by the dispatcher.
- The internal player's own queue handling (`SerenitySurfaceViewVideoActivity`) is left out.
- Whatever calls `playAllFromQueue` again lives outside this component. `ContinuousRun` states what successive calls do when nothing else touches the queue in between.
- Threads are left out: the UI thread is the only caller.

/** The playback dispatcher VideoPlayerIntentUtils: it owns a reference to the
    shared video queue, reads the preferences, and routes a play request to
    the internal player, to an external player (with one fallback to
    "default"), or to the Resume/Restart prompt. */
module PlayerIntents {
  import opened Media
  import opened Dispatch

  class VideoPlayerIntentUtils {
    /** The injected queue, shared with the screens that enqueue videos. */
    const videoQueue: VideoQueue
    /** The stored preferences; they are read on every call and never written here. */
    var prefs: Preferences
    /** Everything started or shown so far, in order. */
    var log: seq<Event>
    /** The Resume/Restart dialogs on screen, oldest first. They cannot be
        cancelled, so only their two buttons take them away. */
    var dialogs: seq<VideoContentInfo>

    constructor (videoQueue: VideoQueue, prefs: Preferences)
      ensures this.videoQueue == videoQueue && this.prefs == prefs
      ensures log == [] && dialogs == []
    {
      this.videoQueue := videoQueue;
      this.prefs := prefs;
      log := [];
      dialogs := [];
    }

    /** One ExternalPlayer.launch() of the named player for the video; the
        player is found exactly when it is installed. */
    method Launch(player: string, video: VideoContentInfo, installed: set<string>) returns (found: bool)
      modifies this`log
      ensures found <==> player in installed
      ensures log == old(log) + [LaunchAttempt(player, video, video.resumeOffset, found)]
    {
      found := player in installed;
      log := log + [LaunchAttempt(player, video, video.resumeOffset, found)];
    }

    /** launchPlayer: the selected player, and "default" once if it is not found. */
    method LaunchPlayer(video: VideoContentInfo, installed: set<string>) returns (r: Outcome)
      modifies this`log
      ensures log == old(log) + Launches(video, video.resumeOffset, prefs.Filter(), installed)
      ensures r == LaunchOutcome(prefs.Filter(), installed)
    {
      var filter := prefs.Filter();
      var found := Launch(filter, video, installed);
      if found {
        r := Completed;
      } else {
        found := Launch(DefaultPlayer, video, installed);
        r := if found then Completed else PlayerNotFound;
      }
    }

    /** launchExternalPlayer: forces the offset to 0 and launches when the queue
        still holds videos or "default" is selected; otherwise prompts for a
        partially watched video that is not auto-resumed, and launches from
        the unchanged offset in every other case. */
    method LaunchExternalPlayer(video: VideoContentInfo, autoResume: bool, installed: set<string>) returns (r: Outcome)
      modifies this`log, this`dialogs, video
      ensures var e := ExternalLaunch(video, old(video.resumeOffset), old(video.partiallyWatched),
                                      videoQueue.items == [], prefs.Filter(), autoResume, installed);
        && video.resumeOffset == e.offset
        && log == old(log) + e.events
        && dialogs == old(dialogs) + (if e.prompted then [video] else [])
        && r == e.outcome
      // the video is untouched unless its offset is reset
      ensures var route := ChooseRoute(videoQueue.items == [], prefs.Filter(), old(video.partiallyWatched), autoResume);
        route != StartFromBeginning ==> video.partiallyWatched == old(video.partiallyWatched)
    {
      var filter := prefs.Filter();
      var empty := videoQueue.IsEmpty();
      if !empty || filter == DefaultPlayer {
        video.SetResumeOffset(0);
        r := LaunchPlayer(video, installed);
        return;
      }
      if video.partiallyWatched && !autoResume {
        ShowResumeDialogQueue(video);
        r := Completed;
        return;
      }
      r := LaunchPlayer(video, installed);
    }

    /** showResumeDialogQueue: puts a non-cancelable Resume/Restart dialog on screen. */
    method ShowResumeDialogQueue(video: VideoContentInfo)
      modifies this`log, this`dialogs
      ensures dialogs == old(dialogs) + [video]
      ensures log == old(log) + [ResumePrompt(video, video.resumeOffset)]
    {
      log := log + [ResumePrompt(video, video.resumeOffset)];
      dialogs := dialogs + [video];
    }

    /** The "Resume" button of dialog k: closes it and launches from the offset as it is. */
    method ResumeClicked(k: nat, installed: set<string>) returns (r: Outcome)
      requires k < |dialogs|
      modifies this`log, this`dialogs
      ensures var v := old(dialogs[k]);
        && dialogs == old(dialogs[..k] + dialogs[k + 1..])
        && log == old(log) + Launches(v, old(v.resumeOffset), prefs.Filter(), installed)
        && r == LaunchOutcome(prefs.Filter(), installed)
    {
      var video := dialogs[k];
      dialogs := dialogs[..k] + dialogs[k + 1..];
      r := LaunchPlayer(video, installed);
    }

    /** The "Restart" button of dialog k: closes it, sets the offset to 0 and launches. */
    method RestartClicked(k: nat, installed: set<string>) returns (r: Outcome)
      requires k < |dialogs|
      modifies this`log, this`dialogs, dialogs[k]
      ensures var v := old(dialogs[k]);
        && v.resumeOffset == 0
        && dialogs == old(dialogs[..k] + dialogs[k + 1..])
        && log == old(log) + Launches(v, 0, prefs.Filter(), installed)
        && r == LaunchOutcome(prefs.Filter(), installed)
    {
      var video := dialogs[k];
      dialogs := dialogs[..k] + dialogs[k + 1..];
      video.SetResumeOffset(0);
      r := LaunchPlayer(video, installed);
    }

    /** playAllFromQueue: a notice on an empty queue; the internal player for
        the whole queue when external playback is off; with it on, the head
        is polled and launched without auto-resume if continuous playback is
        on, and a notice is shown otherwise. */
    method PlayAllFromQueue(installed: set<string>) returns (r: Outcome)
      modifies videoQueue, this`log, this`dialogs, if videoQueue.items == [] then {} else {videoQueue.items[0]}
      ensures var p := PlayAllPoll(old(videoQueue.items), prefs);
        && videoQueue.items == p.rest
        && (p.handed.Some? ==>
              var v := p.handed.value;
              var e := ExternalLaunch(v, old(v.resumeOffset), old(v.partiallyWatched), p.rest == [],
                                      prefs.Filter(), false, installed);
              && v.resumeOffset == e.offset
              && (var route := ChooseRoute(p.rest == [], prefs.Filter(), old(v.partiallyWatched), false);
                  route != StartFromBeginning ==> v.partiallyWatched == old(v.partiallyWatched))
              && log == old(log) + e.events
              && dialogs == old(dialogs) + (if e.prompted then [v] else [])
              && r == e.outcome)
        && (p.handed.None? ==>
              && (old(videoQueue.items) != [] ==>
                    && videoQueue.items[0].resumeOffset == old(videoQueue.items[0].resumeOffset)
                    && videoQueue.items[0].partiallyWatched == old(videoQueue.items[0].partiallyWatched))
              && dialogs == old(dialogs)
              && r == Completed)
      ensures old(videoQueue.items) == [] ==> log == old(log) + [Toast(QueueIsEmpty)]
      ensures old(videoQueue.items) != [] && !prefs.ExternalPlayerOn() ==> log == old(log) + [StartQueuePlayback]
      ensures old(videoQueue.items) != [] && prefs.ExternalPlayerOn() && !prefs.ContinuousPlaybackOn() ==>
        log == old(log) + [Toast(QueueSupportNotEnabled)]
    {
      var empty := videoQueue.IsEmpty();
      if !empty {
        var extPlayer := prefs.ExternalPlayerOn();
        var extPlayerVideoQueue := prefs.ContinuousPlaybackOn();
        if extPlayer {
          if extPlayerVideoQueue {
            var head := videoQueue.Poll();
            r := LaunchExternalPlayer(head.value, false, installed);
          } else {
            log := log + [Toast(QueueSupportNotEnabled)];
            r := Completed;
          }
        } else {
          log := log + [StartQueuePlayback];
          r := Completed;
        }
      } else {
        log := log + [Toast(QueueIsEmpty)];
        r := Completed;
      }
    }

    /** playVideo: a non-empty queue is cleared first (with a notice); then the
        video goes to the external player with the queue empty, or is queued
        alone and handed to the internal player with the given autoResume. */
    method PlayVideo(video: VideoContentInfo, autoResume: bool, installed: set<string>) returns (r: Outcome)
      modifies videoQueue, this`log, this`dialogs, video
      ensures var cleared := if old(videoQueue.items) != [] then [Toast(QueueCleared)] else [];
        if prefs.ExternalPlayerOn() then
          var e := ExternalLaunch(video, old(video.resumeOffset), old(video.partiallyWatched), true,
                                  prefs.Filter(), autoResume, installed);
          && videoQueue.items == []
          && video.resumeOffset == e.offset
          && (var route := ChooseRoute(true, prefs.Filter(), old(video.partiallyWatched), autoResume);
              route != StartFromBeginning ==> video.partiallyWatched == old(video.partiallyWatched))
          && log == old(log) + cleared + e.events
          && dialogs == old(dialogs) + (if e.prompted then [video] else [])
          && r == e.outcome
        else
          && videoQueue.items == [video]
          && video.resumeOffset == old(video.resumeOffset)
          && video.partiallyWatched == old(video.partiallyWatched)
          && log == old(log) + cleared + [StartInternalPlayer(autoResume)]
          && dialogs == old(dialogs)
          && r == Completed
    {
      var empty := videoQueue.IsEmpty();
      if !empty {
        log := log + [Toast(QueueCleared)];
        videoQueue.Clear();
      }
      var externalPlayer := prefs.ExternalPlayerOn();
      if externalPlayer {
        r := LaunchExternalPlayer(video, autoResume, installed);
        return;
      }
      LaunchInternalPlayer(video, autoResume);
      r := Completed;
    }

    /** launchInternalPlayer: queues the video and starts the internal player
        with the autoResume extra; the player finds the video in the queue. */
    method LaunchInternalPlayer(video: VideoContentInfo, autoResume: bool)
      modifies videoQueue, this`log
      ensures videoQueue.items == old(videoQueue.items) + [video]
      ensures log == old(log) + [StartInternalPlayer(autoResume)]
    {
      videoQueue.Add(video);
      log := log + [StartInternalPlayer(autoResume)];
    }
  }

  /** A request that reaches the prompt, followed by "Resume": the prompt is
      logged, and then exactly the launches that the same request with
      autoResume set makes without a prompt. The dialog closes again and the
      offset is unchanged. */
  method PromptThenResume(u: VideoPlayerIntentUtils, video: VideoContentInfo, installed: set<string>) returns (r: Outcome)
    requires u.videoQueue.items == [] && u.prefs.Filter() != DefaultPlayer && video.partiallyWatched
    modifies u`log, u`dialogs, video
    ensures var direct := ExternalLaunch(video, old(video.resumeOffset), old(video.partiallyWatched), true,
                                         u.prefs.Filter(), true, installed);
      && !direct.prompted
      && u.log == old(u.log) + [ResumePrompt(video, old(video.resumeOffset))] + direct.events
      && r == direct.outcome
    ensures u.dialogs == old(u.dialogs) && video.resumeOffset == old(video.resumeOffset)
  {
    var shown := u.LaunchExternalPlayer(video, false, installed);
    r := u.ResumeClicked(|u.dialogs| - 1, installed);
  }

  /** A request that reaches the prompt, followed by "Restart": the prompt is
      logged, and then exactly the launches of a request that starts from the
      beginning. The dialog closes again and the offset is 0. */
  method PromptThenRestart(u: VideoPlayerIntentUtils, video: VideoContentInfo, installed: set<string>) returns (r: Outcome)
    requires u.videoQueue.items == [] && u.prefs.Filter() != DefaultPlayer && video.partiallyWatched
    modifies u`log, u`dialogs, video
    ensures var restart := ExternalLaunch(video, old(video.resumeOffset), old(video.partiallyWatched), false,
                                        u.prefs.Filter(), false, installed);
      && !restart.prompted && restart.offset == 0
      && u.log == old(u.log) + [ResumePrompt(video, old(video.resumeOffset))] + restart.events
      && r == restart.outcome
    ensures u.dialogs == old(u.dialogs) && video.resumeOffset == 0
  {
    var shown := u.LaunchExternalPlayer(video, false, installed);
    r := u.RestartClicked(|u.dialogs| - 1, installed);
  }
}

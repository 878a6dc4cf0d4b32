/** The decisions the playback dispatcher takes, as pure functions: the
    preference defaults, the three-way route of launchExternalPlayer, the
    launch-with-fallback of launchPlayer, and what playAllFromQueue takes
    from the queue. The methods of PlayerIntents are proved against these. */
module Dispatch {
  import opened Media

  /** The player identifier that needs no resume handling and is the fallback. */
  const DefaultPlayer: string := "default"

  /** The three stored preferences the dispatcher reads; None is a key that
      was never written, which the getters replace by the source's default. */
  datatype Preferences = Preferences(
    externalPlayer: Option<bool>,       // "external_player"
    continuousPlayback: Option<bool>,   // "external_player_continuous_playback"
    playerFilter: Option<string>)       // "serenity_external_player_filter"
  {
    function ExternalPlayerOn(): bool {
      if externalPlayer.Some? then externalPlayer.value else false
    }

    function ContinuousPlaybackOn(): bool {
      if continuousPlayback.Some? then continuousPlayback.value else false
    }

    function Filter(): string {
      if playerFilter.Some? then playerFilter.value else DefaultPlayer
    }
  }

  /** With nothing stored, playback is internal, the queue is not continued
      and the selected external player is "default". */
  lemma UnsetPreferences()
    ensures var p := Preferences(None, None, None);
      !p.ExternalPlayerOn() && !p.ContinuousPlaybackOn() && p.Filter() == DefaultPlayer
  {
  }

  /** How a call ended: normally, or with the ActivityNotFoundException of the
      fallback launch escaping to the caller. */
  datatype Outcome = Completed | PlayerNotFound

  datatype Notice = QueueCleared | QueueIsEmpty | QueueSupportNotEnabled

  /** What the dispatcher makes happen outside itself, in order. */
  datatype Event =
    | Toast(notice: Notice)
      // the internal player, started with the "autoResume" extra; it takes the video from the queue
    | StartInternalPlayer(autoResume: bool)
      // the internal player, started to play the whole queue
    | StartQueuePlayback
      // the Resume/Restart dialog, showing the offset it would resume from
    | ResumePrompt(video: VideoContentInfo, offset: int)
      // one ExternalPlayer.launch(): which player, which video at which offset, and whether it was found
    | LaunchAttempt(player: string, video: VideoContentInfo, offset: int, found: bool)

  /** The three branches of launchExternalPlayer. */
  datatype Route = StartFromBeginning | AskResumeOrRestart | LaunchAsIs

  /** Which branch launchExternalPlayer takes. Every combination of inputs
      takes exactly one, since the three conditions below partition them. */
  function ChooseRoute(queueEmpty: bool, filter: string, partiallyWatched: bool, autoResume: bool): (r: Route)
    ensures r == StartFromBeginning <==> !queueEmpty || filter == DefaultPlayer
    ensures r == AskResumeOrRestart <==> queueEmpty && filter != DefaultPlayer && partiallyWatched && !autoResume
    ensures r == LaunchAsIs <==> queueEmpty && filter != DefaultPlayer && (!partiallyWatched || autoResume)
  {
    if !queueEmpty || filter == DefaultPlayer then StartFromBeginning
    else if partiallyWatched && !autoResume then AskResumeOrRestart
    else LaunchAsIs
  }

  /** The players launchPlayer tries, in order: the selected one, and only if
      that one is not found, "default", once. */
  function LaunchAttempts(filter: string, installed: set<string>): (players: seq<string>)
    ensures 1 <= |players| <= 2
    ensures players[0] == filter
    ensures |players| == 2 <==> filter !in installed
    ensures |players| == 2 ==> players[1] == DefaultPlayer
  {
    if filter in installed then [filter] else [filter, DefaultPlayer]
  }

  /** launchPlayer ends normally when its last attempt finds a player; the
      failure of the fallback attempt is not caught. */
  function LaunchOutcome(filter: string, installed: set<string>): (r: Outcome)
    ensures r == Completed <==> filter in installed || DefaultPlayer in installed
  {
    var players := LaunchAttempts(filter, installed);
    if players[|players| - 1] in installed then Completed else PlayerNotFound
  }

  /** The log entries of launching the given players one after the other. */
  function AttemptEvents(video: VideoContentInfo, offset: int, players: seq<string>, installed: set<string>): (es: seq<Event>)
    ensures |es| == |players|
    ensures forall i :: 0 <= i < |es| ==>
      es[i] == LaunchAttempt(players[i], video, offset, players[i] in installed)
  {
    if players == [] then []
    else [LaunchAttempt(players[0], video, offset, players[0] in installed)]
         + AttemptEvents(video, offset, players[1..], installed)
  }

  /** Everything one launchPlayer call logs for a video at the given offset. */
  function Launches(video: VideoContentInfo, offset: int, filter: string, installed: set<string>): seq<Event>
  {
    AttemptEvents(video, offset, LaunchAttempts(filter, installed), installed)
  }

  /** At most two attempts; the second is "default", only after the first one
      failed; the call fails exactly when the last attempt did. */
  lemma FallbackLaw(video: VideoContentInfo, offset: int, filter: string, installed: set<string>)
    ensures var es := Launches(video, offset, filter, installed);
      && 1 <= |es| <= 2
      && es[0] == LaunchAttempt(filter, video, offset, filter in installed)
      && (|es| == 2 <==> filter !in installed)
      && (|es| == 2 ==> es[1] == LaunchAttempt(DefaultPlayer, video, offset, DefaultPlayer in installed))
      && (LaunchOutcome(filter, installed) == Completed <==> es[|es| - 1].found)
  {
  }

  /** The effect of one launchExternalPlayer call on a video. */
  datatype ExternalStep = ExternalStep(offset: int, events: seq<Event>, prompted: bool, outcome: Outcome)

  /** launchExternalPlayer on a video whose offset is `offset`: either it shows
      the Resume/Restart prompt and launches nothing, or it launches at once,
      from the start when the queue still holds videos or "default" is
      selected, and from the unchanged offset otherwise. */
  function ExternalLaunch(video: VideoContentInfo, offset: int, partiallyWatched: bool, queueEmpty: bool,
                          filter: string, autoResume: bool, installed: set<string>): (e: ExternalStep)
    ensures e.offset == (if !queueEmpty || filter == DefaultPlayer then 0 else offset)
    ensures e.prompted <==> queueEmpty && filter != DefaultPlayer && partiallyWatched && !autoResume
    ensures e.prompted ==> e.events == [ResumePrompt(video, offset)] && e.outcome == Completed
    ensures !e.prompted ==>
      e.events == Launches(video, e.offset, filter, installed) && e.outcome == LaunchOutcome(filter, installed)
  {
    match ChooseRoute(queueEmpty, filter, partiallyWatched, autoResume)
    case StartFromBeginning =>
      ExternalStep(0, Launches(video, 0, filter, installed), false, LaunchOutcome(filter, installed))
    case AskResumeOrRestart =>
      ExternalStep(offset, [ResumePrompt(video, offset)], true, Completed)
    case LaunchAsIs =>
      ExternalStep(offset, Launches(video, offset, filter, installed), false, LaunchOutcome(filter, installed))
  }

  /** What a playAllFromQueue call takes from the queue: the video it hands to
      the external player, if any, and the queue it leaves behind. */
  datatype QueueTake = QueueTake(handed: Option<VideoContentInfo>, rest: seq<VideoContentInfo>)

  /** Only with both the external player and continuous playback on does
      playAllFromQueue touch the queue, and then it removes exactly the head. */
  function PlayAllPoll(queue: seq<VideoContentInfo>, prefs: Preferences): (p: QueueTake)
    ensures p.handed.Some? <==> queue != [] && prefs.ExternalPlayerOn() && prefs.ContinuousPlaybackOn()
    ensures p.handed.Some? ==> [p.handed.value] + p.rest == queue
    ensures p.handed.None? ==> p.rest == queue
  {
    if queue != [] && prefs.ExternalPlayerOn() && prefs.ContinuousPlaybackOn() then QueueTake(Some(queue[0]), queue[1..])
    else QueueTake(None, queue)
  }

  /** The videos handed to the external player by `calls` successive
      playAllFromQueue calls, and the queue left after them, when nothing
      else adds to the queue in between. */
  datatype Run = Run(handed: seq<VideoContentInfo>, rest: seq<VideoContentInfo>)

  function ContinuousRun(queue: seq<VideoContentInfo>, prefs: Preferences, calls: nat): Run
    decreases calls
  {
    if calls == 0 then Run([], queue)
    else
      var p := PlayAllPoll(queue, prefs);
      var later := ContinuousRun(p.rest, prefs, calls - 1);
      Run((if p.handed.Some? then [p.handed.value] else []) + later.handed, later.rest)
  }

  /** With continuous playback on, successive calls play the queue in FIFO
      order: after n calls the first n videos (or all, if fewer) have been
      handed over in queue order and the rest is still queued. */
  lemma {:induction false} ContinuousPlaybackIsFifo(queue: seq<VideoContentInfo>, prefs: Preferences, calls: nat)
    requires prefs.ExternalPlayerOn() && prefs.ContinuousPlaybackOn()
    ensures var n := if calls < |queue| then calls else |queue|;
      ContinuousRun(queue, prefs, calls) == Run(queue[..n], queue[n..])
  {
    if calls != 0 && queue != [] {
      ContinuousPlaybackIsFifo(queue[1..], prefs, calls - 1);
      var n := if calls < |queue| then calls else |queue|;
      assert queue[..n] == [queue[0]] + queue[1..][..n - 1];
      assert queue[n..] == queue[1..][n - 1..];
    } else if calls != 0 {
      ContinuousPlaybackIsFifo(queue, prefs, calls - 1);
    }
  }

  /** Without both settings on, no number of calls hands anything over or
      changes the queue. */
  lemma {:induction false} QueueUntouchedWithoutContinuation(queue: seq<VideoContentInfo>, prefs: Preferences, calls: nat)
    requires !(prefs.ExternalPlayerOn() && prefs.ContinuousPlaybackOn())
    ensures ContinuousRun(queue, prefs, calls) == Run([], queue)
  {
    if calls != 0 {
      QueueUntouchedWithoutContinuation(queue, prefs, calls - 1);
    }
  }
}

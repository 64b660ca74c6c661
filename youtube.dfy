/** The script injected into a YouTube popup window (youtube_inject.js):
    which video becomes the player, ad detection and the rate-limited ad skip,
    the one-shot auto Picture-in-Picture and the resize monitoring that
    follows the largest video. */
module YouTubeInject {
  import opened Wrappers
  import opened Layout
  import opened Videos

  /** The skip buttons, in the order they are tried. */
  const SkipButtonSelectors: seq<string> := [
    ".ytp-ad-skip-button.ytp-button",
    ".ytp-ad-skip-button-modern",
    ".ytp-ad-skip-button",
    ".ytp-skip-ad-button",
    "button.ytp-ad-skip-button",
    ".ytp-ad-overlay-close-button"]

  /** The minimum time between two skip actions, in milliseconds. */
  const SkipCooldown := 2000
  /** Ads at least this long, in seconds, are never seeked. */
  const LongestSeekableAd := 600.0

  /** A snapshot of the popup's page.
      - `videos`: every `<video>`, in document order;
      - `mainVideo`: the first `video.html5-main-video`;
      - `playerClasses`: the class list of `.html5-video-player`, if present;
      - `adModuleDisplay`: the inline `display` of `.ytp-ad-module`, if present;
      - `adTextVisible`: whether `.ytp-ad-text` has an offset parent, if present;
      - `skipButtons`: for each selector that matches, whether the first match
        has an offset parent;
      - `pipElement`: `document.pictureInPictureElement`, by video id;
      - `pipEnabled`: `document.pictureInPictureEnabled`. */
  datatype YtPage = YtPage(
    videos: seq<Video>,
    mainVideo: Option<Video>,
    playerClasses: Option<set<string>>,
    adModuleDisplay: Option<string>,
    adTextVisible: Option<bool>,
    skipButtons: map<string, bool>,
    pipElement: Option<nat>,
    pipEnabled: bool)

  /** `getPlayerVideo()`: the main player video, else the first video. */
  function PlayerVideo(page: YtPage): (r: Option<Video>)
    ensures page.mainVideo.Some? ==> r == page.mainVideo
    ensures page.mainVideo.None? ==> (r.None? <==> page.videos == [])
    ensures page.mainVideo.None? && r.Some? ==> r.value == page.videos[0]
  {
    if page.mainVideo.Some? then page.mainVideo
    else if |page.videos| > 0 then Some(page.videos[0])
    else None
  }

  /** `findLargestPlayingVideo()` as a video. */
  function LargestVideo(page: YtPage): (r: Option<Video>)
    ensures r.Some? ==> r.value in page.videos && Playable(r.value)
    ensures r.Some? ==> forall v :: v in page.videos && Playable(v) ==> Area(v) <= Area(r.value)
    ensures r.Some? ==> LargestPlaying(page.videos).Some? && r.value == page.videos[LargestPlaying(page.videos).value]
    ensures r.None? <==> forall v :: v in page.videos ==> !Playable(v)
  {
    var k := LargestPlaying(page.videos);
    if k.Some? then Some(page.videos[k.value]) else None
  }

  /** The player carries the `ad-showing` class. */
  predicate AdShowing(page: YtPage) {
    page.playerClasses.Some? && "ad-showing" in page.playerClasses.value
  }

  /** `isAdPlaying()`: the player exists and shows or interrupts with an ad,
      or the ad module is not hidden inline, or the ad text is visible. */
  predicate IsAdPlaying(page: YtPage) {
    page.playerClasses.Some?
    && ("ad-showing" in page.playerClasses.value || "ad-interrupting" in page.playerClasses.value
        || (page.adModuleDisplay.Some? && page.adModuleDisplay.value != "none")
        || page.adTextVisible == Some(true))
  }

  /** Without the player nothing counts as an ad, whatever else is on the page;
      with it, `ad-showing` alone is enough. */
  lemma AdNeedsPlayer(page: YtPage)
    ensures page.playerClasses.None? ==> !IsAdPlaying(page)
    ensures AdShowing(page) ==> IsAdPlaying(page)
    ensures page.playerClasses.Some? && page.adTextVisible == Some(true) ==> IsAdPlaying(page)
  {
  }

  /** The position of the first skip button that is present and visible. */
  function FirstVisibleButton(buttons: map<string, bool>, selectors: seq<string>): (r: Option<nat>)
    ensures r.Some? ==> r.value < |selectors| && selectors[r.value] in buttons && buttons[selectors[r.value]]
    ensures r.Some? ==> forall j :: 0 <= j < r.value ==> !(selectors[j] in buttons && buttons[selectors[j]])
    ensures r.None? <==> forall j :: 0 <= j < |selectors| ==> !(selectors[j] in buttons && buttons[selectors[j]])
    decreases |selectors|
  {
    if |selectors| == 0 then None
    else if selectors[0] in buttons && buttons[selectors[0]] then Some(0)
    else
      var rest := FirstVisibleButton(buttons, selectors[1..]);
      assert forall j :: 1 <= j < |selectors| ==> selectors[j] == selectors[1..][j - 1];
      if rest.None? then None else Some(rest.value + 1)
  }

  /** What one skip does: click a skip button, or seek the ad to near its end. */
  datatype SkipAction = Clicked(selector: string, at: int) | Seeked(videoId: nat, target: real, at: int)

  /** `Math.max(duration - 0.5, 0)`. */
  function SeekTarget(duration: real): (r: real)
    ensures r >= 0.0 && r >= duration - 0.5
    ensures r == 0.0 || r == duration - 0.5
    ensures duration > 0.0 ==> r < duration
  {
    if duration - 0.5 > 0.0 then duration - 0.5 else 0.0
  }

  function Abs(x: real): real {
    if x < 0.0 then -x else x
  }

  /** `skipAd(video)` at time `now` with the last skip at `last`: nothing
      within the cooldown; else the first visible skip button is clicked; else,
      during an ad with `ad-showing`, a finite ad shorter than 600 s is seeked
      to half a second before its end unless it is within a second of that. */
  function SkipDecision(page: YtPage, video: Video, now: int, last: int): (r: Option<SkipAction>)
    ensures r.Some? ==> now - last >= SkipCooldown && r.value.at == now
    ensures now - last >= SkipCooldown && FirstVisibleButton(page.skipButtons, SkipButtonSelectors).Some?
            ==> r == Some(Clicked(SkipButtonSelectors[FirstVisibleButton(page.skipButtons, SkipButtonSelectors).value], now))
    ensures r.Some? && r.value.Clicked? ==> FirstVisibleButton(page.skipButtons, SkipButtonSelectors).Some?
    ensures now - last >= SkipCooldown && FirstVisibleButton(page.skipButtons, SkipButtonSelectors).None?
            && IsAdPlaying(page) && AdShowing(page) && video.duration.Seconds?
            && 0.0 < video.duration.seconds < LongestSeekableAd
            && Abs(video.currentTime - SeekTarget(video.duration.seconds)) > 1.0
            ==> r == Some(Seeked(video.id, SeekTarget(video.duration.seconds), now))
    ensures r.Some? && r.value.Seeked? ==>
              FirstVisibleButton(page.skipButtons, SkipButtonSelectors).None? && IsAdPlaying(page) && AdShowing(page)
              && video.duration.Seconds? && 0.0 < video.duration.seconds < LongestSeekableAd
              && r.value.videoId == video.id && r.value.target == SeekTarget(video.duration.seconds)
              && 0.0 <= r.value.target < video.duration.seconds
              && Abs(video.currentTime - r.value.target) > 1.0
  {
    if now - last < SkipCooldown then None
    else
      var b := FirstVisibleButton(page.skipButtons, SkipButtonSelectors);
      if b.Some? then Some(Clicked(SkipButtonSelectors[b.value], now))
      else if !IsAdPlaying(page) then None
      else if AdShowing(page) && video.duration.Seconds? && video.duration.seconds > 0.0
              && video.duration.seconds < LongestSeekableAd then
        var target := SeekTarget(video.duration.seconds);
        if Abs(video.currentTime - target) > 1.0 then Some(Seeked(video.id, target, now)) else None
      else None
  }

  /** The skip actions taken so far, each at least the cooldown after the one
      before it. */
  predicate Spaced(log: seq<SkipAction>) {
    forall i :: 0 < i < |log| ==> log[i].at >= log[i - 1].at + SkipCooldown
  }

  /** Any two skip actions lie at least the cooldown apart per action between
      them. */
  lemma {:induction false} SpacedApart(log: seq<SkipAction>, i: nat, j: nat)
    requires Spaced(log) && i < j < |log|
    ensures log[j].at - log[i].at >= SkipCooldown * (j - i)
    decreases j - i
  {
    if i + 1 < j {
      SpacedApart(log, i, j - 1);
    }
  }

  /** The popup's state: the flags of the script, the dock, the volume it
      applies, the ad-skip clock, the resize monitor, the videos it marked with
      `__pip__`, the pending once-only listeners, the skip actions taken and
      the minimise requests sent. */
  class PopupPlayer {
    /** `chrome.runtime.sendMessage` exists. */
    const hasRuntime: bool

    var pipRequested: bool
    var autoPipAttempted: bool
    /** The video `tryAutoPip` is waiting on. */
    var autoPipPending: Option<Video>
    var dockPosition: string
    var dock: Option<DockAnchor>
    /** The video the dock's Picture-in-Picture button falls back to. */
    var buttonVideo: Option<Video>
    var pipVolume: real
    var lastAdSkipTime: int
    var isProcessingAd: bool
    /** The video the resize observer watches; `None` when there is none. */
    var monitoring: Option<nat>
    var pipMarks: set<nat>
    /** Videos with pending once-only `enterpictureinpicture` and
        `leavepictureinpicture` listeners. */
    var enterListeners: set<nat>
    var leaveListeners: set<nat>
    /** The videos whose controls are shown, the volume applied to each, and
        the videos the script unmuted. */
    var withControls: set<nat>
    var volumes: map<nat, real>
    var unmuted: set<nat>
    var skipLog: seq<SkipAction>
    var minimizeRequests: nat

    constructor(runtime: bool)
      ensures hasRuntime == runtime && !pipRequested && !autoPipAttempted && autoPipPending.None?
      ensures dockPosition == "bottom-right" && dock.None? && pipVolume == 0.8
      ensures lastAdSkipTime == 0 && !isProcessingAd && monitoring.None? && pipMarks == {}
      ensures skipLog == [] && minimizeRequests == 0 && volumes == map[] && unmuted == {}
      ensures Valid()
    {
      hasRuntime := runtime;
      pipRequested := false;
      autoPipAttempted := false;
      autoPipPending := None;
      dockPosition := "bottom-right";
      dock := None;
      buttonVideo := None;
      pipVolume := 0.8;
      lastAdSkipTime := 0;
      isProcessingAd := false;
      monitoring := None;
      pipMarks := {};
      enterListeners := {};
      leaveListeners := {};
      withControls := {};
      volumes := map[];
      unmuted := {};
      skipLog := [];
      minimizeRequests := 0;
    }

    /** The skip clock is the time of the last skip action, and skip actions
        are spaced by the cooldown; auto Picture-in-Picture is pending only
        after it was attempted. */
    ghost predicate Valid()
      reads this`skipLog, this`lastAdSkipTime, this`autoPipPending, this`autoPipAttempted
    {
      Spaced(skipLog)
      && lastAdSkipTime == (if skipLog == [] then 0 else skipLog[|skipLog| - 1].at)
      && (autoPipPending.Some? ==> autoPipAttempted)
    }

    /** `skipAd(video)`: the cooldown check, the ordered skip-button loop with
      its early return, then the seek fallback during an ad. */
    method SkipAd(page: YtPage, video: Video, now: int) returns (action: Option<SkipAction>)
      requires Valid()
      modifies this`lastAdSkipTime, this`skipLog
      ensures Valid()
      ensures action == SkipDecision(page, video, now, old(lastAdSkipTime))
      ensures skipLog == old(skipLog) + (if action.Some? then [action.value] else [])
    {
      if now - lastAdSkipTime < SkipCooldown {
        return None;
      }
      var k := 0;
      while k < |SkipButtonSelectors|
        invariant 0 <= k <= |SkipButtonSelectors|
        invariant forall j :: 0 <= j < k ==> !(SkipButtonSelectors[j] in page.skipButtons && page.skipButtons[SkipButtonSelectors[j]])
      {
        var selector := SkipButtonSelectors[k];
        if selector in page.skipButtons && page.skipButtons[selector] {
          action := Some(Clicked(selector, now));
          Record(action.value);
          return;
        }
        k := k + 1;
      }
      if !IsAdPlaying(page) {
        return None;
      }
      action := None;
      if AdShowing(page) && video.duration.Seconds? && video.duration.seconds > 0.0
         && video.duration.seconds < LongestSeekableAd {
        var target := SeekTarget(video.duration.seconds);
        if Abs(video.currentTime - target) > 1.0 {
          action := Some(Seeked(video.id, target, now));
          Record(action.value);
        }
      }
    }

    /** A skip action happened: the clock moves to its time. */
    method Record(action: SkipAction)
      requires Valid() && action.at - lastAdSkipTime >= SkipCooldown
      modifies this`lastAdSkipTime, this`skipLog
      ensures Valid() && skipLog == old(skipLog) + [action] && lastAdSkipTime == action.at
    {
      skipLog := skipLog + [action];
      lastAdSkipTime := action.at;
    }

    /** `autoSkipAds()`, run every 2000 ms: nothing while a manual skip holds
      the flag or without a player video; otherwise a skip, during an ad only. */
    method AutoSkipAds(page: YtPage, now: int) returns (action: Option<SkipAction>)
      requires Valid()
      modifies this`lastAdSkipTime, this`skipLog
      ensures Valid()
      ensures isProcessingAd || PlayerVideo(page).None? || !IsAdPlaying(page) ==> action.None? && skipLog == old(skipLog)
      ensures !isProcessingAd && PlayerVideo(page).Some? && IsAdPlaying(page)
              ==> action == SkipDecision(page, PlayerVideo(page).value, now, old(lastAdSkipTime))
      ensures skipLog == old(skipLog) + (if action.Some? then [action.value] else [])
    {
      if isProcessingAd {
        return None;
      }
      var video := PlayerVideo(page);
      if video.None? {
        return None;
      }
      if IsAdPlaying(page) {
        action := SkipAd(page, video.value, now);
      } else {
        action := None;
      }
    }

    /** The dock's skip button: with a player video, hold the flag (for 2000 ms,
      until `EndAdProcessing`) and skip, whether or not an ad is detected. */
    method SkipAdManually(page: YtPage, now: int) returns (action: Option<SkipAction>)
      requires Valid()
      modifies this`isProcessingAd, this`lastAdSkipTime, this`skipLog
      ensures Valid()
      ensures PlayerVideo(page).None? ==> action.None? && isProcessingAd == old(isProcessingAd) && skipLog == old(skipLog)
      ensures PlayerVideo(page).Some? ==>
                isProcessingAd && action == SkipDecision(page, PlayerVideo(page).value, now, old(lastAdSkipTime))
      ensures skipLog == old(skipLog) + (if action.Some? then [action.value] else [])
    {
      var video := PlayerVideo(page);
      if video.None? {
        return None;
      }
      isProcessingAd := true;
      action := SkipAd(page, video.value, now);
    }

    /** The timer `SkipAdManually` sets. */
    method EndAdProcessing()
      modifies this`isProcessingAd
      ensures !isProcessingAd
    {
      isProcessingAd := false;
    }

    /** The state `makePlayerPrimary()` leaves once it has chosen `v`, from
      the fields it had before: the flag follows the page, the controls are
      shown, the volume applied and the video unmuted when the volume lies in
      [0, 1], the dock and its fallback video kept or created, and auto
      Picture-in-Picture started when it was neither tried nor requested. */
    ghost predicate Primed(page: YtPage, v: Video, withControls0: set<nat>, volumes0: map<nat, real>,
                           unmuted0: set<nat>, dock0: Option<DockAnchor>, buttonVideo0: Option<Video>,
                           autoPipAttempted0: bool, autoPipPending0: Option<Video>)
      reads this`pipRequested, this`withControls, this`volumes, this`unmuted, this`dock, this`buttonVideo,
            this`autoPipAttempted, this`autoPipPending, this`pipVolume, this`dockPosition
    {
      var starts := !autoPipAttempted0 && page.pipElement != Some(v.id);
      pipRequested == (page.pipElement == Some(v.id))
      && withControls == withControls0 + {v.id}
      && volumes == (if 0.0 <= pipVolume <= 1.0 then volumes0[v.id := pipVolume] else volumes0)
      && unmuted == (if 0.0 <= pipVolume <= 1.0 then unmuted0 + {v.id} else unmuted0)
      && dock == (if dock0.Some? then dock0 else Some(DockAnchorFor(dockPosition)))
      && buttonVideo == (if buttonVideo0.Some? then buttonVideo0 else Some(v))
      && autoPipAttempted == (autoPipAttempted0 || starts)
      && autoPipPending == (if starts then Some(v) else autoPipPending0)
    }

    /** `makePlayerPrimary()`, run at start, on `readystatechange` to complete
      and on every DOM mutation: choose the largest playing video, else the
      player video; resynchronise `pipRequested` with the page; show its
      controls; apply the volume when it lies in [0, 1]; make sure the dock
      exists; and start auto Picture-in-Picture once. */
    method MakePlayerPrimary(page: YtPage)
      requires Valid()
      modifies this`pipRequested, this`withControls, this`volumes, this`unmuted, this`dock, this`buttonVideo,
               this`autoPipAttempted, this`autoPipPending
      ensures Valid()
      ensures old(autoPipAttempted) ==> autoPipAttempted && autoPipPending == old(autoPipPending)
      ensures var video := if LargestVideo(page).Some? then LargestVideo(page) else PlayerVideo(page);
        video.None? ==>
          pipRequested == old(pipRequested) && withControls == old(withControls) && volumes == old(volumes)
          && unmuted == old(unmuted) && dock == old(dock) && buttonVideo == old(buttonVideo)
          && autoPipAttempted == old(autoPipAttempted) && autoPipPending == old(autoPipPending)
      ensures var video := if LargestVideo(page).Some? then LargestVideo(page) else PlayerVideo(page);
        video.Some? ==> Primed(page, video.value, old(withControls), old(volumes), old(unmuted), old(dock),
                               old(buttonVideo), old(autoPipAttempted), old(autoPipPending))
    {
      var video := LargestVideo(page);
      if video.None? {
        video := PlayerVideo(page);
      }
      if video.Some? {
        PrimeVideo(page, video.value);
      }
    }

    /** The part of `makePlayerPrimary()` once a video is found: controls, the
      volume, the dock and the single automatic attempt. */
    method PrimeVideo(page: YtPage, v: Video)
      requires Valid()
      modifies this`pipRequested, this`withControls, this`volumes, this`unmuted, this`dock, this`buttonVideo,
               this`autoPipAttempted, this`autoPipPending
      ensures Valid()
      ensures Primed(page, v, old(withControls), old(volumes), old(unmuted), old(dock), old(buttonVideo),
                     old(autoPipAttempted), old(autoPipPending))
    {
      pipRequested := page.pipElement == Some(v.id);
      withControls := withControls + {v.id};
      ApplyVolume(v);
      AttachDock(v);
      assert Valid();
      ghost var shown := (withControls, volumes, unmuted, dock, buttonVideo);
      if !autoPipAttempted && !pipRequested {
        StartAutoPip(v);
      }
      assert (withControls, volumes, unmuted, dock, buttonVideo) == shown;
    }

    /** The volume setting of `makePlayerPrimary()`: a volume in [0, 1] is
      applied to the video and the video is unmuted; any other leaves both. */
    method ApplyVolume(v: Video)
      modifies this`volumes, this`unmuted
      ensures 0.0 <= pipVolume <= 1.0 ==> volumes == old(volumes)[v.id := pipVolume] && unmuted == old(unmuted) + {v.id}
      ensures !(0.0 <= pipVolume <= 1.0) ==> volumes == old(volumes) && unmuted == old(unmuted)
    {
      if 0.0 <= pipVolume <= 1.0 {
        volumes := volumes[v.id := pipVolume];
        unmuted := unmuted + {v.id};
      }
    }

    /** The start of `tryAutoPip(video)`: the attempt is marked made, so it is
      never repeated, and the video waits for its readiness. */
    method StartAutoPip(v: Video)
      requires Valid()
      modifies this`autoPipAttempted, this`autoPipPending
      ensures Valid()
      ensures autoPipAttempted && autoPipPending == Some(v)
    {
      autoPipAttempted := true;
      autoPipPending := Some(v);
    }

    /** `attachDock(video)`: create the dock in the current corner when it is
      missing; the buttons are created once, the first video kept as the
      fallback of the Picture-in-Picture button. */
    method AttachDock(v: Video)
      modifies this`dock, this`buttonVideo
      ensures dock == if old(dock).Some? then old(dock) else Some(DockAnchorFor(dockPosition))
      ensures buttonVideo == if old(buttonVideo).Some? then old(buttonVideo) else Some(v)
    {
      if dock.None? {
        dock := Some(DockAnchorFor(dockPosition));
      }
      if buttonVideo.None? {
        buttonVideo := Some(v);
      }
    }

    /** The end of `tryAutoPip`, once its waits are over (`request` is the
      browser's answer): only when no element is in Picture-in-Picture, and
      success marks the video, asks for the window to be minimised, starts the
      monitor and arms the leave listener. */
    method FinishAutoPip(page: YtPage, request: Outcome)
      requires Valid() && autoPipPending.Some?
      modifies this`autoPipPending, this`pipRequested, this`pipMarks, this`minimizeRequests, this`monitoring,
               this`leaveListeners
      ensures Valid() && autoPipPending.None?
      ensures var v := old(autoPipPending).value;
        if page.pipElement.None? && request.Ok? then
          pipRequested && pipMarks == old(pipMarks) + {v.id} && leaveListeners == old(leaveListeners) + {v.id}
          && minimizeRequests == old(minimizeRequests) + (if hasRuntime then 1 else 0)
          && monitoring == (if old(monitoring).Some? then old(monitoring) else Some(v.id))
        else
          pipRequested == old(pipRequested) && pipMarks == old(pipMarks) && leaveListeners == old(leaveListeners)
          && minimizeRequests == old(minimizeRequests) && monitoring == old(monitoring)
    {
      var v := autoPipPending.value;
      autoPipPending := None;
      if page.pipElement.Some? || request.Err? {
        return;
      }
      pipRequested := true;
      pipMarks := pipMarks + {v.id};
      RequestWindowMinimize();
      StartPipMonitoring(v.id);
      leaveListeners := leaveListeners + {v.id};
    }

    /** `requestPiP(video)`: nothing when Picture-in-Picture is already
      requested or active for this video, or disabled; otherwise mark the
      video and arm the enter and leave listeners. It does not itself ask the
      browser for Picture-in-Picture. */
    method RequestPiP(page: YtPage, v: Video)
      modifies this`pipMarks, this`enterListeners, this`leaveListeners
      ensures pipRequested || page.pipElement == Some(v.id) || !page.pipEnabled ==>
        pipMarks == old(pipMarks) && enterListeners == old(enterListeners) && leaveListeners == old(leaveListeners)
      ensures !(pipRequested || page.pipElement == Some(v.id) || !page.pipEnabled) ==>
        pipMarks == old(pipMarks) + {v.id} && enterListeners == old(enterListeners) + {v.id}
        && leaveListeners == old(leaveListeners) + {v.id}
    {
      if pipRequested || page.pipElement == Some(v.id) {
        return;
      }
      if !page.pipEnabled {
        return;
      }
      pipMarks := pipMarks + {v.id};
      enterListeners := enterListeners + {v.id};
      leaveListeners := leaveListeners + {v.id};
    }

    /** An `enterpictureinpicture` on video `id`: an armed listener sets the
      flag and the mark, asks for minimising and starts the monitor. */
    method OnEnterPictureInPicture(id: nat)
      modifies this`enterListeners, this`pipRequested, this`pipMarks, this`minimizeRequests, this`monitoring
      ensures id !in old(enterListeners) ==>
                enterListeners == old(enterListeners) && pipRequested == old(pipRequested)
                && pipMarks == old(pipMarks) && monitoring == old(monitoring) && minimizeRequests == old(minimizeRequests)
      ensures id in old(enterListeners) ==>
                enterListeners == old(enterListeners) - {id} && pipRequested
                && id in pipMarks && monitoring == (if old(monitoring).Some? then old(monitoring) else Some(id))
                && minimizeRequests == old(minimizeRequests) + (if hasRuntime then 1 else 0)
    {
      if id !in enterListeners {
        return;
      }
      enterListeners := enterListeners - {id};
      pipRequested := true;
      pipMarks := pipMarks + {id};
      RequestWindowMinimize();
      StartPipMonitoring(id);
    }

    /** A `leavepictureinpicture` on video `id`: an armed listener clears the
      flag and the mark and stops the monitor. */
    method OnLeavePictureInPicture(id: nat)
      modifies this`leaveListeners, this`pipRequested, this`pipMarks, this`monitoring
      ensures id !in old(leaveListeners) ==>
                leaveListeners == old(leaveListeners) && pipRequested == old(pipRequested)
                && pipMarks == old(pipMarks) && monitoring == old(monitoring)
      ensures id in old(leaveListeners) ==>
                leaveListeners == old(leaveListeners) - {id} && !pipRequested
                && pipMarks == old(pipMarks) - {id} && monitoring.None?
    {
      if id !in leaveListeners {
        return;
      }
      leaveListeners := leaveListeners - {id};
      pipRequested := false;
      pipMarks := pipMarks - {id};
      StopPipMonitoring();
    }

    /** `startPipMonitoring(video)`: a second start changes nothing. */
    method StartPipMonitoring(id: nat)
      modifies this`monitoring
      ensures monitoring == if old(monitoring).Some? then old(monitoring) else Some(id)
    {
      if monitoring.Some? {
        return;
      }
      monitoring := Some(id);
    }

    method StopPipMonitoring()
      modifies this`monitoring
      ensures monitoring.None?
    {
      monitoring := None;
    }

    /** The resize observer's callback `maybeUpdatePictureInPictureVideo`: stop
      when no video on the page carries the mark; otherwise move to the largest
      playing video when it is another one and not yet marked. */
    method MaybeUpdatePictureInPictureVideo(page: YtPage)
      requires monitoring.Some?
      modifies this`monitoring, this`pipMarks, this`enterListeners, this`leaveListeners
      ensures !MarkedOnPage(page, old(pipMarks)) ==>
        monitoring.None? && pipMarks == old(pipMarks) && enterListeners == old(enterListeners)
        && leaveListeners == old(leaveListeners)
      ensures MarkedOnPage(page, old(pipMarks)) && !SwitchesTo(page, old(pipMarks), old(monitoring).value) ==>
        monitoring == old(monitoring) && pipMarks == old(pipMarks) && enterListeners == old(enterListeners)
        && leaveListeners == old(leaveListeners)
      ensures MarkedOnPage(page, old(pipMarks)) && SwitchesTo(page, old(pipMarks), old(monitoring).value) ==>
        var id := LargestVideo(page).value.id;
        var armed := if pipRequested || page.pipElement == Some(id) || !page.pipEnabled then {} else {id};
        monitoring.None? && pipMarks == old(pipMarks) + armed && enterListeners == old(enterListeners) + armed
        && leaveListeners == old(leaveListeners) + armed
    {
      if !MarkedOnPage(page, pipMarks) {
        StopPipMonitoring();
        return;
      }
      var video := LargestVideo(page);
      if video.Some? && video.value.id != monitoring.value && video.value.id !in pipMarks {
        StopPipMonitoring();
        RequestPiP(page, video.value);
      }
    }

    /** `requestWindowMinimize()`: one `MINIMIZE_CHILL_WINDOW` request when the
      runtime exists. */
    method RequestWindowMinimize()
      modifies this`minimizeRequests
      ensures minimizeRequests == old(minimizeRequests) + (if hasRuntime then 1 else 0)
    {
      if hasRuntime {
        minimizeRequests := minimizeRequests + 1;
      }
    }

    /** The dock's Picture-in-Picture button: with the player video or the
      dock's fallback video, `togglePiP` (leave when an element is in
      Picture-in-Picture, else request it and minimise on success; errors are
      swallowed), then minimise once more. Returns whether it entered. */
    method OnPipButtonClick(page: YtPage, request: Outcome) returns (entered: bool)
      modifies this`minimizeRequests
      ensures var v := if PlayerVideo(page).Some? then PlayerVideo(page) else buttonVideo;
        entered == (v.Some? && page.pipElement.None? && request.Ok?)
        && minimizeRequests == old(minimizeRequests)
             + (if hasRuntime && v.Some? then (if entered then 2 else 1) else 0)
    {
      var v := PlayerVideo(page);
      if v.None? {
        v := buttonVideo;
      }
      entered := false;
      if v.None? {
        return;
      }
      if page.pipElement.None? && request.Ok? {
        entered := true;
        RequestWindowMinimize();
      }
      RequestWindowMinimize();
    }

    /** The runtime's `CHILL_MINI_MODE` message: a truthy position moves the
      dock (when it exists), a numeric volume sets the percentage to apply. */
    method OnMiniModeMessage(position: Option<string>, volume: Option<real>)
      modifies this`dockPosition, this`dock, this`pipVolume
      ensures position.Some? && position.value != "" ==>
        dockPosition == position.value && dock == (if old(dock).Some? then Some(DockAnchorFor(position.value)) else None)
      ensures !(position.Some? && position.value != "") ==> dockPosition == old(dockPosition) && dock == old(dock)
      ensures pipVolume == if volume.Some? then volume.value / 100.0 else old(pipVolume)
    {
      if position.Some? && position.value != "" {
        dockPosition := position.value;
        UpdateDockPosition();
      }
      if volume.Some? {
        pipVolume := volume.value / 100.0;
      }
    }

    /** `updateDockPosition()`: an existing dock moves to the corner the
      position names. */
    method UpdateDockPosition()
      modifies this`dock
      ensures dock == if old(dock).Some? then Some(DockAnchorFor(dockPosition)) else None
    {
      if dock.Some? {
        dock := Some(DockAnchorFor(dockPosition));
      }
    }
  }

  /** `document.querySelector("[__pip__]")` finds a video. */
  predicate MarkedOnPage(page: YtPage, marks: set<nat>) {
    exists i :: 0 <= i < |page.videos| && page.videos[i].id in marks
  }

  /** The monitor moves to another video. */
  predicate SwitchesTo(page: YtPage, marks: set<nat>, observed: nat) {
    LargestVideo(page).Some? && LargestVideo(page).value.id != observed && LargestVideo(page).value.id !in marks
  }

  /** The monitor never moves to the video it already watches nor to a marked
      one, and it moves only to the largest playing video. */
  lemma SwitchTargetIsNewLargest(page: YtPage, marks: set<nat>, observed: nat)
    requires SwitchesTo(page, marks, observed)
    ensures var v := LargestVideo(page).value;
      v.id != observed && v.id !in marks && v in page.videos && Playable(v)
      && forall w :: w in page.videos && Playable(w) ==> Area(w) <= Area(v)
  {
    var k := LargestPlaying(page.videos).value;
    forall w | w in page.videos && Playable(w) ensures Area(w) <= Area(page.videos[k]) {
      var i :| 0 <= i < |page.videos| && page.videos[i] == w;
    }
  }
}

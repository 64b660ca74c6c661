# Chill While Working — a Dafny model of the extension's core

Chill While Working is a browser extension. It plays a YouTube video (or a
video from another site) in a small, chrome-less popup window that sits in a
corner of the primary display. It keeps a "Chill List" of up to 30 recently
added videos, and it adds floating buttons to pages so a visitor can send
the current video to the popup or to the list.

This project models the extension's core in Dafny. Each part of the model
follows one script:

- **`background.dfy`** (module `Background`, for `background.js`). The
  service worker that owns the popup.
  - It checks and clamps the `OPEN_YOUTUBE` payload.
  - It places the window in the named corner of the primary display's work
    area.
  - It tags the URL with `ypip_ext=1` and closes the previous popup before
    creating the new one.
  - It then sets up the new tab: it waits for the load, names the window,
    injects CSS and JS, and sends the mini-mode notice. Failures in these
    steps are only warnings.
  - It answers `STOP_YOUTUBE`, `ADD_TO_HISTORY` and
    `MINIMIZE_CHILL_WINDOW`, and it maintains the history.
  - `PopupController` is the class holding the worker's mutable state: the
    tracked window id, the stored history, and the log of browser calls and
    warnings. The worker's plans are pure functions that the controller's
    methods are proved against.
- **`common.dfy`**. What several scripts share:
  - string helpers (`Strings`), including JavaScript's `trim`;
  - query parameters and the YouTube-link test (`Web`);
  - the history list and its update rule (`History`);
  - the corner names and dock anchors (`Layout`);
  - the page/bridge messages (`Messages`);
  - JavaScript truthiness and `||` (`Js`).
- **`videos.dfy`** (module `Videos`). The "largest playing video" search used
  by the YouTube popup script and the universal page script.
- **`universal_inject.dfy`** (module `UniversalInject`, for
  `universal_pip_inject.js`). The script injected into a non-YouTube popup:
  - the per-platform search configuration;
  - the ad and hidden-video filter;
  - the position-based video score and the pick of the first best survivor;
  - the retry loop;
  - the Picture-in-Picture activation with its seek guard;
  - the dock button.
- **`youtube.dfy`** (module `YouTubeInject`, for `youtube_inject.js`). The
  script injected into the YouTube popup:
  - choosing the player video;
  - the automatic Picture-in-Picture attempt;
  - the dock;
  - ad detection and the 2-second-spaced ad skipping;
  - the Picture-in-Picture listeners and the monitor that moves the mark to
    a new largest video.
- **`universal_pip.dfy`** (module `UniversalPip`, for `universal_pip.js`).
  The content script on every page:
  - platform detection;
  - the video-detail-page rules, including the URL regular expressions;
  - popup-window detection;
  - the guarded runtime messaging and user settings;
  - the floating "Chill PiP" and "Add to Chill List" buttons, and the
    throttled injection (`ButtonInjector`).
- **`bridge.dfy`** (module `ContentBridge`, for
  `universal_pip_content_bridge.js`). The bridge that relays the page's
  minimise request to the runtime and posts the result back.
- **`content_script.dfy`** (module `ContentScript`, for `content_script.js`).
  The "Add to Chill List" button on YouTube watch pages (`LaunchButton`).
- **`side_panel.dfy`** (module `SidePanel`, for `side_panel.js`). The side
  panel:
  - the settings form and its clamping;
  - the theme;
  - the autoplay-adjusted URL;
  - starting playback;
  - the rendered history list (`Panel`).

Browser services are outside the model. The model treats the Chrome APIs,
the DOM and timers as follows:

- What a browser call returns is a parameter. Examples are `HostScript` in
  `Background`, the `Outcome` of a Picture-in-Picture request, and a
  `Delivery` of a runtime message.
- The calls a script makes are recorded in a log field, or in the result of
  a plan function.
- The time is a `now` parameter.
- The parse of a URL is an `Option<Url>`. `None` stands for `new URL()`
  throwing.

## Model

| member | source | states |
|---|---|---|
| Wrappers.ErrorText | side_panel.js:128-130 | an alert shows the error's message when it is non-empty and the fallback otherwise, so it is never empty when the fallback is not |
| Web.GetParam | background.js:286-294 | a query parameter is found exactly when some parameter has that name, and the value found is that of the first such parameter |
| Web.DeleteParam | side_panel.js:293-308 | deleting a parameter keeps exactly the parameters with other names and never lengthens the list |
| Web.DeleteParamDistributes | side_panel.js:293-308 | deleting from a concatenation deletes from each part, so the kept parameters keep their order and number |
| Web.DeleteAbsentParam | side_panel.js:299-303 | deleting a parameter that is not there changes nothing |
| Web.DeleteParamIdempotent | side_panel.js:299-303 | deleting `autoplay` twice is the same as deleting it once |
| Web.DeleteParamHasNone | side_panel.js:299-303 | after the deletion no parameter of that name is left |
| Web.SetParam | background.js:289-290 | `searchParams.set` leaves exactly one parameter of that name, with the new value, and every other parameter unchanged |
| Web.YoutubeHostIgnoresWww | background.js:393-403 | the host test is the same with or without a leading `www.` |
| Web.IsYoutubeHost | background.js:399 | the host, lower-cased and without one leading `www.`, ends with `youtube.com` or `youtu.be`; a suffix test, so look-alike hosts pass |
| Web.IsValidYoutubeUrl | background.js:393-403 | a link is valid exactly when it is non-empty, parses, and has a YouTube host |
| Web.LookAlikeHostPasses | background.js:399 | the suffix test accepts a look-alike host such as `notyoutube.com` |
| History.RemoveUrl | background.js:349 | the filter keeps exactly the entries with another URL, in order |
| History.RemoveUrlDistributes | background.js:349 | filtering a concatenation filters each part |
| History.RemoveAbsentUrl | background.js:349 | filtering out a URL no entry has changes nothing |
| History.RemoveUrlKeepsDistinct | background.js:349 | filtering keeps the URLs distinct |
| History.UpdateHistory | background.js:337-351 | the new entry comes first, followed by the old entries without its URL, in order, and the list is cut to at most 30 entries |
| History.UpdateHistoryKeepsDistinct | background.js:337-351 | adding an entry keeps the history's URLs distinct |
| History.ReAddingKeepsLength | background.js:337-351 | re-adding the newest URL replaces the first entry and keeps the rest |
| History.NormalizeTitle | side_panel.js:209 | a row's title is the trimmed title when that is non-empty and "No Title" otherwise, so it is never empty and always trimmed |
| Strings.Trim | side_panel.js:209 | `String.prototype.trim`: white space goes from both ends; `TrimIsTrimmed` and `TrimIdempotent` prove the result trimmed and trimming idempotent |
| History.NormalizeTitleIdempotent | side_panel.js:209 | normalising a normalised title changes nothing |
| Layout.ParseCorner | background.js:222-242 | a position names exactly one corner; any other text counts as bottom-right |
| Layout.BottomRightSides | background.js:231-236 | "bottom-right" passes the `right`/`bottom` tests and fails the `left`/`top` tests |
| Layout.TopRightSides | background.js:231-236 | "top-right" passes the `right`/`top` tests and fails the `left`/`bottom` tests |
| Layout.BottomLeftSides | background.js:231-236 | "bottom-left" passes the `left`/`bottom` tests and fails the `right`/`top` tests |
| Layout.TopLeftSides | background.js:231-236 | "top-left" passes the `left`/`top` tests and fails the `right`/`bottom` tests |
| Layout.CornerNameSides | background.js:231-236 | each corner's name passes exactly the substring tests of its sides |
| Layout.DockAnchorOfCorner | universal_pip_inject.js:484-498 | the dock anchors to the bottom exactly for the bottom corners, and to the right exactly for the right corners |
| Layout.DockAnchorFor | universal_pip_inject.js:484-498 | a name containing "bottom" pins the bottom edge, else the top; one containing "right" pins the right edge, else the left |
| Videos.LargestPlaying | youtube_inject.js:47-62 | the pick is a playable video of largest area, and every earlier playable video is strictly smaller; there is none exactly when no video is playable |
| Videos.LargestPlayingUnique | youtube_inject.js:47-62 | the pick is the only index with that property |
| Videos.LargestPlayingIgnoresUnplayable | universal_pip.js:148-163 | adding a video that is not ready or bars Picture-in-Picture does not change the pick |
| Background.ClampNumber | background.js:198-203 | the result is within the bounds; a value within them is kept; a falsy or negative value gives the minimum; an infinite or larger value gives the maximum |
| Background.NormalizePayload | background.js:191-196 | a null payload is refused; a missing one gives the defaults; otherwise the width is clamped to 200..2000 and the height to 150..1500, falsy sizes take the defaults, and an absent position is bottom-right |
| Background.CalculatePosition | background.js:222-242 | the window goes 16 px in from the named sides, and is never left of or above the work area |
| Background.PlacementFollowsNameTests | background.js:231-236 | the placement follows the `left`/`top` substring tests on the position's name |
| Background.UnknownPositionIsBottomRight | background.js:222-242 | an unknown position is placed like bottom-right |
| Background.PlacementFitsSmallWindow | background.js:222-242 | a window that fits with both margins lies wholly within the work area, margins included |
| Background.WideWindowOverflows | background.js:228-241 | a window wider than the display is pinned to the left edge and overflows on the right |
| Background.OversizeTopLeftRequest | background.js:191-242 | a 3000 × 100 top-left request becomes 2000 × 150 and is placed at (16, 16) |
| Background.TagUrlForExtension | background.js:286-294 | a parseable URL gets `ypip_ext=1` and keeps its protocol, host, path and other parameters; an unparseable one is passed on unchanged |
| Background.FindPrimary | background.js:205-220 | the index found is that of the first display marked primary, and there is none exactly when no display is primary |
| Background.PrimaryBounds | background.js:131-135 | a display error and an empty display list are failures; otherwise the display used is the first primary one, or the first display when none is primary, and the bounds are its work area, else its bounds, else a failure |
| Background.ClosePlan | background.js:176-189 | only a tracked window is removed; one warning appears exactly when the removal fails for a reason other than the window being gone |
| Background.AfterClose | background.js:176-189 | after a close no window is tracked |
| Background.NotifiedPosition | background.js:314-324 | the mini-mode notice names the requested position, or bottom-right when it is empty |
| Background.InjectionPlan | background.js:150-155 | the new tab is waited for, then named, styled, scripted and notified, in that order; each failed step gives its own warning |
| Background.Warn | background.js:266-312 | a tolerated step warns exactly when it fails |
| Background.AfterCreate | background.js:138-156 | create comes first and is never repeated; a failed create changes nothing; a created window is tracked and its tab set up |
| Background.LaunchPlan | background.js:131-149 | the display query comes first and window creation second; the result is a success exactly when both succeed, and then the new window is tracked |
| Background.OpenWithoutUrlTouchesNothing | background.js:122-130 | a null payload or one without a URL is refused before any browser call |
| Background.OpenPlan | background.js:122-156 | no browser call is made exactly when the payload is refused or has no URL, and then nothing changes; a success tracks the created window |
| Background.OpenClosesBeforeCreating | background.js:122-157 | an open closes the tracked window before it queries the displays and creates the new window |
| Background.OpenSetsUpCreatedTab | background.js:148-156 | a successful open ends with the five set-up steps on the new tab |
| Background.FailedOpenForgetsOldWindow | background.js:122-157 | after a failed open no window is tracked |
| Background.ReplyFor | background.js:52-85 | the reply is ok exactly when the operation succeeded; otherwise it carries a non-empty error, the operation's own message when it has one |
| Background.Handled | background.js:52-85 | the dispatcher answers exactly `OPEN_YOUTUBE`, `STOP_YOUTUBE`, `ADD_TO_HISTORY` and `MINIMIZE_CHILL_WINDOW` |
| Background.PayloadUrl | background.js:65 | a missing payload gives an empty URL that does not parse |
| Background.NewEntry | background.js:337-351 | a new entry has the URL, the current time and a non-empty trimmed title |
| Background.PopupController.constructor | background.js:7-14 | the worker starts with no tracked window, the stored history and empty logs |
| Background.PopupController.OnWindowRemoved | background.js:26-30 | the tracked id is forgotten exactly when its window is removed |
| Background.PopupController.CloseActiveWindow | background.js:176-189 | the logs and the tracked id change as `ClosePlan` and `AfterClose` say |
| Background.PopupController.MinimizeActiveWindow | background.js:163-174 | only a tracked window is minimised; the call fails only when minimising fails for a reason other than the window being gone |
| Background.PopupController.TolerantStep | background.js:266-312 | a tolerated step is logged, and warns exactly when it fails |
| Background.PopupController.Launch | background.js:131-149 | querying the displays and creating the window change the state as `LaunchPlan` says |
| Background.PopupController.CreateAndSetUp | background.js:138-156 | the create call and what follows change the state as `AfterCreate` says |
| Background.PopupController.SetUpTab | background.js:150-155 | setting up the tab logs the calls and warnings of `InjectionPlan` |
| Background.PopupController.OpenYoutubeWindow | background.js:122-157 | an open changes the state as the open plan says |
| Background.PopupController.AddUrlToHistory | background.js:337-351 | a non-YouTube URL is refused untouched; a read failure changes nothing; otherwise the updated list is written and kept on success, and the URLs stay distinct |
| Background.PopupController.OnAddToHistory | background.js:64-75 | the reply is ok exactly when the link is valid and the read and write succeed; the calls are none, the read, or the read and write followed by the side panel after a successful save from a tab; the history changes only on success |
| Background.PopupController.Dispatch | background.js:52-85 | exactly the four known message types get a reply, and the others change nothing; each known type changes the tracked window, calls, warnings and history exactly as its handler's plan says, with no warnings from adding or minimising |
| UniversalInject.ConfigFor | universal_pip_inject.js:60-140 | unknown platforms get the generic configuration; every configuration ends with the bare `video` selector and has positive retry counts and delays |
| UniversalInject.PlatformOf | universal_pip_inject.js:19-23 | without popup metadata the script stops; an empty platform counts as "generic" |
| UniversalInject.PipVolumeOf | universal_pip_inject.js:39-42 | a numeric volume is taken as a percentage, and the default is 0.8 |
| UniversalInject.QueryAll | universal_pip_inject.js:175-201 | the bare `video` selector finds every video of the page |
| UniversalInject.ClosestDiv | universal_pip_inject.js:221 | `closest('div')` is the nearest `div` in the video's lineage, and there is none exactly when the lineage has no `div` |
| UniversalInject.AdvertisementIsRedundant | universal_pip_inject.js:234-241 | testing for "advertisement" adds nothing to testing for "ad" |
| UniversalInject.Survivors | universal_pip_inject.js:175-201 | filtering never adds candidates |
| UniversalInject.SurvivorsDistribute | universal_pip_inject.js:175-201 | filtering a concatenation filters each part, so the survivors keep their document order |
| UniversalInject.SurvivorsAreEligible | universal_pip_inject.js:175-201 | the survivors are exactly the loaded candidates that are neither ads nor hidden |
| UniversalInject.IsAdOrHidden | universal_pip_inject.js:204-245 | a candidate is skipped when styled invisible, smaller than 50 px either way, outside the viewport, inside a Facebook ad preview or a narrow Facebook container, or named with an ad word |
| UniversalInject.LevelBonus | universal_pip_inject.js:270-299 | one ancestor level adds between -500 and 1150 points |
| UniversalInject.BonusSumRange | universal_pip_inject.js:270-299 | the level bonuses add up to between -500 and 1150 points per level |
| UniversalInject.ScoredLevels | universal_pip_inject.js:270-299 | the score looks at the video and its first 19 ancestors, in order |
| UniversalInject.SourceOf | universal_pip_inject.js:316 | the source tested is `src` when it is non-empty and `currentSrc` otherwise |
| UniversalInject.PlayingAddsTwoHundred | universal_pip_inject.js:312-314 | a playing video scores 200 more than the same video paused |
| UniversalInject.LargerAreaScoresHigher | universal_pip_inject.js:251-252 | of two candidates that differ only in decoded size, the larger pixel area scores strictly higher |
| UniversalInject.BaseScore | universal_pip_inject.js:248-322 | the score terms outside the ancestor walk: pixel count over 1000, centring, the Facebook watch and video-id bonuses, 200 for playing, 100 for a Facebook source |
| UniversalInject.VideoScore | universal_pip_inject.js:248-322 | the score is the base terms plus the bonuses of the video and its first 19 ancestors; `VideoScoreRange` bounds it |
| UniversalInject.VideoScoreRange | universal_pip_inject.js:248-322 | the score stays within the level bonuses' range around the base score |
| UniversalInject.DeepAncestorsIgnored | universal_pip_inject.js:270-299 | outside Facebook, ancestors beyond the 19th never change the score |
| UniversalInject.Scores | universal_pip_inject.js:187-191 | the scores list holds each survivor's score, in order |
| UniversalInject.FirstMax | universal_pip_inject.js:187-197 | the pick has the highest score, and every earlier score is strictly lower |
| UniversalInject.FirstMaxOfOne | universal_pip_inject.js:187-197 | the scan starts with the first survivor |
| UniversalInject.FirstMaxExtend | universal_pip_inject.js:187-197 | a later survivor replaces the pick only with a strictly higher score |
| UniversalInject.Scan | universal_pip_inject.js:175-201 | a found video names one of the selectors |
| UniversalInject.ScanNoneIff | universal_pip_inject.js:175-201 | nothing is found exactly when no selector has survivors |
| UniversalInject.ScanPicksFirst | universal_pip_inject.js:175-201 | the video comes from the first selector with survivors, and is the first best-scored of them |
| UniversalInject.ScanStopsAtFirstSurvivor | universal_pip_inject.js:175-201 | the first selector with survivors decides the pick |
| UniversalInject.PickIsEligibleAndBest | universal_pip_inject.js:175-201 | the found video matched its selector, passed the filters and scores at least as high as every survivor |
| UniversalInject.ScanFindsReadyVideo | universal_pip_inject.js:178 | a found video always has data loaded |
| UniversalInject.FoundOn | universal_pip_inject.js:175-201 | what `findVideo` returns is loaded |
| UniversalInject.RetrySearchFindsFirst | universal_pip_inject.js:157-173 | the loop makes at most `maxRetries` scans, keeps the first video found, and gives up only after every scan found nothing |
| UniversalInject.RetrySearch | universal_pip_inject.js:157-173 | from scan `i` on, at most `maxRetries` scans are made, and a video kept is loaded and is the last scan's result |
| UniversalInject.CatchAllFindsEligibleVideo | universal_pip_inject.js:60-201 | when any video of the page passes the filters, some video is found |
| UniversalInject.PopupPage.constructor | universal_pip_inject.js:19-42 | the page starts with the metadata's platform, configuration and volume, a bottom-right dock position, and nothing found yet |
| UniversalInject.PopupPage.FindVideo | universal_pip_inject.js:175-201 | the loop over the selectors returns what `Scan` specifies, which is `FoundOn`, and a found video comes with one of the configured selectors |
| UniversalInject.PickBest | universal_pip_inject.js:187-197 | the scan returns the first best score, the head of the stably sorted list |
| UniversalInject.PopupPage.ScoreAll | universal_pip_inject.js:187-190 | each survivor's score, in order, as `VideoScore` defines it |
| UniversalInject.PopupPage.CalculateVideoScore | universal_pip_inject.js:248-322 | the method computes exactly `VideoScore`: size, centre, the ancestor walk and the Facebook, playing and source bonuses |
| UniversalInject.PopupPage.AncestorBonus | universal_pip_inject.js:270-299 | the walk adds the bonus of the video and of each ancestor while there is a parent and fewer than 20 levels are done, which is `BonusSum` of `ScoredLevels` |
| UniversalInject.PopupPage.FindVideoWithRetry | universal_pip_inject.js:157-173 | the retry loop keeps what the retry search finds, records one of the configured selectors with it, uses every retry when nothing is found, and waits the initial delay plus one retry delay per failed scan |
| UniversalInject.PopupPage.RetryScans | universal_pip_inject.js:157-173 | the scanning loop makes the scans `RetrySearch` specifies, names one of the configured selectors with a found video, and adds the retry delay after each miss |
| UniversalInject.PopupPage.ShowFoundVideo | universal_pip_inject.js:148-154 | with a video the dock is shown in the configured corner and the automatic attempt is scheduled unless it was already made; without one nothing changes |
| UniversalInject.PopupPage.Initialize | universal_pip_inject.js:145-155 | the video found is the retry search's, with one of the configured selectors recorded; without one every retry is used and the dock, flags and video state stay; with one the dock is shown, the video gets controls, sound and the volume, seek detection starts and the automatic attempt is scheduled |
| UniversalInject.PopupPage.PrepareVideoForPip | universal_pip_inject.js:350-362 | the video gets controls, is unmuted and takes the Picture-in-Picture volume when that lies in 0..1 |
| UniversalInject.PopupPage.TryAutoPipImmediate | universal_pip_inject.js:324-337 | the attempt runs once, and only with a video |
| UniversalInject.PopupPage.OnSeeking | universal_pip_inject.js:340-343 | with seek detection, seeking sets the flag and the time |
| UniversalInject.PopupPage.OnSeeked | universal_pip_inject.js:345-347 | with seek detection, a finished seek clears the flag |
| UniversalInject.PopupPage.MarkPictureInPicture | universal_pip_inject.js:370-389 | entering Picture-in-Picture marks the video and adds one leave listener and one volume guard |
| UniversalInject.PopupPage.ActivatePipNow | universal_pip_inject.js:364-407 | the activation waits 300 ms after a recent seek; success marks the video as the Picture-in-Picture element, adds one leave listener and one volume guard and posts "activated" then "minimize"; failure posts the error and changes nothing else |
| UniversalInject.PopupPage.OnPipButtonClick | universal_pip_inject.js:449-478 | without a video the click fails and nothing changes; otherwise the video gets controls, sound and a valid volume, and on success it becomes the Picture-in-Picture element with one more leave listener and volume guard, and the popup is minimised; on failure nothing else changes |
| UniversalInject.PopupPage.OnLeavePictureInPicture | universal_pip_inject.js:381-383 | leaving Picture-in-Picture clears the element; an armed leave listener fires once and clears the mark, which stays only when no listener was armed |
| UniversalInject.PopupPage.OnVolumeChange | universal_pip_inject.js:385-389 | a guard unmutes a muted video |
| UniversalInject.PopupPage.OnWindowMessage | universal_pip_inject.js:45-57 | only the window's own ready message sets the bridge flag |
| UniversalInject.SeekGuardDelay | universal_pip_inject.js:366-368 | the wait is 300 ms exactly while seeking or within 500 ms of a seek, and 0 otherwise |
| UniversalInject.DockIsBottomRight | universal_pip_inject.js:484-498 | the default dock anchors bottom-right |
| YouTubeInject.PlayerVideo | youtube_inject.js:130-133 | the player video is the main player's video, or else the page's first video |
| YouTubeInject.LargestVideo | youtube_inject.js:47-62 | the largest playing video is the page video `LargestPlaying` picks: playable, of maximal area among the playable ones, and there is none exactly when no video is playable |
| YouTubeInject.AdNeedsPlayer | youtube_inject.js:428-449 | there is no ad without a player; the ad classes or a visible ad badge mean an ad is playing |
| YouTubeInject.IsAdPlaying | youtube_inject.js:428-449 | an ad plays when the player exists and shows an ad class, the ad module is displayed, or the ad text is visible |
| YouTubeInject.FirstVisibleButton | youtube_inject.js:394-410 | the skip button clicked is the first visible one in selector order, and there is none exactly when none is visible |
| YouTubeInject.SeekTarget | youtube_inject.js:418-420 | the seek target is the larger of 0 and half a second before the end, so before the end of a positive duration |
| YouTubeInject.SkipDecision | youtube_inject.js:388-426 | nothing happens within 2 s of the last skip; a click happens exactly when a skip button is visible, on the first one; without one, a seek happens exactly for a short ad showing in the player whose position is over a second from the target |
| YouTubeInject.SpacedApart | youtube_inject.js:388-426 | any two skips are at least 2 s apart per skip between them |
| YouTubeInject.PopupPlayer.constructor | youtube_inject.js:35-44 | the script starts with no request, no dock, a bottom-right position, volume 0.8 and no skips |
| YouTubeInject.PopupPlayer.SkipAd | youtube_inject.js:388-426 | the skip follows `SkipDecision` and is logged |
| YouTubeInject.PopupPlayer.Record | youtube_inject.js:407-423 | a recorded skip keeps the log spaced |
| YouTubeInject.PopupPlayer.AutoSkipAds | youtube_inject.js:451-464 | the interval skips only while no manual skip is running and an ad plays in the player |
| YouTubeInject.PopupPlayer.SkipAdManually | youtube_inject.js:376-386 | the manual skip needs a player video, sets the processing flag and skips |
| YouTubeInject.PopupPlayer.EndAdProcessing | youtube_inject.js:383-385 | the timer clears the processing flag |
| YouTubeInject.PopupPlayer.MakePlayerPrimary | youtube_inject.js:93-120 | without any video nothing changes; otherwise the largest playing video (else the player video) is primed exactly as `Primed` states |
| YouTubeInject.PopupPlayer.PrimeVideo | youtube_inject.js:100-120 | every field it may change takes the value `Primed` gives: the flag follows the page, exactly this video is added to the controlled, volume-set and unmuted ones (the last two only for a volume in [0, 1]), the dock and its fallback video are kept or created, and the automatic attempt starts only if none was made and the video is not already in Picture-in-Picture |
| YouTubeInject.PopupPlayer.ApplyVolume | youtube_inject.js:103-107 | a volume in [0, 1] is applied and the video unmuted; any other value changes neither |
| YouTubeInject.PopupPlayer.StartAutoPip | youtube_inject.js:142-144 | the attempt is marked made and the video becomes the pending one |
| YouTubeInject.PopupPlayer.AttachDock | youtube_inject.js:209-254 | the dock is created once, anchored to the position, and remembers the first video |
| YouTubeInject.PopupPlayer.FinishAutoPip | youtube_inject.js:142-207 | a successful attempt marks exactly this video, arms its leave listener, minimises the popup and starts the monitor; otherwise only the pending attempt is cleared |
| YouTubeInject.PopupPlayer.RequestPiP | youtube_inject.js:300-326 | nothing happens when Picture-in-Picture is requested, active or disabled; otherwise the video is marked and the listeners armed |
| YouTubeInject.PopupPlayer.OnEnterPictureInPicture | youtube_inject.js:312-319 | an armed enter listener fires once, sets the flag and the mark, minimises and starts the monitor |
| YouTubeInject.PopupPlayer.OnLeavePictureInPicture | youtube_inject.js:321-325 | an armed leave listener fires once, clears the flag and the mark and stops the monitor |
| YouTubeInject.PopupPlayer.StartPipMonitoring | youtube_inject.js:328-336 | only one monitor runs at a time |
| YouTubeInject.PopupPlayer.StopPipMonitoring | youtube_inject.js:338-343 | stopping leaves no monitor |
| YouTubeInject.PopupPlayer.MaybeUpdatePictureInPictureVideo | youtube_inject.js:345-360 | the monitor stops without a marked video, and moves only to a new, unmarked largest video, whose mark and enter and leave listeners are then armed as `requestPiP` arms them; the listeners change in no other case |
| YouTubeInject.PopupPlayer.RequestWindowMinimize | youtube_inject.js:472-487 | a minimise request is sent exactly when the runtime is there |
| YouTubeInject.PopupPlayer.OnPipButtonClick | youtube_inject.js:213-224 | the dock button toggles Picture-in-Picture on the player or dock video, and minimises once more after a successful entry |
| YouTubeInject.PopupPlayer.OnMiniModeMessage | youtube_inject.js:64-74 | a non-empty position moves the dock, and a volume is read as a percentage |
| YouTubeInject.PopupPlayer.UpdateDockPosition | youtube_inject.js:256-280 | an existing dock moves to the named corner |
| YouTubeInject.SwitchTargetIsNewLargest | youtube_inject.js:345-360 | the monitor moves only to the largest playing video, never to the one it watches or to a marked one |
| UniversalPip.DetectPlatform | universal_pip.js:364-387 | the platform is the first one whose host substrings the host (without `www.`) contains, and generic otherwise |
| UniversalPip.NetflixIsNotYouTubeOrFacebook | universal_pip.js:367-373 | netflix.com contains neither the YouTube nor the Facebook substrings |
| UniversalPip.NetflixIsNotTikTokOrInstagram | universal_pip.js:374-378 | netflix.com contains neither the TikTok nor the Instagram substring |
| UniversalPip.NetflixCountsAsTwitter | universal_pip.js:379-381 | netflix.com is detected as Twitter, because it contains "x.com" |
| UniversalPip.YoutubeHostsAreYoutubePlatform | universal_pip.js:367-369 | every host the YouTube-link test accepts is detected as YouTube |
| UniversalPip.RunEnd | universal_pip.js:438-446 | a regex character-class run ends at the first character outside the class |
| UniversalPip.MatchesIsRegexMatch | universal_pip.js:438-446 | the scanning matcher finds only real matches of the pattern |
| UniversalPip.RegexMatchIsFound | universal_pip.js:438-446 | the scanning matcher finds every match of the pattern |
| UniversalPip.MatchesIsRegex | universal_pip.js:438-446 | the scanning matcher decides the pattern exactly |
| UniversalPip.IsVideoDetailPage | universal_pip.js:390-490 | a page is a video page exactly by its platform's rule: a YouTube watch, shorts or short link; the Facebook patterns; and for other sites a non-root path with a video |
| UniversalPip.DetailRulesPerPlatform | universal_pip.js:390-490 | each remaining platform's rule, as an if-and-only-if |
| UniversalPip.FacebookRules | universal_pip.js:432-442 | the Facebook video-link matcher is the regular expression, and a `/videos/` path also contains `/video` |
| UniversalPip.IsInPopupWindow | universal_pip.js:38-71 | the page is a popup exactly when the window has one of the two popup names, carries the popup metadata, has either popup marker in its URL, or passes the opener check |
| UniversalPip.BackgroundPopupsAreRecognised | universal_pip.js:38-71 | the window the worker opens is recognised as a popup whatever its name |
| UniversalPip.SendMessageToBackground | universal_pip.js:564-599 | an invalidated context, a missing runtime, a thrown call and `lastError` each give a failed reply with their own message; otherwise the background's reply is returned |
| UniversalPip.GetUserSettings | universal_pip.js:602-632 | the settings are the stored values where truthy and the defaults elsewhere, so they are always truthy |
| UniversalPip.SettingsKeepTruthyValues | universal_pip.js:602-632 | truthy stored settings are used as they are |
| UniversalPip.DataUrl | universal_pip.js:344-351 | the blob fallback is the first non-empty of `data-src`, `data-video-url` and `data-source`, in that order, and there is none exactly when all three are missing or empty |
| UniversalPip.ExtractVideoData | universal_pip.js:327-361 | the data keeps the page URL and title (or "Untitled Video") and the poster; the video URL is `currentSrc`, else `src`, else none, and a `blob:` source is replaced by its data URL when there is one |
| UniversalPip.CurrentOrSrc | universal_pip.js:337 | the video's source is `currentSrc` when it is non-empty and `src` otherwise |
| UniversalPip.ReplyError | universal_pip.js:203-204 | the reply's non-empty error is shown, else the fallback, so it is never empty when the fallback is not |
| UniversalPip.PipButtonClick | universal_pip.js:182-262 | the click saves first; a failed save stops it; then a YouTube page asks for the YouTube popup and any other page for the universal popup, with the settings |
| UniversalPip.FindLargestPlayingVideo | universal_pip.js:148-163 | the video `LargestPlaying` picks, none iff no video is playable |
| UniversalPip.AddButtonClick | universal_pip.js:285-320 | the click sends one `ADD_TO_HISTORY` carrying `extractVideoData()` of the page and its largest playing video, whose URL is the page's, and succeeds exactly when the reply is ok, else fails with the reply's error or "Failed to add" |
| UniversalPip.NonYoutubeAddNeverSucceeds | universal_pip.js:285-320 | off YouTube the page URL the button sends is not a YouTube link, so the background refuses it and the click always ends in its error |
| UniversalPip.NonYoutubePipNeverOpens | universal_pip.js:182-262 | on a page whose host is not a YouTube host the worker refuses the save, so no popup is ever requested |
| UniversalPip.ButtonInjector.constructor | universal_pip.js:6-14 | the script starts outside popup mode, enabled, with no buttons |
| UniversalPip.ButtonInjector.Initialize | universal_pip.js:74-145 | a popup never starts the injection; otherwise the stored flag (default enabled) decides |
| UniversalPip.ButtonInjector.RemoveButtons | universal_pip.js:536-546 | both buttons are removed |
| UniversalPip.ButtonInjector.CreatePipButton | universal_pip.js:166-174 | at most one PiP button, and none in a popup |
| UniversalPip.ButtonInjector.CreateAddButton | universal_pip.js:269-277 | at most one add button, and none in a popup |
| UniversalPip.ButtonInjector.InjectButtonsIfNeeded | universal_pip.js:493-533 | nothing in a popup; off a video page or when disabled the buttons go; otherwise a check runs at most every 2 s and shows both buttons exactly when a playing video exists |
| UniversalPip.ButtonInjector.OnRuntimeMessage | universal_pip.js:17-34 | a state change sets the flag and replies ok; switched off it removes the buttons and touches nothing else; switched on it runs the injection check, whose outcome `EnabledInjection` states case by case; other messages get no reply and change nothing |
| ContentBridge.RequestFor | universal_pip_content_bridge.js:7-19 | only the window's own minimise request is forwarded, and only with a runtime |
| ContentBridge.ResultFor | universal_pip_content_bridge.js:30-42 | the result fails exactly when `lastError` is set, and then carries its message |
| ContentBridge.Results | universal_pip_content_bridge.js:7-44 | every message posted back is a minimise result, at most one per event |
| ContentBridge.Posted | universal_pip_content_bridge.js:47-49 | the ready announcement comes first |
| ContentBridge.OneResultPerRequest | universal_pip_content_bridge.js:21-44 | one result per forwarded request, and none without a runtime |
| ContentBridge.ReadyAnnouncedOnce | universal_pip_content_bridge.js:47-49 | the ready announcement is posted exactly once |
| ContentBridge.ReplyOkIgnored | universal_pip_content_bridge.js:30-42 | a reply that says minimising failed is still reported as a success |
| ContentBridge.ForwardedRequestIsHandled | universal_pip_content_bridge.js:27-29 | the message the bridge sends is one the worker answers |
| ContentScript.IsExtensionWindow | content_script.js:66-79 | the extension's window is the forced one, the named one or the tagged one |
| ContentScript.IsWatchContext | content_script.js:81-91 | a short link, a watch, shorts or live path, or a main video makes a watch context |
| ContentScript.TaggedWindowsAreExtensionWindows | content_script.js:66-79 | every window the worker opens counts as the extension's window |
| ContentScript.LaunchButton.constructor | content_script.js:8-16 | the script starts with no button, none injected yet and nothing sent |
| ContentScript.LaunchButton.RemoveButton | content_script.js:59-64 | the button is removed |
| ContentScript.LaunchButton.EnsureButton | content_script.js:41-57 | no button in the extension's window or outside a watch context; one in a watch context once the page has a body, and a newly injected one is idle and reads "Add to Chill List" |
| ContentScript.LaunchButton.InjectButton | content_script.js:93-127 | with a body, one fresh element that is not busy and carries the default label; without one, nothing |
| ContentScript.LaunchButton.OnRuntimeMessage | content_script.js:18-23 | the mini-mode message sets the forced flag and removes the button |
| ContentScript.LaunchButton.AddCurrentPage | content_script.js:129-154 | the busy mark belongs to the button in the document: a busy button ignores clicks and with no button nothing happens; an invalid URL shows "Invalid"; otherwise the page URL is sent once |
| ContentScript.LaunchButton.AddSettled | content_script.js:143-177 | on the clicked button, if still in the document, the caption says "Added!" exactly when the save succeeded and the button is free again; a detached button's settle leaves the current one alone |
| ContentScript.LaunchButton.ResetLabel | content_script.js:156-161 | the caption of the button in the document returns to its text; a detached button's timer leaves it alone |
| SidePanel.ClampNumber | side_panel.js:322-327 | a number is clamped into the bounds and kept when within them; no number gives none |
| SidePanel.ClampAgreesWithBackground | side_panel.js:322-327 | the panel's clamp agrees with the worker's on every whole number |
| SidePanel.ReadSettings | side_panel.js:133-141 | the sizes are clamped or default, and the position is the checked one or bottom-right |
| SidePanel.ReadSettingsKeepsSavedSizes | side_panel.js:133-141 | reading back valid settings gives the same settings |
| SidePanel.NormalizeTheme | side_panel.js:153-158 | the theme is light exactly for the stored text "light" |
| SidePanel.ThemeRoundTrip | side_panel.js:160-170 | storing a theme's name and reading it back gives the same theme |
| SidePanel.BuildPlayableUrl | side_panel.js:293-308 | only an http(s) URL is playable; it gets `autoplay=1`, or loses `autoplay` without auto-next, and keeps its other parameters |
| SidePanel.PlayableUrlKeepsOtherParams | side_panel.js:293-308 | the playable URL differs from the input only in `autoplay` |
| SidePanel.Rejection | side_panel.js:261-275 | a request is rejected exactly when the reply is missing or not ok, or `lastError` is set; the reason is `lastError`'s message, else the reply's non-empty error, else "Request failed" |
| SidePanel.Panel.constructor | side_panel.js:1-36 | the panel starts with an empty list, the dark theme and nothing sent |
| SidePanel.Panel.RenderHistory | side_panel.js:201-258 | one row per entry, in order, with the normalised title; the empty note shows exactly when there are no entries |
| SidePanel.Panel.LoadHistory | side_panel.js:172-178 | the stored list (or none) is loaded and rendered: one normalised row per entry in order, the empty note exactly when there are none |
| SidePanel.Panel.OnStorageChanged | side_panel.js:38-44 | only a local change of the history reloads and renders the list, row by row as `RenderHistory` does; other changes leave list and rows |
| SidePanel.Panel.RemoveHistoryEntry | side_panel.js:196-199 | the entries with that URL go, the rest stay in order, and the list is stored and rendered row by row, with the empty note exactly when none is left |
| SidePanel.Panel.ApplyTheme | side_panel.js:166-170 | the normalised theme is applied and the toggle is checked exactly for the light theme |
| SidePanel.Panel.SetTheme | side_panel.js:160-164 | the normalised theme is stored and applied, the toggle checked exactly for light |
| SidePanel.Panel.OnThemeToggle | side_panel.js:101-104 | the toggle picks light or dark and stores it |
| SidePanel.Panel.StartPlayback | side_panel.js:106-131 | an invalid or non-http URL is alerted and nothing is sent; otherwise the popup is requested and, only on success, the typed URL is added; each failure is alerted |

## Left out

- The Chrome APIs are modelled as host outcomes. Each call's result is given in advance as a `HostScript` or an `Outcome`, so the model covers every combination of answers but not their timing.
- `waitForTabComplete` (background.js:244-264) is modelled as one logged call that returns. In the source it settles only when `chrome.tabs.get` fails, the tab is already complete, or an `onUpdated` event reports it complete; it has no time-out, so the set-up waits forever for a tab that never completes. The `onUpdated` subscription and that wait are not modelled.
- `resolveVideoTitle` (background.js:378-391) is not modelled. The oEmbed fetch becomes the host's title parameter, which is then trimmed and defaulted.
- URL parsing is outside the model. Every `new URL(...)` is given as an `Option<Url>` of protocol, host, path and parameter list.
- The regular-expression engine is outside the model. The regular expressions of `isVideoDetailPage` are matchers over strings (`RunEnd`, `Matches`), proved equal to the pattern they stand for.
- Times are not modelled. `Date.now()` becomes a `now` parameter; `toLocaleString` and `formatTimestamp` (side_panel.js:329-338) are not modelled.
- Timers, `MutationObserver`s, intervals and `sleep`s are not modelled. Each callback they run is a method the environment calls, and the delays are returned values.
- DOM construction, inline styles, `hideChrome` and `forceTheaterMode` in youtube_inject.js are not modelled, since they only change the page's look.
- `requestPictureInPicture` and `exitPictureInPicture` are not modelled. The browser's answer is an `Outcome` parameter.
- The context menus, the action click and `openSidePanel` (background.js:32-50, 87-120, 326-335) are not modelled, beyond the logged `OpenSidePanel` call after a successful add.
- `updateBadge` (universal_pip.js:549-561) is not modelled beyond the recorded enabled flag.
- The side panel's stop button (side_panel.js:277-291), its save-settings button and `applySettings` are not modelled. They only copy form values into storage.
- The console output of the content scripts, the page scripts and the side panel is not modelled. The worker's `console.warn` calls in the operations it models (background.js:184, 273, 282, 310, 322) become the `warnings` log of `Background.PopupController`.
- `ToLower` folds only ASCII letters; hosts are ASCII.
- In `getPlatformConfig`, the lookup of a platform name that is an `Object.prototype` key (such as "constructor") is not modelled. Such names are treated as unknown.
- The initial `removeFloatingButtons` of universal_pip_inject.js and the observers and start delay of `initialize` in universal_pip.js are not modelled.
- `OPEN_UNIVERSAL_POPUP` gets no reply from the worker: its dispatcher has no handler for that type. `Background.PopupController.Dispatch` states this, and `UniversalPip.PipButtonClick` takes the missing reply as a parameter.
- `bridgeReady` in universal_pip_inject.js is set but never read. The model keeps the flag and nothing depends on it.
- In youtube_inject.js, `requestPiP` never calls `requestPictureInPicture`. The model keeps that behaviour.
- The unused local `videoUrl` of `extractVideoData` is not modelled.
- `Background.InjectionPlan`: the `NotifyFailed` warning stands for a synchronous throw of `chrome.tabs.sendMessage` (background.js:314-324). Called without a callback, `sendMessage` returns a promise whose rejection escapes the `try`/`catch` and logs no warning; that case is not modelled separately.
- `SidePanel.Panel.StartPlayback`: a failed history add is alerted with the open fallback "Unable to open PiP window.", because one `catch` covers both requests. The model keeps that behaviour.
- `Background.PopupController.AddUrlToHistory`: the stored history is assumed to be read as a list. A malformed stored value, which the source replaces with an empty list, is not modelled.

/** The content script on ordinary pages (universal_pip.js): which platform a
    host belongs to, which pages show a single video, whether the page is one
    of the extension's own popups, the floating buttons and the messages they
    send. */
module UniversalPip {
  import opened Wrappers
  import opened Strings
  import opened Web
  import opened Videos
  import opened Messages
  import opened Js
  import Background

  // ---------------------------------------------------------------------
  // Platforms and pages

  datatype Platform = YouTube | Facebook | TikTok | Instagram | Twitter | Vimeo | Generic

  /** The platform's name in messages. */
  function PlatformName(p: Platform): string {
    match p
    case YouTube => "youtube"
    case Facebook => "facebook"
    case TikTok => "tiktok"
    case Instagram => "instagram"
    case Twitter => "twitter"
    case Vimeo => "vimeo"
    case Generic => "generic"
  }

  predicate YouTubeLike(h: string) { Contains(h, "youtube.com") || Contains(h, "youtu.be") }
  predicate FacebookLike(h: string) { Contains(h, "facebook.com") || Contains(h, "fb.com") }
  predicate TikTokLike(h: string) { Contains(h, "tiktok.com") }
  predicate InstagramLike(h: string) { Contains(h, "instagram.com") }
  predicate TwitterLike(h: string) { Contains(h, "twitter.com") || Contains(h, "x.com") }
  predicate VimeoLike(h: string) { Contains(h, "vimeo.com") }

  /** `detectPlatform()`: drop one leading "www.", then the first platform, in
      a fixed order, whose domain occurs anywhere in the host. */
  function DetectPlatform(hostname: string): (r: Platform)
    ensures var h := StripWww(hostname);
      (r == YouTube <==> YouTubeLike(h))
      && (r == Facebook <==> !YouTubeLike(h) && FacebookLike(h))
      && (r == TikTok <==> !YouTubeLike(h) && !FacebookLike(h) && TikTokLike(h))
      && (r == Instagram <==> !YouTubeLike(h) && !FacebookLike(h) && !TikTokLike(h) && InstagramLike(h))
      && (r == Twitter <==> !YouTubeLike(h) && !FacebookLike(h) && !TikTokLike(h) && !InstagramLike(h) && TwitterLike(h))
      && (r == Generic <==> !YouTubeLike(h) && !FacebookLike(h) && !TikTokLike(h) && !InstagramLike(h)
                            && !TwitterLike(h) && !VimeoLike(h))
  {
    var h := StripWww(hostname);
    if YouTubeLike(h) then YouTube
    else if FacebookLike(h) then Facebook
    else if TikTokLike(h) then TikTok
    else if InstagramLike(h) then Instagram
    else if TwitterLike(h) then Twitter
    else if VimeoLike(h) then Vimeo
    else Generic
  }

  /** "netflix.com" contains neither YouTube's nor Facebook's domains. */
  lemma NetflixIsNotYouTubeOrFacebook(h: string)
    requires h == "netflix.com"
    ensures !YouTubeLike(h) && !FacebookLike(h)
  {
    assert 'y' !in h && 'b' !in h;
    MissingCharNotContained(h, "youtube.com", 0);
    MissingCharNotContained(h, "youtu.be", 0);
    MissingCharNotContained(h, "facebook.com", 4);
    MissingCharNotContained(h, "fb.com", 1);
  }

  /** "netflix.com" contains neither TikTok's nor Instagram's domain. */
  lemma NetflixIsNotTikTokOrInstagram(h: string)
    requires h == "netflix.com"
    ensures !TikTokLike(h) && !InstagramLike(h)
  {
    assert 'k' !in h && 's' !in h;
    MissingCharNotContained(h, "tiktok.com", 2);
    MissingCharNotContained(h, "instagram.com", 2);
  }

  /** Matching by substring: any host containing "x.com" and none of the
      earlier domains counts as Twitter, "netflix.com" among them. */
  lemma NetflixCountsAsTwitter(h: string)
    requires h == "netflix.com"
    ensures DetectPlatform(h) == Twitter
  {
    assert StripWww(h) == h by {
      assert h[..4][0] != "www."[0];
    }
    NetflixIsNotYouTubeOrFacebook(h);
    NetflixIsNotTikTokOrInstagram(h);
    assert h[6..11] == "x.com";
    ContainsAt(h, "x.com", 6);
  }

  /** Lower-case letters are left alone by `ToLower`. */
  lemma ToLowerOfSlice(h: string, k: nat)
    requires ToLower(h) == h && k <= |h|
    ensures ToLower(h[k..]) == h[k..]
  {
    assert forall i :: 0 <= i < |h| - k ==> ToLower(h[k..])[i] == ToLower(h)[i + k];
  }

  /** On a lower-case host (browsers lower-case `location.hostname`), every
      host the background accepts as YouTube is detected as YouTube here; so a
      page of any other platform is refused when it asks to be saved. */
  lemma YoutubeHostsAreYoutubePlatform(hostname: string)
    requires ToLower(hostname) == hostname
    ensures IsYoutubeHost(hostname) ==> DetectPlatform(hostname) == YouTube
    ensures DetectPlatform(hostname) != YouTube ==> !IsYoutubeHost(hostname)
  {
    var h := StripWww(hostname);
    if StartsWith(hostname, "www.") {
      ToLowerOfSlice(hostname, 4);
    }
    assert ToLower(h) == h;
    if EndsWith(h, "youtube.com") {
      EndsWithContains(h, "youtube.com");
    }
    if EndsWith(h, "youtu.be") {
      EndsWithContains(h, "youtu.be");
    }
  }

  predicate IsDigit(c: char) { '0' <= c <= '9' }

  /** `\d` or, with `handle`, the class `[\w.-]`. */
  predicate InClass(c: char, handle: bool) {
    IsDigit(c) || (handle && (('a' <= c <= 'z') || ('A' <= c <= 'Z') || c == '_' || c == '.' || c == '-'))
  }

  /** The end of the run of class characters that starts at `i`. */
  function RunEnd(s: string, i: nat, handle: bool): (j: nat)
    requires i <= |s|
    ensures i <= j <= |s|
    ensures forall k :: i <= k < j ==> InClass(s[k], handle)
    ensures j < |s| ==> !InClass(s[j], handle)
    decreases |s| - i
  {
    if i < |s| && InClass(s[i], handle) then RunEnd(s, i + 1, handle) else i
  }

  /** A run of class characters from `i` ending just before a non-class
      character at `j` ends exactly there. */
  lemma {:induction false} RunEndStopsAt(s: string, i: nat, j: nat, handle: bool)
    requires i <= j < |s| && !InClass(s[j], handle)
    requires forall k :: i <= k < j ==> InClass(s[k], handle)
    ensures RunEnd(s, i, handle) == j
    decreases j - i
  {
    if i < j {
      RunEndStopsAt(s, i + 1, j, handle);
    }
  }

  /** The pattern `lead`, one or more class characters, `middle`, a digit,
      matched at `i` the way the regex engine finds it. */
  predicate MatchAt(s: string, i: nat, lead: char, handle: bool, middle: string) {
    i < |s| && s[i] == lead
    && var j := RunEnd(s, i + 1, handle);
    j > i + 1 && j + |middle| < |s| && s[j..j + |middle|] == middle && IsDigit(s[j + |middle|])
  }

  /** The regex occurs somewhere in `s`, scanning with the longest run. */
  predicate Matches(s: string, lead: char, handle: bool, middle: string) {
    exists i :: 0 <= i < |s| && MatchAt(s, i, lead, handle, middle)
  }

  /** The regex's own meaning: `lead` at `i`, class characters strictly
      between, `middle` at `j`, then a digit. */
  predicate MatchSpan(s: string, i: nat, j: nat, lead: char, handle: bool, middle: string) {
    i + 1 < j && j + |middle| < |s| && s[i] == lead
    && (forall k :: i + 1 <= k < j ==> InClass(s[k], handle))
    && s[j..j + |middle|] == middle && IsDigit(s[j + |middle|])
  }

  /** The regex occurs somewhere in `s`. */
  ghost predicate RegexMatch(s: string, lead: char, handle: bool, middle: string) {
    exists i: nat, j: nat :: MatchSpan(s, i, j, lead, handle, middle)
  }

  /** A match found by scanning is a match of the regex. */
  lemma MatchesIsRegexMatch(s: string, lead: char, handle: bool, middle: string)
    requires Matches(s, lead, handle, middle)
    ensures RegexMatch(s, lead, handle, middle)
  {
    var i :| 0 <= i < |s| && MatchAt(s, i, lead, handle, middle);
    var j := RunEnd(s, i + 1, handle);
    assert MatchSpan(s, i, j, lead, handle, middle);
  }

  /** A match of the regex is found by scanning when `middle` starts outside
      the class, because the run then stops exactly where `middle` begins. */
  lemma RegexMatchIsFound(s: string, lead: char, handle: bool, middle: string)
    requires |middle| > 0 && !InClass(middle[0], handle)
    requires RegexMatch(s, lead, handle, middle)
    ensures Matches(s, lead, handle, middle)
  {
    var i: nat, j: nat :| MatchSpan(s, i, j, lead, handle, middle);
    assert s[j] == s[j..j + |middle|][0] == middle[0];
    RunEndStopsAt(s, i + 1, j, handle);
    assert MatchAt(s, i, lead, handle, middle);
  }

  /** Scanning with the longest run finds exactly the regex's matches when
      `middle` starts outside the class. */
  lemma MatchesIsRegex(s: string, lead: char, handle: bool, middle: string)
    requires |middle| > 0 && !InClass(middle[0], handle)
    ensures Matches(s, lead, handle, middle) <==> RegexMatch(s, lead, handle, middle)
  {
    if Matches(s, lead, handle, middle) {
      MatchesIsRegexMatch(s, lead, handle, middle);
    }
    if RegexMatch(s, lead, handle, middle) {
      RegexMatchIsFound(s, lead, handle, middle);
    }
  }

  /** `/\/\d+\/videos\/\d+/` on the whole URL. */
  predicate FacebookVideoUrl(href: string) { Matches(href, '/', false, "/videos/") }

  /** `/@[\w.-]+\/video\/\d+/` on the path. */
  predicate TikTokVideoPath(path: string) { Matches(path, '@', true, "/video/") }

  /** `/^\/\d+/` on the path. */
  predicate VimeoNumericPath(path: string) { |path| >= 2 && path[0] == '/' && IsDigit(path[1]) }

  /** `isVideoDetailPage()`, from the URL, its host and path and whether the
      page has a `<video>`: per platform, the paths of a single video. */
  function IsVideoDetailPage(href: string, hostname: string, path: string, hasVideo: bool): (r: bool)
    ensures var h := StripWww(hostname);
      YouTubeLike(h) ==>
        (r <==> (Contains(h, "youtu.be") && path != "/")
                || (Contains(h, "youtube.com")
                    && (StartsWith(path, "/watch") || StartsWith(path, "/shorts/") || StartsWith(path, "/live/"))))
    ensures var h := StripWww(hostname);
      !YouTubeLike(h) && FacebookLike(h) ==>
        (r <==> Contains(path, "/watch") || Contains(path, "/reel") || Contains(path, "/video")
                || Contains(path, "/videos/") || Contains(path, "/permalink.php") || FacebookVideoUrl(href))
    ensures DetectPlatform(hostname) == Generic ==> (r <==> path != "/" && path != "" && hasVideo)
  {
    var h := StripWww(hostname);
    if YouTubeLike(h) then
      if Contains(h, "youtu.be") && path != "/" then true
      else if Contains(h, "youtube.com") then
        if StartsWith(path, "/watch") || StartsWith(path, "/shorts/") || StartsWith(path, "/live/") then true
        else if path == "/" || path == "/feed/trending" || path == "/feed/subscriptions" || path == "/feed/library"
                || path == "/feed/history" || StartsWith(path, "/channel/") || StartsWith(path, "/c/")
                || StartsWith(path, "/user/") || StartsWith(path, "/@") || StartsWith(path, "/results")
                || StartsWith(path, "/playlist") then false
        else false
      else false
    else if FacebookLike(h) then
      Contains(path, "/watch") || Contains(path, "/reel") || Contains(path, "/video") || Contains(path, "/videos/")
      || Contains(path, "/permalink.php") || FacebookVideoUrl(href)
    else if TikTokLike(h) then TikTokVideoPath(path)
    else if InstagramLike(h) then Contains(path, "/p/") || Contains(path, "/reel/") || Contains(path, "/tv/")
    else if TwitterLike(h) then Contains(path, "/status/")
    else if VimeoLike(h) then VimeoNumericPath(path) || Contains(path, "/video/")
    else if path == "/" || path == "" then false
    else hasVideo
  }

  /** The detail-page rules of the other platforms: TikTok needs the
      `@handle/video/digits` shape, Instagram a post, reel or TV path, Twitter a
      status, Vimeo a numeric first segment or a `/video/` segment; whether the
      page has a video matters only on generic sites. */
  lemma DetailRulesPerPlatform(href: string, hostname: string, path: string, hasVideo: bool)
    ensures var r := IsVideoDetailPage(href, hostname, path, hasVideo);
      (DetectPlatform(hostname) == TikTok ==> (r <==> RegexMatch(path, '@', true, "/video/")))
      && (DetectPlatform(hostname) == Instagram ==> (r <==> Contains(path, "/p/") || Contains(path, "/reel/") || Contains(path, "/tv/")))
      && (DetectPlatform(hostname) == Twitter ==> (r <==> Contains(path, "/status/")))
      && (DetectPlatform(hostname) == Vimeo ==> (r <==> VimeoNumericPath(path) || Contains(path, "/video/")))
      && (DetectPlatform(hostname) != Generic ==> r == IsVideoDetailPage(href, hostname, path, !hasVideo))
  {
    MatchesIsRegex(path, '@', true, "/video/");
  }

  /** The Facebook URL pattern is the regex `/\/\d+\/videos\/\d+/`, and a
      `/videos/` path is already caught by the `/video` test. */
  lemma FacebookRules(href: string, path: string)
    ensures FacebookVideoUrl(href) <==> RegexMatch(href, '/', false, "/videos/")
    ensures Contains(path, "/videos/") ==> Contains(path, "/video")
  {
    MatchesIsRegex(href, '/', false, "/videos/");
    if Contains(path, "/videos/") {
      ContainsPrefixOfPart(path, "/videos/", "/video");
    }
  }

  /** `window.opener`. */
  datatype Opener = NoOpener | OpenedBySelf | OpenedByOther

  const UniversalWindowName := "chill-universal-popup"

  /** `isInPopupWindow()`: a marker window name, the popup metadata, one of the
      two URL markers (`parsed` is `new URL(location.href)`, `None` when it
      throws), or an opener other than the window itself. */
  function IsInPopupWindow(windowName: string, hasChillPopup: bool, parsed: Option<Url>, opener: Opener): (r: bool)
    ensures r <==> windowName == Background.MiniWindowName || windowName == UniversalWindowName || hasChillPopup
                   || (parsed.Some? && (GetParam(parsed.value.params, Background.ExtensionMarker) == Some("1")
                                        || GetParam(parsed.value.params, "chill_popup") == Some("1")))
                   || opener == OpenedByOther
  {
    if windowName == "chill-mini-window" || windowName == "chill-universal-popup" then true
    else if hasChillPopup then true
    else if parsed.Some? && GetParam(parsed.value.params, "ypip_ext") == Some("1") then true
    else if parsed.Some? && GetParam(parsed.value.params, "chill_popup") == Some("1") then true
    else opener == OpenedByOther
  }

  /** A window the background opens with a tagged URL is recognised as a
      popup whatever its name, metadata and opener. */
  lemma BackgroundPopupsAreRecognised(raw: string, parsed: Option<Url>, windowName: string, hasChillPopup: bool,
                                      opener: Opener)
    requires parsed.Some?
    ensures IsInPopupWindow(windowName, hasChillPopup, Some(Background.TagUrlForExtension(raw, parsed).url), opener)
  {
  }

  // ---------------------------------------------------------------------
  // Messages to the background

  /** Whether the runtime can be reached: `chrome.runtime.id` and
      `chrome.runtime.sendMessage`. */
  datatype RuntimeContext = Invalidated | NoSendMessage | Reachable

  /** How a send ends: `lastError` with its message, a reply (`None` when it
      is `undefined`), or an exception from `sendMessage`. */
  datatype Delivery = LastError(message: string) | Replied(response: Option<Response>) | Threw

  /** `sendMessageToBackground(message)`: it always resolves; every failure
      becomes `{ok: false, error}` with its own text. */
  function SendMessageToBackground(context: RuntimeContext, delivery: Delivery): (r: Option<Response>)
    ensures context.Invalidated? ==> r == Some(Response(false, Some("Extension context invalidated. Please refresh the page.")))
    ensures context.NoSendMessage? ==> r == Some(Response(false, Some("Extension context unavailable")))
    ensures context.Reachable? && delivery.Replied? ==> r == delivery.response
    ensures context.Reachable? && delivery.Threw? ==> r == Some(Response(false, Some("Failed to communicate with extension")))
    ensures context.Reachable? && delivery.LastError? ==>
      r.Some? && !r.value.ok && r.value.error.Some?
      && (Contains(delivery.message, "Extension context invalidated") ==>
            r.value.error == Some("Extension was reloaded. Please refresh this page."))
      && ((!Contains(delivery.message, "Extension context invalidated")
           && Contains(delivery.message, "Receiving end does not exist")) ==>
            r.value.error == Some("Extension connection lost. Please refresh this page."))
      && ((!Contains(delivery.message, "Extension context invalidated")
           && !Contains(delivery.message, "Receiving end does not exist")) ==> r.value.error == Some(delivery.message))
    ensures !(context.Reachable? && delivery.Replied?) ==> r.Some? && !r.value.ok && r.value.error.Some?
  {
    match context
    case Invalidated => Some(Response(false, Some("Extension context invalidated. Please refresh the page.")))
    case NoSendMessage => Some(Response(false, Some("Extension context unavailable")))
    case Reachable =>
      match delivery
      case LastError(m) =>
        if Contains(m, "Extension context invalidated") then
          Some(Response(false, Some("Extension was reloaded. Please refresh this page.")))
        else if Contains(m, "Receiving end does not exist") then
          Some(Response(false, Some("Extension connection lost. Please refresh this page.")))
        else Some(Response(false, Some(m)))
      case Replied(response) => response
      case Threw => Some(Response(false, Some("Failed to communicate with extension")))
  }

  /** The popup size and corner the buttons ask for. */
  datatype Settings = Settings(width: JsValue, height: JsValue, position: JsValue)

  const DefaultSettings := Settings(Number(640.0), Number(360.0), Text("bottom-right"))

  /** `chrome.storage.sync` as `getUserSettings` finds it. */
  datatype SettingsStore = NoStorage | StorageError | Stored(width: JsValue, height: JsValue, position: JsValue)

  /** `getUserSettings()`: the defaults without storage or on an error, else
      each stored field unless it is falsy. */
  function GetUserSettings(store: SettingsStore): (r: Settings)
    ensures Truthy(r.width) && Truthy(r.height) && Truthy(r.position)
    ensures !store.Stored? ==> r == DefaultSettings
    ensures store.Stored? ==>
      (r.width == if Truthy(store.width) then store.width else Number(640.0))
      && (r.height == if Truthy(store.height) then store.height else Number(360.0))
      && (r.position == if Truthy(store.position) then store.position else Text("bottom-right"))
  {
    match store
    case Stored(w, h, p) => Settings(Or(w, Number(640.0)), Or(h, Number(360.0)), Or(p, Text("bottom-right")))
    case _ => DefaultSettings
  }

  /** Settings the user saved are kept as they are; reading them twice changes
      nothing. */
  lemma SettingsKeepTruthyValues(w: JsValue, h: JsValue, p: JsValue)
    requires Truthy(w) && Truthy(h) && Truthy(p)
    ensures GetUserSettings(Stored(w, h, p)) == Settings(w, h, p)
    ensures var s := GetUserSettings(Stored(w, h, p));
      GetUserSettings(Stored(s.width, s.height, s.position)) == s
  {
  }

  // ---------------------------------------------------------------------
  // Video data and the buttons' messages

  /** What the "Add to Chill List" button sends. */
  datatype VideoData = VideoData(url: string, videoUrl: Option<string>, title: string, thumbnail: Option<string>)

  /** `getAttribute(name)` of a data attribute: `None` when it is missing. */
  function Attribute(v: Video, name: string): Option<string> {
    if name in v.dataAttributes then Some(v.dataAttributes[name]) else None
  }

  /** An attribute that is present and not empty, so truthy. */
  predicate Filled(a: Option<string>) {
    a.Some? && a.value != ""
  }

  /** `data-src || data-video-url || data-source`: the first of the three that
      is present and non-empty. */
  function DataUrl(v: Video): (r: Option<string>)
    ensures r.Some? ==> r.value != ""
    ensures Filled(Attribute(v, "data-src")) ==> r == Attribute(v, "data-src")
    ensures !Filled(Attribute(v, "data-src")) && Filled(Attribute(v, "data-video-url")) ==>
              r == Attribute(v, "data-video-url")
    ensures !Filled(Attribute(v, "data-src")) && !Filled(Attribute(v, "data-video-url")) && Filled(Attribute(v, "data-source"))
            ==> r == Attribute(v, "data-source")
    ensures r.None? <==> !Filled(Attribute(v, "data-src")) && !Filled(Attribute(v, "data-video-url"))
                         && !Filled(Attribute(v, "data-source"))
  {
    var a := Attribute(v, "data-src");
    var b := Attribute(v, "data-video-url");
    var c := Attribute(v, "data-source");
    if a.Some? && a.value != "" then a
    else if b.Some? && b.value != "" then b
    else if c.Some? && c.value != "" then c
    else None
  }

  /** `video.currentSrc || video.src`, empty when both are. */
  function CurrentOrSrc(v: Video): (r: string)
    ensures v.currentSrc != "" ==> r == v.currentSrc
    ensures v.currentSrc == "" ==> r == v.src
  {
    if v.currentSrc != "" then v.currentSrc else v.src
  }

  /** `extractVideoData()` for the largest playing video (`video`): the page
      URL, the page title or "Untitled Video", the video's source (a `blob:`
      source replaced by its first data URL, when it has one) and its poster. */
  function ExtractVideoData(pageUrl: string, pageTitle: string, video: Option<Video>): (r: VideoData)
    ensures r.url == pageUrl
    ensures r.title == if pageTitle == "" then "Untitled Video" else pageTitle
    ensures video.None? ==> r.videoUrl.None? && r.thumbnail.None?
    ensures video.Some? ==> r.thumbnail == (if video.value.poster == "" then None else Some(video.value.poster))
    ensures video.Some? && video.value.currentSrc == "" && video.value.src == "" ==> r.videoUrl.None?
    ensures video.Some? && video.value.currentSrc != "" && !StartsWith(video.value.currentSrc, "blob:") ==>
              r.videoUrl == Some(video.value.currentSrc)
    ensures video.Some? && video.value.currentSrc == "" && video.value.src != "" && !StartsWith(video.value.src, "blob:") ==>
              r.videoUrl == Some(video.value.src)
    ensures video.Some? && StartsWith(CurrentOrSrc(video.value), "blob:") && DataUrl(video.value).Some? ==>
              r.videoUrl == DataUrl(video.value)
    ensures video.Some? && StartsWith(CurrentOrSrc(video.value), "blob:") && DataUrl(video.value).None? ==>
              r.videoUrl == Some(CurrentOrSrc(video.value))
    ensures r.videoUrl.Some? ==> r.videoUrl.value != "" && video.Some?
  {
    var title := if pageTitle == "" then "Untitled Video" else pageTitle;
    match video
    case None => VideoData(pageUrl, None, title, None)
    case Some(v) =>
      var src := CurrentOrSrc(v);
      var thumbnail := if v.poster == "" then None else Some(v.poster);
      var videoSrc :=
        if src == "" then None
        else if StartsWith(src, "blob:") && DataUrl(v).Some? then DataUrl(v)
        else Some(src);
      VideoData(pageUrl, videoSrc, title, thumbnail)
  }

  /** The messages the buttons send to the background. Both buttons send
      `ADD_TO_HISTORY`: the PiP button with `{url, title, platform}`, the add
      button with the extracted video data. */
  datatype Outbound =
    | AddToHistory(url: string, title: string, platform: string)
    | AddVideoToHistory(data: VideoData)
    | OpenYoutube(url: string, settings: Settings)
    | OpenUniversal(url: string, platform: string, settings: Settings)

  /** `response?.error || fallback`. */
  function ReplyError(reply: Option<Response>, fallback: string): (r: string)
    ensures reply.Some? && reply.value.error.Some? && reply.value.error.value != "" ==> r == reply.value.error.value
    ensures !(reply.Some? && reply.value.error.Some? && reply.value.error.value != "") ==> r == fallback
    ensures r != "" <== fallback != ""
  {
    if reply.Some? && reply.value.error.Some? then ErrorText(reply.value.error.value, fallback) else fallback
  }

  predicate ReplyOk(reply: Option<Response>) { reply.Some? && reply.value.ok }

  /** The "Chill PiP" button's click: save the page to the history first and
      stop on failure; then open it with the stored settings, as a YouTube
      popup or a universal one depending on the platform. `saveReply` and
      `openReply` are what the two sends resolve to. */
  function PipButtonClick(pageUrl: string, pageTitle: string, hostname: string, saveReply: Option<Response>,
                          store: SettingsStore, openReply: Option<Response>): (r: (seq<Outbound>, Outcome))
    ensures |r.0| >= 1 && r.0[0] == AddToHistory(pageUrl, pageTitle, PlatformName(DetectPlatform(hostname)))
    ensures !ReplyOk(saveReply) ==> r.0 == [r.0[0]] && r.1 == Err(ReplyError(saveReply, "Failed to save to history"))
    ensures ReplyOk(saveReply) ==> |r.0| == 2 && (r.1.Ok? <==> ReplyOk(openReply))
    ensures ReplyOk(saveReply) && DetectPlatform(hostname) == YouTube ==>
      r.0[1] == OpenYoutube(pageUrl, GetUserSettings(store))
    ensures ReplyOk(saveReply) && DetectPlatform(hostname) != YouTube ==>
      r.0[1] == OpenUniversal(pageUrl, PlatformName(DetectPlatform(hostname)), GetUserSettings(store))
  {
    var platform := DetectPlatform(hostname);
    var save := AddToHistory(pageUrl, pageTitle, PlatformName(platform));
    if !ReplyOk(saveReply) then ([save], Err(ReplyError(saveReply, "Failed to save to history")))
    else
      var settings := GetUserSettings(store);
      if platform == YouTube then
        ([save, OpenYoutube(pageUrl, settings)],
         if ReplyOk(openReply) then Ok else Err(ReplyError(openReply, "Failed to open YouTube popup")))
      else
        ([save, OpenUniversal(pageUrl, PlatformName(platform), settings)],
         if ReplyOk(openReply) then Ok else Err(ReplyError(openReply, "Failed to open popup")))
  }

  /** `findLargestPlayingVideo()` on the page's videos, in document order. */
  function FindLargestPlayingVideo(videos: seq<Video>): (r: Option<Video>)
    ensures r.None? <==> forall i :: 0 <= i < |videos| ==> !Playable(videos[i])
    ensures r.Some? ==> LargestPlaying(videos).Some? && r.value == videos[LargestPlaying(videos).value]
  {
    var i := LargestPlaying(videos);
    if i.Some? then Some(videos[i.value]) else None
  }

  /** The "Add to Chill List" button's click: extract the data of the page
      and its largest playing video, send it as `ADD_TO_HISTORY` and report
      the reply (`reply` is what the send resolves to). */
  function AddButtonClick(pageUrl: string, pageTitle: string, videos: seq<Video>, reply: Option<Response>)
    : (r: (seq<Outbound>, Outcome))
    ensures |r.0| == 1 && r.0[0].AddVideoToHistory?
    ensures r.0[0].data == ExtractVideoData(pageUrl, pageTitle, FindLargestPlayingVideo(videos))
    ensures r.0[0].data.url == pageUrl
    ensures r.1.Ok? <==> ReplyOk(reply)
    ensures r.1.Err? ==> r.1.message == ReplyError(reply, "Failed to add")
  {
    var data := ExtractVideoData(pageUrl, pageTitle, FindLargestPlayingVideo(videos));
    ([AddVideoToHistory(data)], if ReplyOk(reply) then Ok else Err(ReplyError(reply, "Failed to add")))
  }

  /** On a page of another platform, the save the PiP button starts with is
      refused by the background (which keeps YouTube links only), so no
      popup is ever opened from it: the universal-popup request is never sent. */
  lemma NonYoutubePipNeverOpens(pageUrl: string, parsed: Url, pageTitle: string, store: SettingsStore,
                                openReply: Option<Response>)
    requires ToLower(parsed.hostname) == parsed.hostname
    requires DetectPlatform(parsed.hostname) != YouTube
    ensures !IsValidYoutubeUrl(pageUrl, Some(parsed))
    ensures var saveReply := Some(Background.ReplyFor(Err("URL must be a YouTube link"), "Unable to add"));
      |PipButtonClick(pageUrl, pageTitle, parsed.hostname, saveReply, store, openReply).0| == 1
  {
    YoutubeHostsAreYoutubePlatform(parsed.hostname);
  }

  /** The add button's counterpart: the data it sends carries the page URL,
      which the background refuses off YouTube, so on every other platform
      the click ends in an error, with the background's message. */
  lemma {:induction false} NonYoutubeAddNeverSucceeds(pageUrl: string, parsed: Url, pageTitle: string,
                                                      videos: seq<Video>)
    requires ToLower(parsed.hostname) == parsed.hostname
    requires DetectPlatform(parsed.hostname) != YouTube
    ensures var reply := Some(Background.ReplyFor(Err("URL must be a YouTube link"), "Unable to add"));
      var (sent, outcome) := AddButtonClick(pageUrl, pageTitle, videos, reply);
      !IsValidYoutubeUrl(sent[0].data.url, Some(parsed)) && outcome == Err("URL must be a YouTube link")
  {
    YoutubeHostsAreYoutubePlatform(parsed.hostname);
  }

  // ---------------------------------------------------------------------
  // The floating buttons

  const ButtonCheckInterval := 2000

  /** The script's state: popup mode, the enabled switch, the throttle clock,
      how many elements carry each button id, and the badge updates sent. */
  class ButtonInjector {
    /** `chrome.runtime.id` exists, so badge updates are sent. */
    const runtimeValid: bool

    var isPopupMode: bool
    var extensionEnabled: bool
    var lastVideoCheck: int
    var pipButtons: nat
    var addButtons: nat
    var badgeUpdates: seq<bool>

    constructor(runtime: bool)
      ensures runtimeValid == runtime && !isPopupMode && extensionEnabled && lastVideoCheck == 0
      ensures pipButtons == 0 && addButtons == 0 && badgeUpdates == []
      ensures Valid()
    {
      runtimeValid := runtime;
      isPopupMode := false;
      extensionEnabled := true;
      lastVideoCheck := 0;
      pipButtons := 0;
      addButtons := 0;
      badgeUpdates := [];
    }

    /** At most one button of each id, and none in a popup. */
    ghost predicate Valid()
      reads this
    {
      pipButtons <= 1 && addButtons <= 1 && (isPopupMode ==> pipButtons == 0 && addButtons == 0)
    }

    /** `initialize()`: in a popup, remove the buttons and stop; otherwise
      the stored switch is on unless it is exactly `false`. Returns whether
      the injection starts. */
    method Initialize(inPopup: bool, storedEnabled: JsValue) returns (starts: bool)
      requires Valid()
      modifies this`isPopupMode, this`extensionEnabled, this`pipButtons, this`addButtons
      ensures Valid()
      ensures isPopupMode == inPopup
      ensures inPopup ==> !starts && extensionEnabled == old(extensionEnabled)
      ensures !inPopup ==> extensionEnabled == (storedEnabled != Bool(false)) && starts == extensionEnabled
                           && pipButtons == old(pipButtons) && addButtons == old(addButtons)
    {
      isPopupMode := inPopup;
      if inPopup {
        RemoveButtons();
        return false;
      }
      extensionEnabled := storedEnabled != Bool(false);
      return extensionEnabled;
    }

    /** `removeButtons()`: one element of each id, if any. */
    method RemoveButtons()
      modifies this`pipButtons, this`addButtons
      ensures pipButtons == if old(pipButtons) > 0 then old(pipButtons) - 1 else 0
      ensures addButtons == if old(addButtons) > 0 then old(addButtons) - 1 else 0
    {
      if pipButtons > 0 {
        pipButtons := pipButtons - 1;
      }
      if addButtons > 0 {
        addButtons := addButtons - 1;
      }
    }

    /** `createPipButton()`: never in a popup, never a second one. */
    method CreatePipButton()
      requires Valid()
      modifies this`pipButtons
      ensures Valid()
      ensures pipButtons == if isPopupMode || old(pipButtons) > 0 then old(pipButtons) else 1
    {
      if isPopupMode {
        return;
      }
      if pipButtons > 0 {
        return;
      }
      pipButtons := 1;
    }

    /** `createAddButton()`: never in a popup, never a second one. */
    method CreateAddButton()
      requires Valid()
      modifies this`addButtons
      ensures Valid()
      ensures addButtons == if isPopupMode || old(addButtons) > 0 then old(addButtons) else 1
    {
      if isPopupMode {
        return;
      }
      if addButtons > 0 {
        return;
      }
      addButtons := 1;
    }

    /** `injectButtonsIfNeeded()` at time `now`, on a page that is or is not a
      video detail page, whose largest playing video is `largest`. Returns
      whether the throttled check ran. */
    method InjectButtonsIfNeeded(isDetailPage: bool, now: int, largest: Option<Video>) returns (checked: bool)
      requires Valid()
      modifies this`pipButtons, this`addButtons, this`lastVideoCheck, this`badgeUpdates
      ensures Valid()
      ensures isPopupMode ==> !checked && pipButtons == old(pipButtons) && addButtons == old(addButtons)
                              && lastVideoCheck == old(lastVideoCheck)
      ensures !isPopupMode && (!extensionEnabled || !isDetailPage) ==>
        !checked && pipButtons == 0 && addButtons == 0 && lastVideoCheck == old(lastVideoCheck)
      ensures !isPopupMode && extensionEnabled && isDetailPage ==>
        (checked <==> now - old(lastVideoCheck) >= ButtonCheckInterval)
      ensures !checked ==> badgeUpdates == old(badgeUpdates)
      ensures checked ==>
        lastVideoCheck == now
        && badgeUpdates == old(badgeUpdates) + (if runtimeValid then [largest.Some?] else [])
        && (largest.None? ==> pipButtons == 0 && addButtons == 0)
        && (largest.Some? ==> pipButtons == 1 && addButtons == 1)
      ensures !isPopupMode && extensionEnabled && isDetailPage && !checked ==>
        pipButtons == old(pipButtons) && addButtons == old(addButtons) && lastVideoCheck == old(lastVideoCheck)
    {
      if isPopupMode {
        return false;
      }
      if !extensionEnabled {
        RemoveButtons();
        return false;
      }
      if !isDetailPage {
        RemoveButtons();
        return false;
      }
      if now - lastVideoCheck < ButtonCheckInterval {
        return false;
      }
      lastVideoCheck := now;
      if runtimeValid {
        badgeUpdates := badgeUpdates + [largest.Some?];
      }
      if largest.None? {
        RemoveButtons();
        return true;
      }
      CreatePipButton();
      CreateAddButton();
      return true;
    }

    /** The runtime listener: `EXTENSION_STATE_CHANGED` stores the switch's
      truthiness, removes the buttons when off or re-runs the injection when
      on, and replies `{ok: true}`; other messages get no reply. */
    method OnRuntimeMessage(kind: Option<string>, enabled: JsValue, isDetailPage: bool, now: int, largest: Option<Video>)
      returns (reply: Option<Response>)
      requires Valid()
      modifies this`extensionEnabled, this`pipButtons, this`addButtons, this`lastVideoCheck, this`badgeUpdates
      ensures Valid()
      ensures kind != Some("EXTENSION_STATE_CHANGED") ==>
        reply.None? && extensionEnabled == old(extensionEnabled) && pipButtons == old(pipButtons)
        && addButtons == old(addButtons) && lastVideoCheck == old(lastVideoCheck) && badgeUpdates == old(badgeUpdates)
      ensures kind == Some("EXTENSION_STATE_CHANGED") ==>
        reply == Some(Response(true, None)) && extensionEnabled == Truthy(enabled)
      ensures kind == Some("EXTENSION_STATE_CHANGED") && !Truthy(enabled) ==>
        pipButtons == (if old(pipButtons) > 0 then old(pipButtons) - 1 else 0)
        && addButtons == (if old(addButtons) > 0 then old(addButtons) - 1 else 0)
        && lastVideoCheck == old(lastVideoCheck) && badgeUpdates == old(badgeUpdates)
      ensures kind == Some("EXTENSION_STATE_CHANGED") && !Truthy(enabled) && !isPopupMode ==>
        pipButtons == 0 && addButtons == 0
      ensures kind == Some("EXTENSION_STATE_CHANGED") && Truthy(enabled) ==>
        EnabledInjection(isDetailPage, now, largest, old(pipButtons), old(addButtons), old(lastVideoCheck),
                         old(badgeUpdates))
    {
      if kind != Some("EXTENSION_STATE_CHANGED") {
        return None;
      }
      extensionEnabled := Truthy(enabled);
      if !extensionEnabled {
        RemoveButtons();
        assert !isPopupMode ==> pipButtons == 0 && addButtons == 0;
      } else {
        var _ := InjectButtonsIfNeeded(isDetailPage, now, largest);
      }
      return Some(Response(true, None));
    }

    /** The state `injectButtonsIfNeeded()` leaves with the switch on, from the
      given earlier button counts, check time and badge updates: nothing
      changes in a popup; off a detail page the buttons go; on one, a check
      that is due records its time, updates the badge and shows both buttons
      exactly when a video plays, and one that is not due changes nothing. */
    ghost predicate EnabledInjection(isDetailPage: bool, now: int, largest: Option<Video>, pip0: nat, add0: nat,
                                     check0: int, badge0: seq<bool>)
      reads this
    {
      if isPopupMode then
        pipButtons == pip0 && addButtons == add0 && lastVideoCheck == check0 && badgeUpdates == badge0
      else if !isDetailPage then
        pipButtons == 0 && addButtons == 0 && lastVideoCheck == check0 && badgeUpdates == badge0
      else if now - check0 < ButtonCheckInterval then
        pipButtons == pip0 && addButtons == add0 && lastVideoCheck == check0 && badgeUpdates == badge0
      else
        lastVideoCheck == now && badgeUpdates == badge0 + (if runtimeValid then [largest.Some?] else [])
        && pipButtons == (if largest.Some? then 1 else 0) && addButtons == pipButtons
    }
  }
}

/** The script injected into a popup opened for a non-YouTube site
    (universal_pip_inject.js): per-platform settings, choosing the main video
    of the page, and the one-shot Picture-in-Picture sequence. */
module UniversalInject {
  import opened Wrappers
  import opened Strings
  import opened Layout
  import opened Messages

  /** One row of `PLATFORM_CONFIG`; delays are in milliseconds. */
  datatype Config = Config(initialDelay: nat, retryDelay: nat, maxRetries: nat, selectors: seq<string>)

  const FacebookConfig := Config(1000, 600, 8, [
    "div[data-pagelet=\"Watch\"] video", "div[data-pagelet=\"WatchPermalinkVideo\"] video",
    "div[role=\"main\"] div[data-video-id] video", "video[data-video-id]",
    "div[aria-label*=\"video\" i] video", "div[aria-label*=\"Video\" i] video",
    "div[role=\"main\"] video", "div#watch_feed video", "video[src*=\"fbcdn\"]",
    "video[src*=\"facebook\"]", "video"])
  const TiktokConfig := Config(600, 400, 5, [
    "video.tiktok-video", "video[class*=\"BasicPlayer\"]", "div[data-e2e=\"video-player\"] video",
    "video[playsinline]", "video"])
  const InstagramConfig := Config(1000, 600, 5, [
    "video.x1lliihq", "article video", "div[role=\"dialog\"] video", "video"])
  const TwitterConfig := Config(600, 500, 5, [
    "div[data-testid=\"videoPlayer\"] video", "video[src*=\"video.twimg.com\"]",
    "video[src*=\"twitter.com\"]", "video"])
  const VimeoConfig := Config(500, 400, 4, [
    "video[data-vimeo-initialized]", "video.vp-video", "video"])
  const GenericConfig := Config(800, 600, 6, [
    "main video", "article video", "div[role=\"main\"] video", "div[class*=\"video\" i] video",
    "div[class*=\"player\" i] video", "div[id*=\"video\" i] video", "div[id*=\"player\" i] video", "video"])

  const CatchAll := "video"

  /** `PLATFORM_CONFIG[platform] || PLATFORM_CONFIG.generic`. */
  function ConfigFor(platform: string): (c: Config)
    ensures platform !in {"facebook", "tiktok", "instagram", "twitter", "vimeo"} ==> c == GenericConfig
    ensures |c.selectors| > 0 && c.selectors[|c.selectors| - 1] == CatchAll
    ensures c.maxRetries > 0 && c.initialDelay > 0 && c.retryDelay > 0
  {
    if platform == "facebook" then FacebookConfig
    else if platform == "tiktok" then TiktokConfig
    else if platform == "instagram" then InstagramConfig
    else if platform == "twitter" then TwitterConfig
    else if platform == "vimeo" then VimeoConfig
    else GenericConfig
  }

  /** `window.__chillPopup`, the metadata the popup opener leaves behind.
      `platform` is "" when missing; `volume` is `None` unless it is a number. */
  datatype PopupMeta = PopupMeta(platform: string, volume: Option<real>)

  /** The platform the script works for, or `None` when `__chillPopup` is
      missing and the script stops at once. */
  function PlatformOf(meta: Option<PopupMeta>): (r: Option<string>)
    ensures r.None? <==> meta.None?
    ensures r.Some? ==> r.value != ""
    ensures meta.Some? && meta.value.platform != "" ==> r == Some(meta.value.platform)
  {
    match meta
    case None => None
    case Some(m) => Some(if m.platform == "" then "generic" else m.platform)
  }

  /** The volume applied before Picture-in-Picture: the metadata's percentage
      divided by 100, 0.8 without one. */
  function PipVolumeOf(meta: PopupMeta): (r: real)
    ensures meta.volume.None? ==> r == 0.8
    ensures meta.volume.Some? ==> r * 100.0 == meta.volume.value
    ensures meta.volume.Some? && 0.0 <= meta.volume.value <= 100.0 ==> 0.0 <= r <= 1.0
  {
    if meta.volume.Some? then meta.volume.value / 100.0 else 0.8
  }

  /** One element of a video's lineage: the video itself or an ancestor.
      `pagelet` is its `data-pagelet` attribute; `adPreviewInside` says whether
      it has a `[data-ad-preview]` or `[data-ad-comet-preview]` descendant. */
  datatype Element = Element(tag: string, role: Option<string>, id: string, className: string,
                             pagelet: Option<string>, adPreviewInside: bool, offsetWidth: real)

  /** `getBoundingClientRect()`. */
  datatype BoxRect = BoxRect(left: real, top: real, width: real, height: real)

  /** A `<video>` element as the script sees it: identity, state, computed
      style, box, intrinsic size, attributes, itself and its ancestors from
      the nearest up to the root, and `centerScore`, the distance-from-centre
      term of its score. */
  datatype Candidate = Candidate(
    key: nat,
    readyState: int,
    disablePictureInPicture: bool,
    display: string,
    visibility: string,
    opacity: string,
    rect: BoxRect,
    videoWidth: nat,
    videoHeight: nat,
    centerScore: real,
    self: Element,
    ancestors: seq<Element>,
    hasVideoIdAttr: bool,
    paused: bool,
    src: string,
    currentSrc: string)

  /** A snapshot of the page: the viewport, every `<video>` in document order,
      and the matches of the other selectors. */
  datatype Page = Page(innerWidth: real, innerHeight: real, videos: seq<Candidate>,
                       matches: map<string, seq<Candidate>>)

  /** `document.querySelectorAll(selector)`. */
  function QueryAll(page: Page, selector: string): (r: seq<Candidate>)
    ensures selector == CatchAll ==> r == page.videos
  {
    if selector == CatchAll then page.videos
    else if selector in page.matches then page.matches[selector]
    else []
  }

  /** The video and its ancestors, nearest first: what `closest` walks. */
  function Lineage(c: Candidate): seq<Element> {
    [c.self] + c.ancestors
  }

  /** `video.closest('div')`. */
  function ClosestDiv(es: seq<Element>): (r: Option<Element>)
    ensures r.Some? ==> r.value in es && ToLower(r.value.tag) == "div"
    ensures r.Some? ==> exists i :: 0 <= i < |es| && es[i] == r.value
                                    && forall j :: 0 <= j < i ==> ToLower(es[j].tag) != "div"
    ensures r.None? ==> forall e :: e in es ==> ToLower(e.tag) != "div"
    decreases |es|
  {
    if |es| == 0 then None
    else if ToLower(es[0].tag) == "div" then Some(es[0])
    else
      var r := ClosestDiv(es[1..]);
      assert r.Some? ==> exists i :: 0 <= i < |es| && es[i] == r.value
                                     && forall j :: 0 <= j < i ==> ToLower(es[j].tag) != "div" by {
        if r.Some? {
          var i :| 0 <= i < |es[1..]| && es[1..][i] == r.value
                   && forall j :: 0 <= j < i ==> ToLower(es[1..][j].tag) != "div";
          assert es[i + 1] == r.value;
          forall j | 0 <= j < i + 1 ensures ToLower(es[j].tag) != "div" {
            if j > 0 { assert es[j] == es[1..][j - 1]; }
          }
        }
      }
      r
  }

  /** The four words `isAdOrHiddenVideo` looks for. */
  predicate HasAdWord(s: string) {
    Contains(s, "ad") || Contains(s, "advertisement") || Contains(s, "sponsor") || Contains(s, "promoted")
  }

  /** "advertisement" starts with "ad", so it never decides anything. */
  lemma AdvertisementIsRedundant(s: string)
    ensures HasAdWord(s) <==> Contains(s, "ad") || Contains(s, "sponsor") || Contains(s, "promoted")
  {
    if Contains(s, "advertisement") {
      ContainsPrefixOfPart(s, "advertisement", "ad");
    }
  }

  /** `isAdOrHiddenVideo`: hidden by style, smaller than 50 px either way,
      entirely out of the viewport, a Facebook video in an ad container or a
      narrow one, or an ad word in its class or id. */
  predicate IsAdOrHidden(page: Page, platform: string, c: Candidate) {
    var r := c.rect;
    c.display == "none" || c.visibility == "hidden" || c.opacity == "0"
    || r.width < 50.0 || r.height < 50.0
    || r.top + r.height < 0.0 || r.top > page.innerHeight || r.left + r.width < 0.0 || r.left > page.innerWidth
    || (platform == "facebook" && ClosestDiv(Lineage(c)).Some?
        && (ClosestDiv(Lineage(c)).value.adPreviewInside || ClosestDiv(Lineage(c)).value.offsetWidth < 300.0))
    || HasAdWord(ToLower(c.self.className)) || HasAdWord(ToLower(c.self.id))
  }

  /** The three filters of `findVideo`. */
  predicate Eligible(page: Page, platform: string, c: Candidate) {
    c.readyState > 0 && !c.disablePictureInPicture && !IsAdOrHidden(page, platform, c)
  }

  /** The matches of one selector that pass the filters, in document order. */
  function Survivors(page: Page, platform: string, cs: seq<Candidate>): (r: seq<Candidate>)
    ensures |r| <= |cs|
    decreases |cs|
  {
    if |cs| == 0 then []
    else (if Eligible(page, platform, cs[0]) then [cs[0]] else []) + Survivors(page, platform, cs[1..])
  }

  /** Filtering two runs of matches filters each and keeps their order; with
      `SurvivorsAreEligible` on a single match this pins the survivors. */
  lemma {:induction false} SurvivorsDistribute(page: Page, platform: string, a: seq<Candidate>, b: seq<Candidate>)
    ensures Survivors(page, platform, a + b) == Survivors(page, platform, a) + Survivors(page, platform, b)
    decreases |a|
  {
    if |a| > 0 {
      assert (a + b)[1..] == a[1..] + b;
      SurvivorsDistribute(page, platform, a[1..], b);
    } else {
      assert a + b == b;
    }
  }

  /** The filters keep exactly the eligible matches. */
  lemma {:induction false} SurvivorsAreEligible(page: Page, platform: string, cs: seq<Candidate>)
    ensures forall c :: c in Survivors(page, platform, cs) <==> c in cs && Eligible(page, platform, c)
    decreases |cs|
  {
    if |cs| > 0 {
      SurvivorsAreEligible(page, platform, cs[1..]);
      assert cs == [cs[0]] + cs[1..];
    }
  }

  /** The filtered matches of one selector. */
  function SurvivorsOf(page: Page, platform: string, selector: string): seq<Candidate> {
    Survivors(page, platform, QueryAll(page, selector))
  }

  /** The score one element of the lineage adds. */
  function LevelBonus(e: Element): (r: int)
    ensures -500 <= r <= 1150
  {
    var tag := ToLower(e.tag);
    var id := ToLower(e.id);
    var cls := ToLower(e.className);
    (if tag == "main" || e.role == Some("main") then 500 else 0)
    + (if tag == "article" then 300 else 0)
    + (if Contains(id, "main") || Contains(cls, "main") then 200 else 0)
    + (if Contains(id, "content") || Contains(cls, "content") then 150 else 0)
    - (if Contains(id, "sidebar") || Contains(cls, "sidebar") || Contains(id, "suggestion")
          || Contains(cls, "suggestion") || Contains(id, "related") || Contains(cls, "related") then 500 else 0)
  }

  /** The bonuses of the given elements, added up. */
  function BonusSum(es: seq<Element>): int
    decreases |es|
  {
    if |es| == 0 then 0 else BonusSum(es[..|es| - 1]) + LevelBonus(es[|es| - 1])
  }

  /** Every element adds between -500 and 1150. */
  lemma {:induction false} BonusSumRange(es: seq<Element>)
    ensures -500 * |es| <= BonusSum(es) <= 1150 * |es|
    decreases |es|
  {
    if |es| > 0 {
      BonusSumRange(es[..|es| - 1]);
    }
  }

  const MaxDepth := 20

  /** The elements the walk scores: each one that still has a parent, at most
      20, starting with the video itself; so at most 19 ancestors count. */
  function ScoredLevels(c: Candidate): (r: seq<Element>)
    ensures |r| <= MaxDepth && |r| <= |c.ancestors|
    ensures |r| == if |c.ancestors| < MaxDepth then |c.ancestors| else MaxDepth
    ensures |r| > 0 ==> r[0] == c.self && forall i :: 1 <= i < |r| ==> r[i] == c.ancestors[i - 1]
  {
    var n := if |c.ancestors| < MaxDepth then |c.ancestors| else MaxDepth;
    Lineage(c)[..n]
  }

  /** `closest('[data-pagelet*="Watch"], [data-pagelet*="Video"]')` finds something. */
  predicate InWatchPagelet(c: Candidate) {
    exists e :: e in Lineage(c) && e.pagelet.Some? && (Contains(e.pagelet.value, "Watch") || Contains(e.pagelet.value, "Video"))
  }

  /** `video.src || video.currentSrc || ''`. */
  function SourceOf(c: Candidate): (r: string)
    ensures c.src != "" ==> r == c.src
    ensures c.src == "" ==> r == c.currentSrc
  {
    if c.src != "" then c.src else c.currentSrc
  }

  /** The score a candidate gets apart from the walk over its lineage. */
  function BaseScore(platform: string, c: Candidate): real {
    (c.videoWidth * c.videoHeight) as real / 1000.0 + c.centerScore
    + (if platform == "facebook" && InWatchPagelet(c) then 1000.0 else 0.0)
    + (if platform == "facebook" && c.hasVideoIdAttr then 500.0 else 0.0)
    + (if !c.paused then 200.0 else 0.0)
    + (if Contains(SourceOf(c), "fbcdn") || Contains(SourceOf(c), "facebook") then 100.0 else 0.0)
  }

  /** `calculateVideoScore(video)`. */
  function VideoScore(platform: string, c: Candidate): real {
    BaseScore(platform, c) + BonusSum(ScoredLevels(c)) as real
  }

  /** Playing is worth exactly 200 points. */
  lemma PlayingAddsTwoHundred(platform: string, c: Candidate)
    ensures VideoScore(platform, c.(paused := false)) == VideoScore(platform, c.(paused := true)) + 200.0
  {
    assert ScoredLevels(c.(paused := false)) == ScoredLevels(c.(paused := true));
  }

  /** Of two candidates that differ only in their decoded size, the one
      with the larger pixel area scores strictly higher. */
  lemma LargerAreaScoresHigher(platform: string, c: Candidate, w: nat, h: nat)
    requires w * h > c.videoWidth * c.videoHeight
    ensures VideoScore(platform, c.(videoWidth := w, videoHeight := h)) > VideoScore(platform, c)
  {
    var d := c.(videoWidth := w, videoHeight := h);
    assert ScoredLevels(d) == ScoredLevels(c);
  }

  /** The score stays within the bounds the walk allows around the other terms. */
  lemma VideoScoreRange(platform: string, c: Candidate)
    ensures var base := BaseScore(platform, c);
      var n := |ScoredLevels(c)|;
      base - 500.0 * n as real <= VideoScore(platform, c) <= base + 1150.0 * n as real
      && n <= MaxDepth
  {
    BonusSumRange(ScoredLevels(c));
  }

  /** Outside Facebook, ancestors beyond the 19th never change the score. */
  lemma DeepAncestorsIgnored(platform: string, c: Candidate, more: seq<Element>)
    requires platform != "facebook"
    requires |c.ancestors| >= MaxDepth && |more| >= MaxDepth
    requires more[..MaxDepth - 1] == c.ancestors[..MaxDepth - 1]
    ensures VideoScore(platform, c.(ancestors := more)) == VideoScore(platform, c)
  {
    var d := c.(ancestors := more);
    assert ScoredLevels(d) == ScoredLevels(c) by {
      assert forall i :: 1 <= i < MaxDepth ==> ScoredLevels(d)[i] == ScoredLevels(c)[i];
    }
  }

  /** The scores of the survivors, in order. */
  function Scores(platform: string, cs: seq<Candidate>): (r: seq<real>)
    ensures |r| == |cs| && forall i :: 0 <= i < |cs| ==> r[i] == VideoScore(platform, cs[i])
  {
    seq(|cs|, i requires 0 <= i < |cs| => VideoScore(platform, cs[i]))
  }

  /** What a stable sort by decreasing score puts first: the earliest of the
      highest scores. */
  function FirstMax(xs: seq<real>): (r: nat)
    requires |xs| > 0
    ensures r < |xs|
    ensures forall i :: 0 <= i < |xs| ==> xs[i] <= xs[r]
    ensures forall i :: 0 <= i < r ==> xs[i] < xs[r]
    decreases |xs|
  {
    if |xs| == 1 then 0
    else
      var init := xs[..|xs| - 1];
      var b := FirstMax(init);
      assert forall i :: 0 <= i < |init| ==> init[i] == xs[i];
      if xs[|xs| - 1] > xs[b] then |xs| - 1 else b
  }

  lemma FirstMaxOfOne(xs: seq<real>)
    requires |xs| > 0
    ensures FirstMax(xs[..1]) == 0
  {
  }

  /** Looking at one more score moves the choice only to a strictly higher one. */
  lemma FirstMaxExtend(xs: seq<real>, i: nat)
    requires 0 < i < |xs|
    ensures FirstMax(xs[..i + 1]) == if xs[i] > xs[FirstMax(xs[..i])] then i else FirstMax(xs[..i])
  {
    assert xs[..i + 1][..i] == xs[..i];
  }

  /** The `sort` step of `findVideo`: the head of the survivors sorted by
      decreasing score. The sort is stable, so this is the first best score,
      found by a scan that moves only to a strictly higher score. */
  method PickBest(scores: seq<real>) returns (best: nat)
    requires scores != []
    ensures best == FirstMax(scores)
  {
    best := 0;
    FirstMaxOfOne(scores);
    var i := 1;
    while i < |scores|
      invariant 1 <= i <= |scores|
      invariant best == FirstMax(scores[..i])
    {
      FirstMaxExtend(scores, i);
      if scores[i] > scores[best] {
        best := i;
      }
      i := i + 1;
    }
    assert scores[..i] == scores;
  }

  /** The selector scan's answer: the video and the position of the selector
      that found it. */
  datatype Pick = Pick(video: Candidate, selectorIndex: nat)

  /** `findVideo` over `selectors`: the first selector whose filtered matches
      are not empty decides, and its best-scored survivor is returned. */
  function Scan(page: Page, platform: string, selectors: seq<string>): (r: Option<Pick>)
    ensures r.Some? ==> r.value.selectorIndex < |selectors|
    decreases |selectors|
  {
    if |selectors| == 0 then None
    else
      var s := SurvivorsOf(page, platform, selectors[0]);
      if s != [] then Some(Pick(s[FirstMax(Scores(platform, s))], 0))
      else
        var rest := Scan(page, platform, selectors[1..]);
        if rest.None? then None else Some(Pick(rest.value.video, rest.value.selectorIndex + 1))
  }

  /** The scan finds nothing exactly when every selector is left without
      survivors. */
  lemma {:induction false} ScanNoneIff(page: Page, platform: string, selectors: seq<string>)
    ensures Scan(page, platform, selectors).None?
            <==> forall k :: 0 <= k < |selectors| ==> SurvivorsOf(page, platform, selectors[k]) == []
    decreases |selectors|
  {
    if |selectors| > 0 && SurvivorsOf(page, platform, selectors[0]) == [] {
      ScanNoneIff(page, platform, selectors[1..]);
      assert forall k :: 1 <= k < |selectors| ==> selectors[k] == selectors[1..][k - 1];
    }
  }

  /** When the scan finds a video, every earlier selector had no survivors,
      and the video is the first best-scored survivor of its selector. */
  lemma {:induction false} ScanPicksFirst(page: Page, platform: string, selectors: seq<string>)
    requires Scan(page, platform, selectors).Some?
    ensures var p := Scan(page, platform, selectors).value;
      var s := SurvivorsOf(page, platform, selectors[p.selectorIndex]);
      (forall k :: 0 <= k < p.selectorIndex ==> SurvivorsOf(page, platform, selectors[k]) == [])
      && s != [] && p.video == s[FirstMax(Scores(platform, s))]
    decreases |selectors|
  {
    if SurvivorsOf(page, platform, selectors[0]) == [] {
      var tail := selectors[1..];
      ScanPicksFirst(page, platform, tail);
      var rest := Scan(page, platform, tail).value;
      assert Scan(page, platform, selectors).value == Pick(rest.video, rest.selectorIndex + 1);
      assert selectors[rest.selectorIndex + 1] == tail[rest.selectorIndex];
      forall k | 1 <= k < rest.selectorIndex + 1
        ensures SurvivorsOf(page, platform, selectors[k]) == []
      {
        assert selectors[k] == tail[k - 1];
      }
    }
  }

  /** The scan stops at the first selector with survivors. */
  lemma ScanStopsAtFirstSurvivor(page: Page, platform: string, selectors: seq<string>, k: nat)
    requires k < |selectors|
    requires forall j :: 0 <= j < k ==> SurvivorsOf(page, platform, selectors[j]) == []
    requires SurvivorsOf(page, platform, selectors[k]) != []
    ensures var s := SurvivorsOf(page, platform, selectors[k]);
      Scan(page, platform, selectors) == Some(Pick(s[FirstMax(Scores(platform, s))], k))
  {
    ScanNoneIff(page, platform, selectors);
    ScanPicksFirst(page, platform, selectors);
    var p := Scan(page, platform, selectors).value;
    assert SurvivorsOf(page, platform, selectors[p.selectorIndex]) != [];
    assert p.selectorIndex == k;
  }

  /** A found video passed every filter, scores at least as high as every
      survivor of its selector and higher than the ones before it. */
  lemma PickIsEligibleAndBest(page: Page, platform: string, selectors: seq<string>)
    requires Scan(page, platform, selectors).Some?
    ensures var p := Scan(page, platform, selectors).value;
      var s := SurvivorsOf(page, platform, selectors[p.selectorIndex]);
      Eligible(page, platform, p.video) && p.video.readyState >= 1 && p.video in QueryAll(page, selectors[p.selectorIndex])
      && (forall c :: c in s ==> VideoScore(platform, c) <= VideoScore(platform, p.video))
  {
    ScanPicksFirst(page, platform, selectors);
    var p := Scan(page, platform, selectors).value;
    var s := SurvivorsOf(page, platform, selectors[p.selectorIndex]);
    var b := FirstMax(Scores(platform, s));
    assert p.video == s[b] && p.video in s;
    SurvivorsAreEligible(page, platform, QueryAll(page, selectors[p.selectorIndex]));
    forall c | c in s ensures VideoScore(platform, c) <= VideoScore(platform, p.video) {
      var i :| 0 <= i < |s| && s[i] == c;
      assert Scores(platform, s)[i] <= Scores(platform, s)[b];
    }
  }

  /** A found video always has some data loaded. */
  lemma ScanFindsReadyVideo(page: Page, platform: string, selectors: seq<string>)
    ensures Scan(page, platform, selectors).Some? ==> Scan(page, platform, selectors).value.video.readyState >= 1
  {
    if Scan(page, platform, selectors).Some? {
      PickIsEligibleAndBest(page, platform, selectors);
    }
  }

  /** The video `findVideo` returns for a page, if any. */
  function FoundOn(platform: string, config: Config, page: Page): (r: Option<Candidate>)
    ensures r.Some? ==> r.value.readyState >= 1
  {
    ScanFindsReadyVideo(page, platform, config.selectors);
    var p := Scan(page, platform, config.selectors);
    if p.Some? then Some(p.value.video) else None
  }

  /** What the retry loop ends with: the video it keeps, if any, and the
      number of scans it made. */
  datatype Search = Search(found: Option<Candidate>, attempts: nat)

  /** What each scan of the retry loop returns: scan `j` runs `findVideo` on
      the page as it is then, `pageAt(j)`. */
  function ScansOn(platform: string, config: Config, pageAt: nat -> Page): nat -> Option<Candidate> {
    (j: nat) => FoundOn(platform, config, pageAt(j))
  }

  /** The retry loop from scan `i` on, where `scans(i)` is what scan `i`
      returns. */
  function RetrySearch(scans: nat -> Option<Candidate>, maxRetries: nat, i: nat): (r: Search)
    ensures i <= maxRetries ==> i <= r.attempts <= maxRetries
    ensures r.found.Some? ==> r.attempts >= 1 && r.found.value.readyState >= 1 && r.found == scans(r.attempts - 1)
    decreases maxRetries - i
  {
    if i >= maxRetries then Search(None, i)
    else if scans(i).Some? && scans(i).value.readyState >= 1 then Search(scans(i), i + 1)
    else RetrySearch(scans, maxRetries, i + 1)
  }

  /** The loop makes at most `maxRetries` scans; it keeps the first video a
      scan returns when scans return only loaded videos, and gives up only
      after every scan returned nothing. */
  lemma {:induction false} RetrySearchFindsFirst(scans: nat -> Option<Candidate>, maxRetries: nat, i: nat)
    requires i <= maxRetries
    requires forall j :: scans(j).Some? ==> scans(j).value.readyState >= 1
    ensures var r := RetrySearch(scans, maxRetries, i);
      i <= r.attempts <= maxRetries
      && (r.found.None? <==> r.attempts == maxRetries && forall j :: i <= j < maxRetries ==> scans(j).None?)
      && (r.found.Some? ==> r.attempts > i && r.found == scans(r.attempts - 1))
      && (forall j :: i <= j < r.attempts - 1 ==> scans(j).None?)
    decreases maxRetries - i
  {
    if i < maxRetries && scans(i).None? {
      RetrySearchFindsFirst(scans, maxRetries, i + 1);
    }
  }

  /** Every configuration ends with the bare "video" selector, so when any
      video of the page passes the filters, some video is found. */
  lemma CatchAllFindsEligibleVideo(page: Page, platform: string, c: Candidate)
    requires c in page.videos && Eligible(page, platform, c)
    ensures Scan(page, platform, ConfigFor(platform).selectors).Some?
  {
    var sels := ConfigFor(platform).selectors;
    var last := |sels| - 1;
    SurvivorsAreEligible(page, platform, page.videos);
    assert c in SurvivorsOf(page, platform, sels[last]);
    ScanNoneIff(page, platform, sels);
  }

  /** The popup page's state: the platform and its settings, the video it
      found, its flags, the state of that video element, and the messages it
      has posted to the window. */
  class PopupPage {
    const platform: string
    const config: Config
    const pipVolume: real
    const dockPosition: string

    var foundVideo: Option<Candidate>
    var foundBy: Option<string>
    var dock: Option<DockAnchor>
    var autoPipAttempted: bool
    var activationPending: bool
    var bridgeReady: bool
    var isSeeking: bool
    var lastSeekTime: int
    var seekDetection: bool
    /** The found video's `controls`, `muted` and `volume`, and whether it
        carries the `__pip__` mark. */
    var controls: bool
    var muted: bool
    var volume: real
    var pipMarked: bool
    /** `document.pictureInPictureElement`, by key. */
    var pipElement: Option<nat>
    /** Pending once-only `leavepictureinpicture` listeners and the number of
        `volumechange` guards attached. */
    var leaveListeners: nat
    var volumeGuards: nat
    var outbox: seq<PageMessage>

    /** The script's start, once `__chillPopup` exists; `video` is the state of
        the elements it will later find. */
    constructor(meta: PopupMeta, muted0: bool, volume0: real)
      ensures platform == PlatformOf(Some(meta)).value && config == ConfigFor(platform)
      ensures pipVolume == PipVolumeOf(meta) && dockPosition == "bottom-right"
      ensures foundVideo.None? && dock.None? && !autoPipAttempted && !bridgeReady && !isSeeking
      ensures lastSeekTime == 0 && outbox == [] && pipElement.None?
      ensures Valid()
    {
      platform := PlatformOf(Some(meta)).value;
      config := ConfigFor(PlatformOf(Some(meta)).value);
      pipVolume := PipVolumeOf(meta);
      dockPosition := "bottom-right";
      foundVideo := None;
      foundBy := None;
      dock := None;
      autoPipAttempted := false;
      activationPending := false;
      bridgeReady := false;
      isSeeking := false;
      lastSeekTime := 0;
      seekDetection := false;
      controls := false;
      muted := muted0;
      volume := volume0;
      pipMarked := false;
      pipElement := None;
      leaveListeners := 0;
      volumeGuards := 0;
      outbox := [];
    }

    /** Auto Picture-in-Picture is scheduled at most once and only for a found
        video; the seek listeners exist exactly when it was. */
    ghost predicate Valid()
      reads this
    {
      (activationPending ==> autoPipAttempted && foundVideo.Some?)
      && (autoPipAttempted ==> foundVideo.Some? && seekDetection)
      && (seekDetection ==> autoPipAttempted)
      && (dock.Some? ==> foundVideo.Some? && dock.value == DockAnchorFor(dockPosition))
    }

    /** `findVideo()`: scan the selectors of the configuration in order and
      return the best survivor of the first one that has any, with the
      selector that found it. */
    method FindVideo(page: Page) returns (found: Option<Candidate>, selector: string)
      ensures var r := Scan(page, platform, config.selectors);
        (found.None? <==> r.None?)
        && (r.Some? ==> found == Some(r.value.video) && selector == config.selectors[r.value.selectorIndex])
      ensures found == FoundOn(platform, config, page)
      ensures found.Some? ==> selector in config.selectors
    {
      var k := 0;
      while k < |config.selectors|
        invariant 0 <= k <= |config.selectors|
        invariant forall j :: 0 <= j < k ==> SurvivorsOf(page, platform, config.selectors[j]) == []
      {
        var survivors := SurvivorsOf(page, platform, config.selectors[k]);
        if survivors != [] {
          var scores := ScoreAll(survivors);
          var best := PickBest(scores);
          ScanStopsAtFirstSurvivor(page, platform, config.selectors, k);
          return Some(survivors[best]), config.selectors[k];
        }
        k := k + 1;
      }
      ScanNoneIff(page, platform, config.selectors);
      return None, "";
    }

    /** The `map` step of `findVideo`: each survivor's `calculateVideoScore`,
      in order. */
    method ScoreAll(cs: seq<Candidate>) returns (scores: seq<real>)
      ensures scores == Scores(platform, cs)
    {
      scores := [];
      var i := 0;
      while i < |cs|
        invariant 0 <= i <= |cs| && |scores| == i
        invariant forall j :: 0 <= j < i ==> scores[j] == VideoScore(platform, cs[j])
      {
        var score := CalculateVideoScore(cs[i]);
        scores := scores + [score];
        i := i + 1;
      }
    }

    /** `calculateVideoScore(video)`: the size and centre terms, then the walk
      up the ancestors, then the Facebook, playing and source bonuses. */
    method CalculateVideoScore(c: Candidate) returns (score: real)
      ensures score == VideoScore(platform, c)
    {
      score := (c.videoWidth * c.videoHeight) as real / 1000.0;
      score := score + c.centerScore;
      var walked := AncestorBonus(c);
      score := score + walked as real;
      if platform == "facebook" {
        if InWatchPagelet(c) {
          score := score + 1000.0;
        }
        if c.hasVideoIdAttr {
          score := score + 500.0;
        }
      }
      if !c.paused {
        score := score + 200.0;
      }
      var src := SourceOf(c);
      if Contains(src, "fbcdn") || Contains(src, "facebook") {
        score := score + 100.0;
      }
    }

    /** The walk of `calculateVideoScore`: from the video up, while the element
      has a parent and fewer than 20 levels are done, add each level's bonus. */
    method AncestorBonus(c: Candidate) returns (bonus: int)
      ensures bonus == BonusSum(ScoredLevels(c))
    {
      var lineage := Lineage(c);
      var depth := 0;
      bonus := 0;
      while depth < |c.ancestors| && depth < MaxDepth
        invariant 0 <= depth <= |c.ancestors| && depth <= MaxDepth
        invariant bonus == BonusSum(lineage[..depth])
      {
        assert lineage[..depth + 1][..depth] == lineage[..depth];
        bonus := bonus + LevelBonus(lineage[depth]);
        depth := depth + 1;
      }
      assert lineage[..depth] == ScoredLevels(c);
    }

    /** `findVideoWithRetry()`: after the initial delay, up to `maxRetries`
      scans, each on the page as it then is, with the retry delay after each
      miss; the first video found with `readyState >= 1` is kept, with the
      selector that found it. */
    method FindVideoWithRetry(pageAt: nat -> Page) returns (attempts: nat, waited: nat)
      requires foundVideo.None?
      modifies this`foundVideo, this`foundBy
      ensures var r := RetrySearch(ScansOn(platform, config, pageAt), config.maxRetries, 0);
        foundVideo == r.found && attempts == r.attempts
      ensures waited == config.initialDelay + config.retryDelay * (if foundVideo.Some? then attempts - 1 else attempts)
      ensures foundVideo.None? ==> attempts == config.maxRetries && foundBy == old(foundBy)
      ensures foundVideo.Some? ==> foundBy.Some? && foundBy.value in config.selectors
    {
      var found, selector;
      found, selector, attempts, waited := RetryScans(pageAt);
      if found.Some? {
        foundVideo := found;
        foundBy := Some(selector);
      }
    }

    /** The loop of `findVideoWithRetry()`: scan `attempts` on `pageAt(attempts)`
      until a loaded video is found or `maxRetries` scans are made, adding the
      retry delay after each miss. */
    method RetryScans(pageAt: nat -> Page) returns (found: Option<Candidate>, selector: string, attempts: nat,
                                                    waited: nat)
      ensures var r := RetrySearch(ScansOn(platform, config, pageAt), config.maxRetries, 0);
        found == r.found && attempts == r.attempts
      ensures waited == config.initialDelay + config.retryDelay * (if found.Some? then attempts - 1 else attempts)
      ensures found.None? ==> attempts == config.maxRetries
      ensures found.Some? ==> selector in config.selectors
    {
      ghost var scans := ScansOn(platform, config, pageAt);
      var maxRetries, delay := config.maxRetries, config.retryDelay;
      waited := config.initialDelay;
      attempts := 0;
      selector := "";
      while attempts < maxRetries
        invariant attempts <= maxRetries
        invariant RetrySearch(scans, maxRetries, attempts) == RetrySearch(scans, maxRetries, 0)
        invariant waited == config.initialDelay + delay * attempts
      {
        var video;
        video, selector := FindVideo(pageAt(attempts));
        if video.Some? && video.value.readyState >= 1 {
          found := video;
          attempts := attempts + 1;
          return;
        }
        assert delay * (attempts + 1) == delay * attempts + delay;
        attempts := attempts + 1;
        waited := waited + delay;
      }
      found := None;
    }

    /** `initialize()`: look for the video; when one is found, create the dock
      (in the corner `dockPosition` names) and schedule auto
      Picture-in-Picture unless it was already tried. */
    method Initialize(pageAt: nat -> Page) returns (attempts: nat)
      requires Valid() && foundVideo.None?
      modifies this`foundVideo, this`foundBy, this`dock, this`autoPipAttempted, this`activationPending,
               this`seekDetection, this`controls, this`muted, this`volume
      ensures Valid()
      ensures var r := RetrySearch(ScansOn(platform, config, pageAt), config.maxRetries, 0);
        foundVideo == r.found && attempts == r.attempts
      ensures foundVideo.None? ==> foundBy == old(foundBy)
      ensures foundVideo.Some? ==> foundBy.Some? && foundBy.value in config.selectors
      ensures foundVideo.None? ==>
        attempts == config.maxRetries && dock == old(dock) && !autoPipAttempted && !activationPending
        && !seekDetection && controls == old(controls) && muted == old(muted) && volume == old(volume)
      ensures foundVideo.Some? ==>
        dock == Some(DockAnchorFor(dockPosition)) && autoPipAttempted && activationPending && seekDetection
        && controls && !muted && volume == (if 0.0 <= pipVolume <= 1.0 then pipVolume else old(volume))
    {
      assert !autoPipAttempted && !activationPending && !seekDetection;
      var waited;
      attempts, waited := FindVideoWithRetry(pageAt);
      ShowFoundVideo();
    }

    /** The end of `initialize()`: with a video, create the dock and try auto
      Picture-in-Picture unless it was already tried; without one, nothing. */
    method ShowFoundVideo()
      requires Valid()
      modifies this`dock, this`autoPipAttempted, this`activationPending, this`seekDetection, this`controls,
               this`muted, this`volume
      ensures Valid()
      ensures foundVideo.Some? ==> dock == Some(DockAnchorFor(dockPosition))
      ensures foundVideo.None? || old(autoPipAttempted) ==>
        (foundVideo.None? ==> dock == old(dock)) && autoPipAttempted == old(autoPipAttempted)
        && activationPending == old(activationPending) && seekDetection == old(seekDetection)
        && controls == old(controls) && muted == old(muted) && volume == old(volume)
      ensures foundVideo.Some? && !old(autoPipAttempted) ==>
        autoPipAttempted && activationPending && seekDetection && controls && !muted
        && volume == (if 0.0 <= pipVolume <= 1.0 then pipVolume else old(volume))
    {
      if foundVideo.Some? {
        dock := Some(DockAnchorFor(dockPosition));
        if !autoPipAttempted {
          TryAutoPipImmediate();
        }
      }
    }

    /** `prepareVideoForPip(video)`: show the controls, unmute, and apply the
      volume when it lies in [0, 1]. */
    method PrepareVideoForPip()
      modifies this`controls, this`muted, this`volume
      ensures controls && !muted
      ensures volume == if 0.0 <= pipVolume <= 1.0 then pipVolume else old(volume)
    {
      controls := true;
      muted := false;
      if 0.0 <= pipVolume <= 1.0 {
        volume := pipVolume;
      }
    }

    /** `tryAutoPipImmediate()`: once only, and only with a video: prepare it,
      listen for seeks and schedule the request 100 ms later. */
    method TryAutoPipImmediate()
      requires Valid()
      modifies this`autoPipAttempted, this`activationPending, this`seekDetection, this`controls, this`muted,
               this`volume
      ensures Valid()
      ensures foundVideo.None? || old(autoPipAttempted) ==>
        autoPipAttempted == old(autoPipAttempted) && activationPending == old(activationPending)
        && controls == old(controls) && muted == old(muted) && volume == old(volume)
      ensures foundVideo.Some? && !old(autoPipAttempted) ==>
        autoPipAttempted && activationPending && seekDetection && controls && !muted
        && volume == (if 0.0 <= pipVolume <= 1.0 then pipVolume else old(volume))
    {
      if foundVideo.None? || autoPipAttempted {
        return;
      }
      autoPipAttempted := true;
      PrepareVideoForPip();
      seekDetection := true;
      activationPending := true;
    }

    /** The `seeking` listener. */
    method OnSeeking(now: int)
      modifies this`isSeeking, this`lastSeekTime
      ensures seekDetection ==> isSeeking && lastSeekTime == now
      ensures !seekDetection ==> isSeeking == old(isSeeking) && lastSeekTime == old(lastSeekTime)
    {
      if seekDetection {
        isSeeking := true;
        lastSeekTime := now;
      }
    }

    /** The `seeked` listener. */
    method OnSeeked()
      modifies this`isSeeking
      ensures isSeeking == (old(isSeeking) && !seekDetection)
    {
      if seekDetection {
        isSeeking := false;
      }
    }

    /** The request that follows a successful `requestPictureInPicture`:
      mark the video, arm the leave listener and add a volume guard. */
    method MarkPictureInPicture()
      requires foundVideo.Some?
      modifies this`pipMarked, this`pipElement, this`leaveListeners, this`volumeGuards
      ensures pipMarked && pipElement == Some(foundVideo.value.key)
      ensures leaveListeners == old(leaveListeners) + 1 && volumeGuards == old(volumeGuards) + 1
    {
      pipElement := Some(foundVideo.value.key);
      pipMarked := true;
      leaveListeners := leaveListeners + 1;
      volumeGuards := volumeGuards + 1;
    }

    /** `activatePipNow(foundVideo)`, run by the timer `tryAutoPipImmediate`
      set: wait 300 ms first when a seek is under way or ended less than
      500 ms ago, then request Picture-in-Picture (`request` is the browser's
      answer); success marks the video and posts "activated" then "minimize",
      failure posts "failed" with the error and nothing is retried. */
    method ActivatePipNow(now: int, request: Outcome) returns (delay: nat)
      requires Valid() && activationPending
      modifies this`activationPending, this`pipMarked, this`pipElement, this`leaveListeners, this`volumeGuards,
               this`outbox
      ensures Valid() && !activationPending
      ensures delay == SeekGuardDelay(isSeeking, lastSeekTime, now)
      ensures request.Ok? ==> pipMarked && pipElement == Some(foundVideo.value.key)
                              && leaveListeners == old(leaveListeners) + 1 && volumeGuards == old(volumeGuards) + 1
                              && outbox == old(outbox) + [PipActivated, MinimizePopup]
      ensures request.Err? ==> outbox == old(outbox) + [PipFailed(request.message)]
                               && pipMarked == old(pipMarked) && pipElement == old(pipElement)
                               && leaveListeners == old(leaveListeners) && volumeGuards == old(volumeGuards)
    {
      activationPending := false;
      delay := SeekGuardDelay(isSeeking, lastSeekTime, now);
      if request.Err? {
        outbox := outbox + [PipFailed(request.message)];
        return;
      }
      MarkPictureInPicture();
      outbox := outbox + [PipActivated, MinimizePopup];
    }

    /** The dock button: `triggerPip(foundVideo)`, then post "minimize" on
      success. Without a video the click fails with "No video available". */
    method OnPipButtonClick(now: int, request: Outcome) returns (result: Outcome, delay: nat)
      modifies this`controls, this`muted, this`volume, this`pipMarked, this`pipElement, this`leaveListeners,
               this`volumeGuards, this`outbox
      ensures foundVideo.None? ==> result == Err("No video available") && delay == 0 && outbox == old(outbox)
                                   && controls == old(controls) && muted == old(muted) && volume == old(volume)
      ensures foundVideo.Some? ==> controls && !muted && delay == SeekGuardDelay(isSeeking, lastSeekTime, now)
                                   && volume == (if 0.0 <= pipVolume <= 1.0 then pipVolume else old(volume))
                                   && result == request
      ensures foundVideo.Some? && request.Ok? ==>
        pipMarked && pipElement == Some(foundVideo.value.key) && outbox == old(outbox) + [MinimizePopup]
        && leaveListeners == old(leaveListeners) + 1 && volumeGuards == old(volumeGuards) + 1
      ensures foundVideo.None? || request.Err? ==>
        outbox == old(outbox) && pipMarked == old(pipMarked) && pipElement == old(pipElement)
        && leaveListeners == old(leaveListeners) && volumeGuards == old(volumeGuards)
    {
      if foundVideo.None? {
        return Err("No video available"), 0;
      }
      PrepareVideoForPip();
      delay := SeekGuardDelay(isSeeking, lastSeekTime, now);
      if request.Err? {
        return request, delay;
      }
      MarkPictureInPicture();
      outbox := outbox + [MinimizePopup];
      return Ok, delay;
    }

    /** The once-only `leavepictureinpicture` listeners: leaving removes the mark. */
    method OnLeavePictureInPicture()
      modifies this`pipMarked, this`pipElement, this`leaveListeners
      ensures pipElement.None? && leaveListeners == 0
      ensures pipMarked == (old(pipMarked) && old(leaveListeners) == 0)
    {
      pipElement := None;
      if leaveListeners > 0 {
        pipMarked := false;
        leaveListeners := 0;
      }
    }

    /** A `volumechange` on the video (`nowMuted` is its new `muted`): once a
      guard is attached, a mute while the video is in Picture-in-Picture and
      no seek is under way is undone. */
    method OnVolumeChange(nowMuted: bool)
      modifies this`muted
      ensures muted == (nowMuted && !(volumeGuards > 0 && foundVideo.Some?
                                      && pipElement == Some(foundVideo.value.key) && !isSeeking))
    {
      muted := nowMuted;
      if muted && volumeGuards > 0 && foundVideo.Some? && pipElement == Some(foundVideo.value.key) && !isSeeking {
        muted := false;
      }
    }

    /** The window `message` listener: only messages from the window itself
      count, and "bridge ready" sets the flag, which nothing else reads. */
    method OnWindowMessage(fromSelf: bool, message: PageMessage)
      modifies this`bridgeReady
      ensures bridgeReady == (old(bridgeReady) || (fromSelf && message == BridgeReady))
    {
      if !fromSelf {
        return;
      }
      if message == BridgeReady {
        bridgeReady := true;
      }
    }
  }

  /** The wait before requesting Picture-in-Picture: 300 ms while a seek is
      under way or within 500 ms of the last one, none otherwise. */
  function SeekGuardDelay(isSeeking: bool, lastSeekTime: int, now: int): (r: nat)
    ensures r == 0 || r == 300
    ensures r == 300 <==> isSeeking || now - lastSeekTime < 500
  {
    if isSeeking || now - lastSeekTime < 500 then 300 else 0
  }

  /** The dock of this script never moves from the bottom-right corner. */
  lemma DockIsBottomRight()
    ensures DockAnchorFor("bottom-right") == DockAnchor(true, true)
  {
    DockAnchorOfCorner(BottomRight);
  }
}

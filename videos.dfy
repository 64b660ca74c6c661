/** The `<video>` elements of a page and the "largest playing video" choice
    that youtube_inject.js and universal_pip.js both make. */
module Videos {
  import opened Wrappers

  /** The first client rectangle of an element, in CSS pixels. */
  datatype ClientRect = ClientRect(width: real, height: real)

  /** A media duration: a finite number of seconds, or NaN/Infinity. */
  datatype Duration = Seconds(seconds: real) | NotFinite

  /** What the extension reads from one `<video>` element. `id` stands for the
      element's identity, so two snapshots of one page can name the same
      element; `dataAttributes` holds the `data-*` attributes by name. */
  datatype Video = Video(
    id: nat,
    readyState: int,
    disablePictureInPicture: bool,
    firstRect: Option<ClientRect>,
    currentSrc: string,
    src: string,
    poster: string,
    dataAttributes: map<string, string>,
    duration: Duration,
    currentTime: real)

  /** The sort key: the area of the first client rectangle, 0 without one. */
  function Area(v: Video): real {
    match v.firstRect
    case None => 0.0
    case Some(r) => r.width * r.height
  }

  /** Both filters: some data loaded, Picture-in-Picture not disabled. */
  predicate Playable(v: Video) {
    v.readyState != 0 && !v.disablePictureInPicture
  }

  /** The index `findLargestPlayingVideo` picks among the page's videos in
      document order: the filters keep the playable ones, and the stable sort
      by decreasing area puts first the earliest of the largest. */
  function LargestPlaying(vs: seq<Video>): (r: Option<nat>)
    ensures r.None? <==> forall i :: 0 <= i < |vs| ==> !Playable(vs[i])
    ensures r.Some? ==> r.value < |vs| && Playable(vs[r.value])
    ensures r.Some? ==> forall i :: 0 <= i < |vs| && Playable(vs[i]) ==> Area(vs[i]) <= Area(vs[r.value])
    ensures r.Some? ==> forall i :: 0 <= i < r.value && Playable(vs[i]) ==> Area(vs[i]) < Area(vs[r.value])
    decreases |vs|
  {
    if |vs| == 0 then None
    else
      var init := vs[..|vs| - 1];
      var last := vs[|vs| - 1];
      var best := LargestPlaying(init);
      assert forall i :: 0 <= i < |init| ==> init[i] == vs[i];
      if !Playable(last) then best
      else if best.None? || Area(last) > Area(init[best.value]) then Some(|vs| - 1)
      else best
  }

  /** The choice is pinned down by its contract: a playable video at least as
      large as every playable video and strictly larger than every earlier one
      is exactly the one the function picks. */
  lemma LargestPlayingUnique(vs: seq<Video>, k: nat)
    requires k < |vs| && Playable(vs[k])
    requires forall i :: 0 <= i < |vs| && Playable(vs[i]) ==> Area(vs[i]) <= Area(vs[k])
    requires forall i :: 0 <= i < k && Playable(vs[i]) ==> Area(vs[i]) < Area(vs[k])
    ensures LargestPlaying(vs) == Some(k)
  {
  }

  /** A video that cannot play, added after the others, never changes the choice. */
  lemma LargestPlayingIgnoresUnplayable(vs: seq<Video>, w: Video)
    requires !Playable(w)
    ensures LargestPlaying(vs + [w]) == LargestPlaying(vs)
  {
    assert (vs + [w])[..|vs|] == vs;
  }
}

/** Option, host-call outcomes and results, shared by every part of the model. */
module Wrappers {
  datatype Option<+T> = None | Some(value: T)

  /** What a browser host call (window, tab, storage, script injection, a
      Picture-in-Picture request) reports: success, or failure with the error's
      message text. */
  datatype Outcome = Ok | Err(message: string)

  datatype Result<+T> = Success(value: T) | Failure(error: string)

  /** `error?.message || fallback`: an empty message falls back to the given text. */
  function ErrorText(message: string, fallback: string): (r: string)
    ensures message != "" ==> r == message
    ensures message == "" ==> r == fallback
    ensures fallback != "" ==> r != ""
  {
    if message == "" then fallback else message
  }
}

/** The few JavaScript string operations the extension relies on. */
module Strings {
  predicate StartsWith(s: string, prefix: string) {
    |prefix| <= |s| && s[..|prefix|] == prefix
  }

  predicate EndsWith(s: string, suffix: string) {
    |suffix| <= |s| && s[|s| - |suffix|..] == suffix
  }

  /** `s.includes(part)`: some position of `s` starts an occurrence of `part`. */
  predicate Contains(s: string, part: string)
    decreases |s|
  {
    StartsWith(s, part) || (|s| > 0 && Contains(s[1..], part))
  }

  /** An occurrence at a known position is an occurrence. */
  lemma {:induction false} ContainsAt(s: string, part: string, i: nat)
    requires i + |part| <= |s| && s[i..i + |part|] == part
    ensures Contains(s, part)
    decreases i
  {
    if i == 0 {
      assert s[..|part|] == part;
    } else {
      assert s[1..][i - 1..i - 1 + |part|] == s[i..i + |part|];
      ContainsAt(s[1..], part, i - 1);
    }
  }

  /** Every occurrence sits at some position of `s`. */
  lemma {:induction false} ContainsPosition(s: string, part: string) returns (i: nat)
    requires Contains(s, part)
    ensures i + |part| <= |s| && s[i..i + |part|] == part
    decreases |s|
  {
    if StartsWith(s, part) {
      i := 0;
    } else {
      var j := ContainsPosition(s[1..], part);
      assert s[1..][j..j + |part|] == s[j + 1..j + 1 + |part|];
      i := j + 1;
    }
  }

  /** A string that contains a word also contains every prefix of that word:
      whoever searches for "advertisement" after "ad" learns nothing new. */
  lemma {:induction false} ContainsPrefixOfPart(s: string, part: string, prefix: string)
    requires Contains(s, part) && StartsWith(part, prefix)
    ensures Contains(s, prefix)
  {
    var i := ContainsPosition(s, part);
    assert s[i..i + |prefix|] == s[i..i + |part|][..|prefix|];
    ContainsAt(s, prefix, i);
  }

  /** Every character of an occurring word is a character of `s`. */
  lemma ContainedCharsOccur(s: string, part: string, k: nat)
    requires Contains(s, part) && k < |part|
    ensures part[k] in s
  {
    var i := ContainsPosition(s, part);
    assert s[i..i + |part|][k] == s[i + k];
  }

  /** A character that `s` lacks rules out every word that has it. */
  lemma MissingCharNotContained(s: string, part: string, k: nat)
    requires k < |part| && part[k] !in s
    ensures !Contains(s, part)
  {
    if Contains(s, part) {
      ContainedCharsOccur(s, part, k);
    }
  }

  /** A suffix is an occurrence. */
  lemma EndsWithContains(s: string, suffix: string)
    requires EndsWith(s, suffix)
    ensures Contains(s, suffix)
  {
    ContainsAt(s, suffix, |s| - |suffix|);
  }

  /** ASCII case folding, as `toLowerCase` does for the host names, tags and
      class names the extension compares. */
  function LowerChar(c: char): char {
    if 'A' <= c <= 'Z' then (c as int + 32) as char else c
  }

  function ToLower(s: string): string {
    seq(|s|, i requires 0 <= i < |s| => LowerChar(s[i]))
  }

  /** `s.replace(/^www\./, "")`: one leading "www." is dropped, case-sensitively. */
  function StripWww(s: string): string {
    if StartsWith(s, "www.") then s[4..] else s
  }

  /** The white space and line terminators `String.prototype.trim` removes. */
  predicate IsJsWhitespace(c: char) {
    c == ' ' || c == '\t' || c == '\n' || c == '\r' || c == '\U{B}' || c == '\U{C}'
    || c == '\U{A0}' || c == '\U{1680}' || ('\U{2000}' <= c <= '\U{200A}')
    || c == '\U{2028}' || c == '\U{2029}' || c == '\U{202F}' || c == '\U{205F}'
    || c == '\U{3000}' || c == '\U{FEFF}'
  }

  function TrimStart(s: string): string
    decreases |s|
  {
    if |s| > 0 && IsJsWhitespace(s[0]) then TrimStart(s[1..]) else s
  }

  function TrimEnd(s: string): string
    decreases |s|
  {
    if |s| > 0 && IsJsWhitespace(s[|s| - 1]) then TrimEnd(s[..|s| - 1]) else s
  }

  /** `s.trim()`. */
  function Trim(s: string): string {
    TrimEnd(TrimStart(s))
  }

  /** Neither end of `s` is white space. */
  predicate IsTrimmed(s: string) {
    s == "" || (!IsJsWhitespace(s[0]) && !IsJsWhitespace(s[|s| - 1]))
  }

  lemma {:induction false} TrimStartShape(s: string)
    ensures TrimStart(s) == "" || !IsJsWhitespace(TrimStart(s)[0])
    ensures EndsWith(s, TrimStart(s))
    decreases |s|
  {
    if |s| > 0 && IsJsWhitespace(s[0]) {
      TrimStartShape(s[1..]);
      var t := TrimStart(s[1..]);
      assert s[|s| - |t|..] == s[1..][|s[1..]| - |t|..];
    }
  }

  lemma {:induction false} TrimEndShape(s: string)
    ensures TrimEnd(s) == "" || !IsJsWhitespace(TrimEnd(s)[|TrimEnd(s)| - 1])
    ensures StartsWith(s, TrimEnd(s))
    decreases |s|
  {
    if |s| > 0 && IsJsWhitespace(s[|s| - 1]) {
      TrimEndShape(s[..|s| - 1]);
      var t := TrimEnd(s[..|s| - 1]);
      assert s[..|t|] == s[..|s| - 1][..|t|];
    }
  }

  /** The result of `trim` has no white space at either end. */
  lemma TrimIsTrimmed(s: string)
    ensures IsTrimmed(Trim(s))
  {
    var t := TrimStart(s);
    TrimStartShape(s);
    TrimEndShape(t);
    var r := TrimEnd(t);
    assert r == Trim(s);
    if r != "" {
      assert t[..|r|] == r;
      assert r[0] == t[..|r|][0] == t[0];
    }
  }

  /** Trimming a string that is already trimmed changes nothing, so `trim` is idempotent. */
  lemma TrimOfTrimmed(s: string)
    requires IsTrimmed(s)
    ensures Trim(s) == s
  {
  }

  lemma TrimIdempotent(s: string)
    ensures Trim(Trim(s)) == Trim(s)
  {
    TrimIsTrimmed(s);
    TrimOfTrimmed(Trim(s));
  }
}

/** URLs as the URL parser exposes them, and the YouTube-link check that
    background.js, content_script.js and side_panel.js each carry a copy of. */
module Web {
  import opened Wrappers
  import opened Strings

  datatype Param = Param(name: string, value: string)

  /** What `new URL(...)` exposes: the protocol with its colon, the host name,
      the path and the query's name/value pairs in order. */
  datatype Url = Url(protocol: string, hostname: string, pathname: string, params: seq<Param>)

  /** `searchParams.get(name)`: the value of the first pair with that name. */
  function GetParam(ps: seq<Param>, name: string): (r: Option<string>)
    ensures r.Some? <==> exists p :: p in ps && p.name == name
    ensures r.Some? ==> exists i :: 0 <= i < |ps| && ps[i] == Param(name, r.value)
                                    && forall j :: 0 <= j < i ==> ps[j].name != name
    decreases |ps|
  {
    if |ps| == 0 then None
    else if ps[0].name == name then
      assert ps[0] == Param(name, ps[0].value);
      Some(ps[0].value)
    else
      var r := GetParam(ps[1..], name);
      assert r.Some? ==> exists i :: 0 <= i < |ps| && ps[i] == Param(name, r.value)
                                     && forall j :: 0 <= j < i ==> ps[j].name != name by {
        if r.Some? {
          var i :| 0 <= i < |ps[1..]| && ps[1..][i] == Param(name, r.value)
                   && forall j :: 0 <= j < i ==> ps[1..][j].name != name;
          assert ps[i + 1] == Param(name, r.value);
          assert forall j :: 0 <= j < i + 1 ==> ps[j].name != name by {
            forall j | 0 <= j < i + 1 ensures ps[j].name != name {
              if j > 0 { assert ps[j] == ps[1..][j - 1]; }
            }
          }
        }
      }
      r
  }

  /** `searchParams.delete(name)`: every pair with that name goes, the rest keep their order. */
  function DeleteParam(ps: seq<Param>, name: string): (r: seq<Param>)
    ensures forall p :: p in r <==> p in ps && p.name != name
    ensures |r| <= |ps|
    decreases |ps|
  {
    if |ps| == 0 then []
    else (if ps[0].name == name then [] else [ps[0]]) + DeleteParam(ps[1..], name)
  }

  /** Deleting from two runs of pairs deletes from each, keeping their order;
      with the membership clause on a single pair this pins the result. */
  lemma {:induction false} DeleteParamDistributes(a: seq<Param>, b: seq<Param>, name: string)
    ensures DeleteParam(a + b, name) == DeleteParam(a, name) + DeleteParam(b, name)
    decreases |a|
  {
    if |a| > 0 {
      assert (a + b)[1..] == a[1..] + b;
      DeleteParamDistributes(a[1..], b, name);
    } else {
      assert a + b == b;
    }
  }

  /** Deleting a name no pair has changes nothing. */
  lemma {:induction false} DeleteAbsentParam(ps: seq<Param>, name: string)
    requires forall p :: p in ps ==> p.name != name
    ensures DeleteParam(ps, name) == ps
    decreases |ps|
  {
    if |ps| > 0 {
      DeleteAbsentParam(ps[1..], name);
      assert [ps[0]] + ps[1..] == ps;
    }
  }

  lemma DeleteParamIdempotent(ps: seq<Param>, name: string)
    ensures DeleteParam(DeleteParam(ps, name), name) == DeleteParam(ps, name)
  {
    DeleteAbsentParam(DeleteParam(ps, name), name);
  }

  lemma DeleteParamHasNone(ps: seq<Param>, name: string)
    ensures GetParam(DeleteParam(ps, name), name).None?
  {
  }

  /** `searchParams.set(name, value)`: the first pair with that name takes the
      value and the later ones go; without one, the pair is appended. */
  function SetParam(ps: seq<Param>, name: string, value: string): (r: seq<Param>)
    ensures GetParam(r, name) == Some(value)
    ensures |r| == |DeleteParam(r, name)| + 1
    ensures DeleteParam(r, name) == DeleteParam(ps, name)
    decreases |ps|
  {
    if |ps| == 0 then
      var r := [Param(name, value)];
      assert r[1..] == [];
      r
    else if ps[0].name == name then
      var rest := DeleteParam(ps[1..], name);
      var r := [Param(name, value)] + rest;
      assert r[0] == Param(name, value) && r[1..] == rest;
      DeleteParamIdempotent(ps[1..], name);
      r
    else
      var tail := SetParam(ps[1..], name, value);
      var r := [ps[0]] + tail;
      assert r[0] == ps[0] && r[1..] == tail;
      r
  }

  /** The host-name test of `isValidYoutubeUrl`:
      `/(?:youtube\.com|youtu\.be)$/i` on the host without one leading "www.". */
  predicate IsYoutubeHost(hostname: string) {
    var h := ToLower(StripWww(hostname));
    EndsWith(h, "youtube.com") || EndsWith(h, "youtu.be")
  }

  /** `isValidYoutubeUrl(url)`: a non-empty URL that parses (`parsed` is the
      result of `new URL(url)`, `None` when it throws) and has a YouTube host. */
  predicate IsValidYoutubeUrl(url: string, parsed: Option<Url>) {
    url != "" && parsed.Some? && IsYoutubeHost(parsed.value.hostname)
  }

  lemma SuffixReachingIntoPrefix(pre: string, t: string, suffix: string)
    requires EndsWith(pre + t, suffix) && |t| < |suffix|
    ensures suffix[0] in pre
  {
    var s := pre + t;
    var j := |s| - |suffix|;
    assert s[j..][0] == s[j] == pre[j];
  }

  lemma EndsWithPastPrefix(pre: string, t: string, suffix: string)
    requires |suffix| > 0 && suffix[0] !in pre
    ensures EndsWith(pre + t, suffix) <==> EndsWith(t, suffix)
  {
    var s := pre + t;
    if |suffix| <= |t| {
      assert s[|s| - |suffix|..] == t[|t| - |suffix|..];
    } else if EndsWith(s, suffix) {
      SuffixReachingIntoPrefix(pre, t, suffix);
    }
  }

  /** Dropping "www." never changes the verdict: both suffixes start with a
      'y', which "www." lacks, so the pattern behaves as a plain
      case-insensitive suffix test on the whole host. */
  lemma YoutubeHostIgnoresWww(hostname: string)
    ensures IsYoutubeHost(hostname) <==>
      EndsWith(ToLower(hostname), "youtube.com") || EndsWith(ToLower(hostname), "youtu.be")
  {
    if StartsWith(hostname, "www.") {
      var t := hostname[4..];
      assert hostname == "www." + t;
      assert ToLower(hostname) == "www." + ToLower(t);
      EndsWithPastPrefix("www.", ToLower(t), "youtube.com");
      EndsWithPastPrefix("www.", ToLower(t), "youtu.be");
    }
  }

  /** The pattern is not anchored on the left: a look-alike domain passes. */
  lemma LookAlikeHostPasses()
    ensures IsYoutubeHost("notyoutube.com")
  {
    var h := "notyoutube.com";
    assert h[..4][0] != "www."[0];
    assert StripWww(h) == h;
    assert ToLower(h) == h;
    assert h[|h| - 11..] == "youtube.com";
  }
}

/** The viewing history kept in the extension's local storage. */
module History {
  import opened Wrappers
  import opened Strings

  const MaxHistoryItems := 30
  const FallbackTitle := "No Title"

  /** One stored entry. `title` is `None` when the stored value is not a string. */
  datatype HistoryEntry = HistoryEntry(url: string, title: Option<string>, addedAt: int)

  /** `entries.filter((entry) => entry.url !== url)`. */
  function RemoveUrl(entries: seq<HistoryEntry>, url: string): (r: seq<HistoryEntry>)
    ensures forall e :: e in r <==> e in entries && e.url != url
    ensures |r| <= |entries|
    decreases |entries|
  {
    if |entries| == 0 then []
    else (if entries[0].url == url then [] else [entries[0]]) + RemoveUrl(entries[1..], url)
  }

  /** Removal works piece by piece, so the surviving entries keep their relative order. */
  lemma {:induction false} RemoveUrlDistributes(a: seq<HistoryEntry>, b: seq<HistoryEntry>, url: string)
    ensures RemoveUrl(a + b, url) == RemoveUrl(a, url) + RemoveUrl(b, url)
    decreases |a|
  {
    if |a| > 0 {
      assert (a + b)[0] == a[0] && (a + b)[1..] == a[1..] + b;
      RemoveUrlDistributes(a[1..], b, url);
    } else {
      assert a + b == b;
    }
  }

  /** Removing a URL nobody has changes nothing. */
  lemma {:induction false} RemoveAbsentUrl(entries: seq<HistoryEntry>, url: string)
    requires forall e :: e in entries ==> e.url != url
    ensures RemoveUrl(entries, url) == entries
    decreases |entries|
  {
    if |entries| > 0 {
      RemoveAbsentUrl(entries[1..], url);
      assert [entries[0]] + entries[1..] == entries;
    }
  }

  predicate DistinctUrls(entries: seq<HistoryEntry>) {
    forall i, j :: 0 <= i < j < |entries| ==> entries[i].url != entries[j].url
  }

  /** An entry whose URL no other entry has can go in front. */
  lemma DistinctCons(x: HistoryEntry, rest: seq<HistoryEntry>)
    requires DistinctUrls(rest)
    requires forall e :: e in rest ==> e.url != x.url
    ensures DistinctUrls([x] + rest)
  {
    var r := [x] + rest;
    forall i, j | 0 <= i < j < |r| ensures r[i].url != r[j].url {
      assert r[j] == rest[j - 1];
      if i > 0 {
        assert r[i] == rest[i - 1];
      }
    }
  }

  /** In a list of distinct URLs, the first one occurs nowhere else. */
  lemma HeadUrlIsUnique(entries: seq<HistoryEntry>)
    requires |entries| > 0 && DistinctUrls(entries)
    ensures DistinctUrls(entries[1..])
    ensures forall e :: e in entries[1..] ==> e.url != entries[0].url
  {
    forall i, j | 0 <= i < j < |entries[1..]| ensures entries[1..][i].url != entries[1..][j].url {
      assert entries[1..][i] == entries[i + 1] && entries[1..][j] == entries[j + 1];
    }
    forall e | e in entries[1..] ensures e.url != entries[0].url {
      var k :| 0 <= k < |entries[1..]| && entries[1..][k] == e;
      assert entries[k + 1] == e;
    }
  }

  lemma {:induction false} RemoveUrlKeepsDistinct(entries: seq<HistoryEntry>, url: string)
    requires DistinctUrls(entries)
    ensures DistinctUrls(RemoveUrl(entries, url))
    decreases |entries|
  {
    if |entries| > 0 {
      HeadUrlIsUnique(entries);
      RemoveUrlKeepsDistinct(entries[1..], url);
      var rest := RemoveUrl(entries[1..], url);
      if entries[0].url != url {
        DistinctCons(entries[0], rest);
      } else {
        assert RemoveUrl(entries, url) == rest;
      }
    }
  }

  /** The list `addUrlToHistory` stores: the new entry first, then the old
      entries with another URL in their old order, cut to 30. */
  function UpdateHistory(entries: seq<HistoryEntry>, entry: HistoryEntry): (r: seq<HistoryEntry>)
    ensures 1 <= |r| <= MaxHistoryItems
    ensures r[0] == entry
    ensures forall i :: 1 <= i < |r| ==> r[i].url != entry.url && r[i] in entries
    ensures |r| == if |RemoveUrl(entries, entry.url)| < MaxHistoryItems
                   then |RemoveUrl(entries, entry.url)| + 1 else MaxHistoryItems
    ensures r[1..] == RemoveUrl(entries, entry.url)[..|r| - 1]
  {
    var kept := RemoveUrl(entries, entry.url);
    var all := [entry] + kept;
    var r := if |all| <= MaxHistoryItems then all else all[..MaxHistoryItems];
    assert r[1..] == kept[..|r| - 1];
    assert forall i :: 1 <= i < |r| ==> r[i] == kept[i - 1];
    r
  }

  /** An update keeps the history free of duplicate URLs: a history without
      duplicates has none after the update either. */
  lemma UpdateHistoryKeepsDistinct(entries: seq<HistoryEntry>, entry: HistoryEntry)
    requires DistinctUrls(entries)
    ensures DistinctUrls(UpdateHistory(entries, entry))
  {
    var kept := RemoveUrl(entries, entry.url);
    RemoveUrlKeepsDistinct(entries, entry.url);
    var r := UpdateHistory(entries, entry);
    forall i, j | 0 <= i < j < |r| ensures r[i].url != r[j].url {
      if i > 0 {
        assert r[i] == kept[i - 1] && r[j] == kept[j - 1];
      }
    }
  }

  /** Adding a URL that is already first and alone changes nothing but the entry itself. */
  lemma ReAddingKeepsLength(entries: seq<HistoryEntry>, entry: HistoryEntry)
    requires |entries| > 0 && entries[0].url == entry.url && |entries| <= MaxHistoryItems
    requires DistinctUrls(entries)
    ensures |UpdateHistory(entries, entry)| == |entries|
    ensures UpdateHistory(entries, entry)[1..] == entries[1..]
  {
    forall e | e in entries[1..] ensures e.url != entry.url {
      var k :| 0 <= k < |entries[1..]| && entries[1..][k] == e;
      assert entries[k + 1] == e;
    }
    RemoveAbsentUrl(entries[1..], entry.url);
    RemoveUrlDistributes([entries[0]], entries[1..], entry.url);
    assert [entries[0]] + entries[1..] == entries;
    assert RemoveUrl([entries[0]], entry.url) == [];
  }

  /** A title as the history shows it (and as `resolveVideoTitle` returns it):
      a string with something besides white space is trimmed, anything else
      becomes "No Title". */
  function NormalizeTitle(title: Option<string>): (r: string)
    ensures r != "" && IsTrimmed(r)
    ensures title.Some? && Trim(title.value) != "" ==> r == Trim(title.value)
    ensures title.None? || Trim(title.value) == "" ==> r == FallbackTitle
  {
    if title.Some? && Trim(title.value) != "" then
      TrimIsTrimmed(title.value);
      Trim(title.value)
    else
      FallbackTitle
  }

  /** Normalising a shown title again shows the same title. */
  lemma NormalizeTitleIdempotent(title: Option<string>)
    ensures NormalizeTitle(Some(NormalizeTitle(title))) == NormalizeTitle(title)
  {
    var r := NormalizeTitle(title);
    TrimOfTrimmed(r);
  }
}

/** Window corners and how a dock is anchored in them. */
module Layout {
  import opened Strings

  datatype Corner = BottomRight | TopRight | BottomLeft | TopLeft

  function CornerName(c: Corner): string {
    match c
    case BottomRight => "bottom-right"
    case TopRight => "top-right"
    case BottomLeft => "bottom-left"
    case TopLeft => "top-left"
  }

  /** One of the four preset names picks its corner; anything else means bottom-right. */
  function ParseCorner(position: string): (c: Corner)
    ensures CornerName(c) == position || c == BottomRight
    ensures forall k: Corner :: CornerName(k) == position ==> c == k
  {
    if position == "top-right" then TopRight
    else if position == "bottom-left" then BottomLeft
    else if position == "top-left" then TopLeft
    else BottomRight
  }

  predicate OnLeft(c: Corner) { c == BottomLeft || c == TopLeft }
  predicate OnTop(c: Corner) { c == TopRight || c == TopLeft }

  /** Which of the four side words a name contains. */
  predicate NameSides(name: string, left: bool, top: bool) {
    (left <==> Contains(name, "left")) && (top <==> Contains(name, "top"))
    && (!top <==> Contains(name, "bottom")) && (!left <==> Contains(name, "right"))
  }

  lemma BottomRightSides(name: string)
    requires name == "bottom-right"
    ensures NameSides(name, false, false)
  {
    assert Contains(name, "bottom") by { ContainsAt(name, "bottom", 0); }
    assert Contains(name, "right") by { ContainsAt(name, "right", 7); }
    assert !Contains(name, "left") by { MissingCharNotContained(name, "left", 0); }
    assert !Contains(name, "top") by { MissingCharNotContained(name, "top", 2); }
  }

  lemma TopRightSides(name: string)
    requires name == "top-right"
    ensures NameSides(name, false, true)
  {
    assert Contains(name, "top") by { ContainsAt(name, "top", 0); }
    assert Contains(name, "right") by { ContainsAt(name, "right", 4); }
    assert !Contains(name, "left") by { MissingCharNotContained(name, "left", 0); }
    assert !Contains(name, "bottom") by { MissingCharNotContained(name, "bottom", 0); }
  }

  lemma BottomLeftSides(name: string)
    requires name == "bottom-left"
    ensures NameSides(name, true, false)
  {
    assert Contains(name, "bottom") by { ContainsAt(name, "bottom", 0); }
    assert Contains(name, "left") by { ContainsAt(name, "left", 7); }
    assert !Contains(name, "right") by { MissingCharNotContained(name, "right", 0); }
    assert !Contains(name, "top") by { MissingCharNotContained(name, "top", 2); }
  }

  lemma TopLeftSides(name: string)
    requires name == "top-left"
    ensures NameSides(name, true, true)
  {
    assert Contains(name, "top") by { ContainsAt(name, "top", 0); }
    assert Contains(name, "left") by { ContainsAt(name, "left", 4); }
    assert !Contains(name, "right") by { MissingCharNotContained(name, "right", 0); }
    assert !Contains(name, "bottom") by { MissingCharNotContained(name, "bottom", 0); }
  }

  /** The source tests the names with `includes("left")`, `includes("top")`,
      `includes("bottom")` and `includes("right")`; on the four preset names
      each test is exactly the corner's side. */
  lemma CornerNameSides(c: Corner)
    ensures NameSides(CornerName(c), OnLeft(c), OnTop(c))
  {
    match c
    case BottomRight => BottomRightSides(CornerName(c));
    case TopRight => TopRightSides(CornerName(c));
    case BottomLeft => BottomLeftSides(CornerName(c));
    case TopLeft => TopLeftSides(CornerName(c));
  }

  /** Which window edges a dock is pinned to, 16 px in. */
  datatype DockAnchor = DockAnchor(bottom: bool, right: bool)

  /** `updateDockPosition`: "bottom" in the name pins the bottom edge (else the
      top), "right" pins the right edge (else the left). */
  function DockAnchorFor(position: string): DockAnchor {
    DockAnchor(Contains(position, "bottom"), Contains(position, "right"))
  }

  /** Each preset name docks in its own corner. */
  lemma DockAnchorOfCorner(c: Corner)
    ensures DockAnchorFor(CornerName(c)) == DockAnchor(!OnTop(c), !OnLeft(c))
  {
    CornerNameSides(c);
  }
}

/** The messages that cross between page scripts, the content bridge and the
    background service worker. */
module Messages {
  import opened Wrappers

  /** `{ ok, error? }`, the shape of every reply from the background. */
  datatype Response = Response(ok: bool, error: Option<string>)

  /** Messages posted with `window.postMessage` inside a popup page. */
  datatype PageMessage =
    | BridgeReady
    | MinimizePopup
    | MinimizeResult(success: bool, error: Option<string>)
    | PipActivated
    | PipFailed(reason: string)
    | OtherMessage(kind: Option<string>)

  /** `message?.type` of a page message. */
  function PageMessageType(m: PageMessage): Option<string> {
    match m
    case BridgeReady => Some("CHILL_BRIDGE_READY")
    case MinimizePopup => Some("CHILL_MINIMIZE_POPUP")
    case MinimizeResult(_, _) => Some("CHILL_MINIMIZE_RESULT")
    case PipActivated => Some("CHILL_PIP_ACTIVATED")
    case PipFailed(_) => Some("CHILL_PIP_FAILED")
    case OtherMessage(k) => k
  }

  const MinimizeWindowType := "MINIMIZE_CHILL_WINDOW"
}

/** JavaScript values as the scripts read them from storage and messages. */
module Js {
  /** A JavaScript value read from storage or a message. */
  datatype JsValue = Undefined | Null | Bool(b: bool) | Number(n: real) | NaNValue | Text(s: string) | Object

  predicate Truthy(v: JsValue) {
    match v
    case Undefined => false
    case Null => false
    case Bool(b) => b
    case Number(n) => n != 0.0
    case NaNValue => false
    case Text(s) => s != ""
    case Object => true
  }

  /** `value || fallback`. */
  function Or(value: JsValue, fallback: JsValue): (r: JsValue)
    ensures Truthy(value) ==> r == value
    ensures !Truthy(value) ==> r == fallback
  {
    if Truthy(value) then value else fallback
  }
}

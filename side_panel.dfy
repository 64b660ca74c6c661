/** The extension's side panel (side_panel.js): its settings form, theme
    switch, history list and the "Play" action that opens a YouTube link in
    the popup and then records it in the history. */
module SidePanel {
  import opened Wrappers
  import opened Strings
  import opened Web
  import opened History
  import opened Messages
  import opened Js
  import Background

  const DefaultWidth := 350
  const DefaultHeight := 200
  const DefaultPosition := "bottom-right"

  // ---------------------------------------------------------------------
  // Settings

  /** `clampNumber(value, min, max)` of the panel, on what `parseInt` gives
      (`None` for NaN): NaN stays missing, every number is clamped. */
  function ClampNumber(value: Option<int>, min: int, max: int): (r: Option<int>)
    requires min <= max
    ensures r.None? <==> value.None?
    ensures r.Some? ==> min <= r.value <= max
    ensures value.Some? && min <= value.value <= max ==> r == value
    ensures value.Some? && value.value < min ==> r == Some(min)
    ensures value.Some? && value.value > max ==> r == Some(max)
  {
    if value.None? then None
    else
      var lower := if value.value < min then min else value.value;
      Some(if lower > max then max else lower)
  }

  /** Without the background's rule for values that are not positive, the
      panel's clamp still agrees with it on every number once the minimum is
      positive. */
  lemma ClampAgreesWithBackground(v: int, min: int, max: int)
    requires 0 < min <= max
    ensures ClampNumber(Some(v), min, max).Some?
    ensures ClampNumber(Some(v), min, max).value as real
            == Background.ClampNumber(Background.Finite(v as real), min as real, max as real)
  {
  }

  /** The settings the form holds. */
  datatype PanelSettings = PanelSettings(width: int, height: int, position: string, autoNext: bool)

  /** `readSettings()`: `widthText`/`heightText` are what `parseInt` makes of
      the two inputs, `checkedPosition` the value of the checked corner (if
      any). A size falls back to its default only when it does not parse. */
  function ReadSettings(widthText: Option<int>, heightText: Option<int>, checkedPosition: Option<string>,
                        autoNext: bool): (r: PanelSettings)
    ensures widthText.None? ==> r.width == DefaultWidth
    ensures widthText.Some? ==> Some(r.width) == ClampNumber(widthText, 200, 2000)
    ensures heightText.None? ==> r.height == DefaultHeight
    ensures heightText.Some? ==> Some(r.height) == ClampNumber(heightText, 150, 1500)
    ensures 200 <= r.width <= 2000 && 150 <= r.height <= 1500
    ensures r.position == if checkedPosition.Some? && checkedPosition.value != "" then checkedPosition.value
                          else DefaultPosition
    ensures r.autoNext == autoNext
  {
    var position := if checkedPosition.Some? && checkedPosition.value != "" then checkedPosition.value
                    else DefaultPosition;
    var width := ClampNumber(widthText, 200, 2000);
    var height := ClampNumber(heightText, 150, 1500);
    PanelSettings(if width.Some? && width.value != 0 then width.value else DefaultWidth,
                  if height.Some? && height.value != 0 then height.value else DefaultHeight,
                  position, autoNext)
  }

  /** Saved settings read back unchanged: a width and height already in range
      are kept. */
  lemma ReadSettingsKeepsSavedSizes(s: PanelSettings)
    requires 200 <= s.width <= 2000 && 150 <= s.height <= 1500 && s.position != ""
    ensures ReadSettings(Some(s.width), Some(s.height), Some(s.position), s.autoNext) == s
  {
  }

  // ---------------------------------------------------------------------
  // Theme

  datatype Theme = Dark | Light

  function ThemeName(t: Theme): string {
    match t
    case Dark => "dark"
    case Light => "light"
  }

  /** Theme normalisation: anything but the string "light" is dark. */
  function NormalizeTheme(theme: JsValue): (r: Theme)
    ensures r == Light <==> theme == Text("light")
  {
    if theme == Text("light") then Light else Dark
  }

  /** A normalised theme stored by name reads back as itself. */
  lemma ThemeRoundTrip(t: Theme)
    ensures NormalizeTheme(Text(ThemeName(t))) == t
  {
  }

  // ---------------------------------------------------------------------
  // Playable URL

  /** `buildPlayableUrl()` on the parse of the URL (`None` when it throws):
      no URL for a protocol not starting with "http"; otherwise the same URL
      with `autoplay=1` set when `autoNext` is on and removed when it is off. */
  function BuildPlayableUrl(parsed: Option<Url>, autoNext: bool): (r: Option<Url>)
    ensures r.Some? <==> parsed.Some? && StartsWith(parsed.value.protocol, "http")
    ensures r.Some? ==>
      r.value.protocol == parsed.value.protocol && r.value.hostname == parsed.value.hostname
      && r.value.pathname == parsed.value.pathname
      && GetParam(r.value.params, "autoplay") == (if autoNext then Some("1") else None)
  {
    if parsed.None? then None
    else if !StartsWith(parsed.value.protocol, "http") then None
    else
      var u := parsed.value;
      Some(Url(u.protocol, u.hostname, u.pathname,
               if autoNext then SetParam(u.params, "autoplay", "1") else DeleteParam(u.params, "autoplay")))
  }

  /** Every query parameter other than `autoplay` is kept, in order. */
  lemma PlayableUrlKeepsOtherParams(parsed: Url, autoNext: bool)
    requires StartsWith(parsed.protocol, "http")
    ensures DeleteParam(BuildPlayableUrl(Some(parsed), autoNext).value.params, "autoplay")
            == DeleteParam(parsed.params, "autoplay")
  {
    if !autoNext {
      DeleteParamIdempotent(parsed.params, "autoplay");
    }
  }

  // ---------------------------------------------------------------------
  // Runtime messages

  /** How the runtime's callback sees a request: `lastError` with its message,
      or the reply (`None` when there is none). */
  datatype Delivery = LastError(message: string) | Replied(reply: Option<Response>)

  /** Why the request's promise rejects, or `None` when it resolves: an ok
      reply resolves; `lastError` rejects with its message, any other reply
      with its error or "Request failed". */
  function Rejection(d: Delivery): (r: Option<string>)
    ensures r.None? <==> d.Replied? && d.reply.Some? && d.reply.value.ok
    ensures d.LastError? ==> r == Some(d.message)
    ensures d.Replied? && d.reply.Some? && !d.reply.value.ok && d.reply.value.error.Some? && d.reply.value.error.value != ""
            ==> r == Some(d.reply.value.error.value)
    ensures d.Replied? && !(d.reply.Some? && d.reply.value.ok)
            && !(d.reply.Some? && d.reply.value.error.Some? && d.reply.value.error.value != "")
            ==> r == Some("Request failed")
    ensures d.Replied? && r.Some? ==> r.value != ""
  {
    match d
    case LastError(m) => Some(m)
    case Replied(reply) =>
      if reply.Some? && reply.value.ok then None
      else if reply.Some? && reply.value.error.Some? then Some(ErrorText(reply.value.error.value, "Request failed"))
      else Some("Request failed")
  }

  /** The requests the panel sends. */
  datatype Request = OpenYoutube(target: Url, settings: PanelSettings) | AddToHistory(url: string)

  /** One rendered history row: the title shown and the link. */
  datatype Row = Row(title: string, url: string)

  /** The panel's state: the history it shows and the copy in local storage,
      the rendered rows, the theme, and what it has sent and alerted. */
  class Panel {
    var historyEntries: seq<HistoryEntry>
    var storedHistory: seq<HistoryEntry>
    var rows: seq<Row>
    var emptyShown: bool
    var theme: Theme
    var toggleChecked: bool
    var storedTheme: Option<Theme>
    var sent: seq<Request>
    var alerts: seq<string>

    constructor(stored: seq<HistoryEntry>)
      ensures historyEntries == [] && storedHistory == stored && rows == [] && emptyShown
      ensures theme == Dark && !toggleChecked && storedTheme.None? && sent == [] && alerts == []
    {
      historyEntries := [];
      storedHistory := stored;
      rows := [];
      emptyShown := true;
      theme := Dark;
      toggleChecked := false;
      storedTheme := None;
      sent := [];
      alerts := [];
    }

    /** The rows show the list: one row per entry in order, titled by the
      normalised title, and the empty notice exactly when there is none. */
    ghost predicate Rendered()
      reads this
    {
      emptyShown == (|historyEntries| == 0)
      && |rows| == |historyEntries|
      && forall i :: 0 <= i < |rows| ==>
           rows[i].url == historyEntries[i].url && rows[i].title == NormalizeTitle(historyEntries[i].title)
    }

    /** `renderHistory()`: one row per entry in order, titled by the
      normalised title; the empty notice exactly when there is none. */
    method RenderHistory()
      modifies this`rows, this`emptyShown
      ensures Rendered()
      ensures emptyShown == (|historyEntries| == 0)
      ensures |rows| == |historyEntries|
      ensures forall i :: 0 <= i < |rows| ==>
        rows[i].url == historyEntries[i].url && rows[i].title == NormalizeTitle(historyEntries[i].title)
      ensures forall i :: 0 <= i < |rows| ==> rows[i].title != "" && IsTrimmed(rows[i].title)
    {
      rows := [];
      if |historyEntries| == 0 {
        emptyShown := true;
        return;
      }
      emptyShown := false;
      var i := 0;
      while i < |historyEntries|
        invariant 0 <= i <= |historyEntries|
        invariant |rows| == i && !emptyShown
        invariant forall k :: 0 <= k < i ==>
          rows[k].url == historyEntries[k].url && rows[k].title == NormalizeTitle(historyEntries[k].title)
      {
        var entry := historyEntries[i];
        rows := rows + [Row(NormalizeTitle(entry.title), entry.url)];
        i := i + 1;
      }
    }

    /** `loadHistory()`: the stored list (`None` when it is not an array)
      replaces the shown one, which is rendered. */
    method LoadHistory(stored: Option<seq<HistoryEntry>>)
      modifies this`historyEntries, this`rows, this`emptyShown
      ensures historyEntries == if stored.Some? then stored.value else []
      ensures Rendered()
    {
      historyEntries := if stored.Some? then stored.value else [];
      RenderHistory();
    }

    /** The storage listener: a change of the history key in local storage
      replaces the shown list (a non-array value by the empty list); other
      changes are ignored. */
    method OnStorageChanged(area: string, hasHistoryKey: bool, newValue: Option<seq<HistoryEntry>>)
      modifies this`historyEntries, this`rows, this`emptyShown
      ensures area == "local" && hasHistoryKey ==>
        historyEntries == (if newValue.Some? then newValue.value else []) && Rendered()
      ensures !(area == "local" && hasHistoryKey) ==>
        historyEntries == old(historyEntries) && rows == old(rows) && emptyShown == old(emptyShown)
    {
      if area == "local" && hasHistoryKey {
        historyEntries := if newValue.Some? then newValue.value else [];
        RenderHistory();
      }
    }

    /** `removeHistoryEntry(url)`: drop exactly the entries with that URL,
      store the list and render it. */
    method RemoveHistoryEntry(url: string)
      modifies this`historyEntries, this`storedHistory, this`rows, this`emptyShown
      ensures historyEntries == RemoveUrl(old(historyEntries), url)
      ensures forall e :: e in historyEntries <==> e in old(historyEntries) && e.url != url
      ensures storedHistory == historyEntries
      ensures Rendered()
    {
      historyEntries := RemoveUrl(historyEntries, url);
      storedHistory := historyEntries;
      RenderHistory();
    }

    /** `applyThemeToDocument(theme)`: the normalised theme on the document
      and the switch. */
    method ApplyTheme(value: JsValue)
      modifies this`theme, this`toggleChecked
      ensures theme == NormalizeTheme(value) && toggleChecked == (theme == Light)
    {
      theme := NormalizeTheme(value);
      toggleChecked := theme == Light;
    }

    /** `setTheme(theme)`: store the normalised theme, then apply it. */
    method SetTheme(value: JsValue)
      modifies this`theme, this`toggleChecked, this`storedTheme
      ensures theme == NormalizeTheme(value) && storedTheme == Some(theme)
      ensures toggleChecked == (theme == Light)
    {
      storedTheme := Some(NormalizeTheme(value));
      ApplyTheme(value);
    }

    /** The theme switch: checked means light, unchecked dark. */
    method OnThemeToggle(checked: bool)
      modifies this`theme, this`toggleChecked, this`storedTheme
      ensures toggleChecked == checked && storedTheme == Some(theme)
      ensures theme == if checked then Light else Dark
    {
      SetTheme(Text(if checked then "light" else "dark"));
    }

    /** `startPlayback(rawUrl)`: `parsed` is the parse of the trimmed URL and
      the form fields are as `ReadSettings` takes them; `openDelivery` and
      `addDelivery` are how the two requests are answered. A URL that is not
      a YouTube link, or whose protocol is not http(s), is refused with an
      alert and nothing is sent. Otherwise the popup is requested with the
      autoplay-adjusted URL and, only when that succeeds, the trimmed URL as
      typed is added to the history; either failure is alerted. */
    method StartPlayback(rawUrl: string, parsed: Option<Url>, widthText: Option<int>, heightText: Option<int>,
                         checkedPosition: Option<string>, autoNext: bool,
                         openDelivery: Delivery, addDelivery: Delivery)
      modifies this`sent, this`alerts
      ensures !IsValidYoutubeUrl(Trim(rawUrl), parsed) ==>
        sent == old(sent) && alerts == old(alerts) + ["Please enter a valid YouTube URL."]
      ensures IsValidYoutubeUrl(Trim(rawUrl), parsed) && BuildPlayableUrl(parsed, autoNext).None? ==>
        sent == old(sent) && alerts == old(alerts) + ["Unable to process the provided URL."]
      ensures IsValidYoutubeUrl(Trim(rawUrl), parsed) && BuildPlayableUrl(parsed, autoNext).Some? ==>
        var open := OpenYoutube(BuildPlayableUrl(parsed, autoNext).value,
                                ReadSettings(widthText, heightText, checkedPosition, autoNext));
        (Rejection(openDelivery).Some? ==>
           sent == old(sent) + [open]
           && alerts == old(alerts) + [ErrorText(Rejection(openDelivery).value, "Unable to open PiP window.")])
        && (Rejection(openDelivery).None? ==>
              sent == old(sent) + [open, AddToHistory(Trim(rawUrl))]
              && alerts == old(alerts)
                 + (if Rejection(addDelivery).Some?
                    then [ErrorText(Rejection(addDelivery).value, "Unable to open PiP window.")] else []))
    {
      var urlValue := Trim(rawUrl);
      if !IsValidYoutubeUrl(urlValue, parsed) {
        alerts := alerts + ["Please enter a valid YouTube URL."];
        return;
      }
      var settings := ReadSettings(widthText, heightText, checkedPosition, autoNext);
      var finalUrl := BuildPlayableUrl(parsed, settings.autoNext);
      if finalUrl.None? {
        alerts := alerts + ["Unable to process the provided URL."];
        return;
      }
      sent := sent + [OpenYoutube(finalUrl.value, settings)];
      var failure := Rejection(openDelivery);
      if failure.None? {
        sent := sent + [AddToHistory(urlValue)];
        failure := Rejection(addDelivery);
      }
      if failure.Some? {
        alerts := alerts + [ErrorText(failure.value, "Unable to open PiP window.")];
      }
    }
  }
}

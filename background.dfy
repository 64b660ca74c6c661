/** The background service worker (background.js): the single popup window it
    tracks, the geometry it gives that window, the ordered set-up of the new
    tab, the viewing history and the runtime-message dispatcher.
    Browser calls are recorded in a trace of `HostCall`s, and what the browser
    answers is read from a `HostScript` value. */
module Background {
  import opened Wrappers
  import opened Strings
  import opened Web
  import opened History
  import opened Layout
  import Messages

  const DefaultWidth: real := 640.0
  const DefaultHeight: real := 360.0
  const DefaultPosition := "bottom-right"
  const MiniWindowName := "chill-mini-window"
  const ExtensionMarker := "ypip_ext"
  const Margin: real := 16.0
  const MissingWindowText := "No window with id"

  /** A JavaScript number after `Number(...)`. */
  datatype JsNumber = Finite(value: real) | NaN | PosInfinity | NegInfinity

  /** JavaScript truthiness of a number: everything except 0 and NaN. */
  predicate Truthy(x: JsNumber) {
    !(x.NaN? || (x.Finite? && x.value == 0.0))
  }

  function Max(a: real, b: real): real { if a < b then b else a }
  function Min(a: real, b: real): real { if a < b then a else b }

  /** `clampNumber(value, min, max)` of background.js: NaN and every value
      that is not positive give `min`, the rest is clamped into [min, max]. */
  function ClampNumber(value: JsNumber, min: real, max: real): (r: real)
    requires 0.0 < min <= max
    ensures min <= r <= max
    ensures value.NaN? || value.NegInfinity? || (value.Finite? && value.value <= 0.0) ==> r == min
    ensures value.Finite? && min <= value.value <= max ==> r == value.value
    ensures value.PosInfinity? || (value.Finite? && value.value > max) ==> r == max
    ensures value.Finite? && 0.0 < value.value < min ==> r == min
  {
    match value
    case NaN => min
    case NegInfinity => min
    case PosInfinity => max
    case Finite(v) => if v <= 0.0 then min else Min(Max(v, min), max)
  }

  /** The `payload` of an open request: absent (the `= {}` default applies),
      `null`, or an object. */
  datatype PayloadArg = Absent | Null | Given(payload: Payload)

  /** The fields `normalizePayload` reads. `url` is "" when the field is
      missing or empty, and `parsedUrl` is what `new URL(url)` gives (`None`
      when it throws); `width` and `height` are `Number(...)` of the fields;
      `position` is `None` unless the field is a string. */
  datatype Payload = Payload(url: string, parsedUrl: Option<Url>, width: JsNumber, height: JsNumber,
                             position: Option<string>)

  /** The result of `normalizePayload`. */
  datatype WindowRequest = WindowRequest(url: string, parsedUrl: Option<Url>, width: real, height: real,
                                         position: string)

  /** The message of the `TypeError` that reading `payload.width` on `null` raises. */
  const NullPayloadText := "Cannot read properties of null (reading 'width')"

  /** `normalizePayload(payload)`: a falsy width or height (0, NaN) takes the
      default before clamping to [200, 2000] and [150, 1500]; a position that
      is not a string becomes "bottom-right". */
  function NormalizePayload(arg: PayloadArg): (r: Result<WindowRequest>)
    ensures arg.Null? <==> r.Failure?
    ensures r.Success? ==> 200.0 <= r.value.width <= 2000.0 && 150.0 <= r.value.height <= 1500.0
    ensures arg.Absent? ==> r == Success(WindowRequest("", None, DefaultWidth, DefaultHeight, DefaultPosition))
    ensures arg.Given? ==> r.Success? && r.value.url == arg.payload.url
    ensures arg.Given? && !Truthy(arg.payload.width) ==> r.value.width == DefaultWidth
    ensures arg.Given? && !Truthy(arg.payload.height) ==> r.value.height == DefaultHeight
    ensures arg.Given? && arg.payload.width.Finite? && arg.payload.width.value < 0.0 ==> r.value.width == 200.0
    ensures arg.Given? && arg.payload.height.Finite? && arg.payload.height.value < 0.0 ==> r.value.height == 150.0
    ensures arg.Given? && arg.payload.width.Finite? && 200.0 <= arg.payload.width.value <= 2000.0
            ==> r.value.width == arg.payload.width.value
    ensures arg.Given? && arg.payload.height.Finite? && 150.0 <= arg.payload.height.value <= 1500.0
            ==> r.value.height == arg.payload.height.value
    ensures arg.Given? ==> r.value.position == if arg.payload.position.Some? then arg.payload.position.value
                                               else DefaultPosition
  {
    match arg
    case Null => Failure(NullPayloadText)
    case Absent =>
      var w := ClampNumber(Finite(DefaultWidth), 200.0, 2000.0);
      var h := ClampNumber(Finite(DefaultHeight), 150.0, 1500.0);
      Success(WindowRequest("", None, w, h, DefaultPosition))
    case Given(p) =>
      var w := ClampNumber(if Truthy(p.width) then p.width else Finite(DefaultWidth), 200.0, 2000.0);
      var h := ClampNumber(if Truthy(p.height) then p.height else Finite(DefaultHeight), 150.0, 1500.0);
      var position := if p.position.Some? then p.position.value else DefaultPosition;
      Success(WindowRequest(p.url, p.parsedUrl, w, h, position))
  }

  /** A rectangle of the screen, in pixels. */
  datatype Rect = Rect(left: real, top: real, width: real, height: real)

  datatype Point = Point(left: real, top: real)

  /** `calculatePosition`: a name outside the four presets means
      bottom-right; a left preset sits 16 px from the left edge of the work
      area and a top preset 16 px from its top, the others 16 px inside the
      right or bottom edge; the result is only kept from going left of or
      above the work area. */
  function CalculatePosition(bounds: Rect, width: real, height: real, position: string): (r: Point)
    ensures r.left >= bounds.left && r.top >= bounds.top
    ensures OnLeft(ParseCorner(position)) ==> r.left == bounds.left + Margin
    ensures !OnLeft(ParseCorner(position)) ==> r.left == Max(bounds.left, bounds.left + bounds.width - width - Margin)
    ensures OnTop(ParseCorner(position)) ==> r.top == bounds.top + Margin
    ensures !OnTop(ParseCorner(position)) ==> r.top == Max(bounds.top, bounds.top + bounds.height - height - Margin)
  {
    var corner := ParseCorner(position);
    var left := if OnLeft(corner) then bounds.left + Margin else bounds.left + bounds.width - width - Margin;
    var top := if OnTop(corner) then bounds.top + Margin else bounds.top + bounds.height - height - Margin;
    Point(Max(bounds.left, left), Max(bounds.top, top))
  }

  /** The source picks the side with `includes("left")` and `includes("top")`
      on the normalised name; those tests agree with the corner's side. */
  lemma PlacementFollowsNameTests(bounds: Rect, width: real, height: real, position: string)
    ensures var name := CornerName(ParseCorner(position));
      var p := CalculatePosition(bounds, width, height, position);
      (Contains(name, "left") ==> p.left == bounds.left + Margin)
      && (!Contains(name, "left") ==> p.left == Max(bounds.left, bounds.left + bounds.width - width - Margin))
      && (Contains(name, "top") ==> p.top == bounds.top + Margin)
      && (!Contains(name, "top") ==> p.top == Max(bounds.top, bounds.top + bounds.height - height - Margin))
  {
    CornerNameSides(ParseCorner(position));
  }

  /** A name outside the four presets is placed exactly like "bottom-right". */
  lemma UnknownPositionIsBottomRight(bounds: Rect, width: real, height: real, position: string)
    requires position !in {"bottom-right", "top-right", "bottom-left", "top-left"}
    ensures CalculatePosition(bounds, width, height, position)
            == CalculatePosition(bounds, width, height, DefaultPosition)
  {
  }

  /** A window that is at least 32 px narrower and lower than the work area
      lies inside it, 16 px clear of every edge it is placed against. */
  lemma PlacementFitsSmallWindow(bounds: Rect, width: real, height: real, position: string)
    requires 0.0 <= width && width + 2.0 * Margin <= bounds.width
    requires 0.0 <= height && height + 2.0 * Margin <= bounds.height
    ensures var p := CalculatePosition(bounds, width, height, position);
      bounds.left + Margin <= p.left && p.left + width + Margin <= bounds.left + bounds.width
      && bounds.top + Margin <= p.top && p.top + height + Margin <= bounds.top + bounds.height
  {
  }

  /** Nothing bounds the right edge: a 2000 px bottom-right window on a
      1920 px work area is pushed back to the left edge and sticks out 80 px. */
  lemma WideWindowOverflows()
    ensures var bounds := Rect(0.0, 0.0, 1920.0, 1080.0);
      var p := CalculatePosition(bounds, 2000.0, 360.0, "bottom-right");
      p.left == 0.0 && p.left + 2000.0 > bounds.left + bounds.width
  {
    assert ParseCorner("bottom-right") == BottomRight;
  }

  /** An oversize top-left request is clamped to 2000 by 150 and placed 16 px
      into the corner. */
  lemma OversizeTopLeftRequest()
    ensures var r := NormalizePayload(Given(Payload("u", None, Finite(3000.0), Finite(100.0), Some("top-left"))));
      r == Success(WindowRequest("u", None, 2000.0, 150.0, "top-left"))
      && CalculatePosition(Rect(0.0, 0.0, 1920.0, 1080.0), r.value.width, r.value.height, r.value.position)
         == Point(16.0, 16.0)
  {
    assert ParseCorner("top-left") == TopLeft;
  }

  /** The URL the popup opens: the parsed URL with `ypip_ext=1` set, or the raw
      text when it does not parse. */
  datatype LaunchUrl = Tagged(url: Url) | Raw(text: string)

  /** `tagUrlForExtension(rawUrl)`. */
  function TagUrlForExtension(raw: string, parsed: Option<Url>): (r: LaunchUrl)
    ensures parsed.None? <==> r == Raw(raw)
    ensures r.Tagged? ==> GetParam(r.url.params, ExtensionMarker) == Some("1")
    ensures r.Tagged? ==> DeleteParam(r.url.params, ExtensionMarker) == DeleteParam(parsed.value.params, ExtensionMarker)
    ensures r.Tagged? ==> r.url.protocol == parsed.value.protocol && r.url.hostname == parsed.value.hostname
                          && r.url.pathname == parsed.value.pathname
  {
    match parsed
    case None => Raw(raw)
    case Some(u) => Tagged(u.(params := SetParam(u.params, ExtensionMarker, "1")))
  }

  /** One display as `chrome.system.display.getInfo` reports it. */
  datatype Display = Display(isPrimary: bool, workArea: Option<Rect>, bounds: Option<Rect>)

  /** The answer of `getInfo`: `runtime.lastError` with its message, or the list. */
  datatype DisplayQuery = DisplayError(message: string) | Displays(displays: seq<Display>)

  /** `displays.find((display) => display.isPrimary)`. */
  function FindPrimary(ds: seq<Display>): (r: Option<nat>)
    ensures r.Some? ==> r.value < |ds| && ds[r.value].isPrimary
    ensures r.Some? ==> forall i :: 0 <= i < r.value ==> !ds[i].isPrimary
    ensures r.None? ==> forall i :: 0 <= i < |ds| ==> !ds[i].isPrimary
    decreases |ds|
  {
    if |ds| == 0 then None
    else if ds[0].isPrimary then Some(0)
    else
      var rest := FindPrimary(ds[1..]);
      if rest.None? then None else Some(rest.value + 1)
  }

  /** `getPrimaryDisplay` followed by `workArea || bounds`: the first primary
      display, or the first display, gives its work area, else its bounds. */
  function PrimaryBounds(q: DisplayQuery): (r: Result<Rect>)
    ensures q.DisplayError? ==> r == Failure(q.message)
    ensures q.Displays? && |q.displays| == 0 ==> r == Failure("No displays detected")
    ensures q.Displays? && |q.displays| > 0 ==>
      var k := FindPrimary(q.displays);
      var d := if k.Some? then q.displays[k.value] else q.displays[0];
      (r.Success? <==> d.workArea.Some? || d.bounds.Some?)
      && (r.Success? ==> d.workArea == Some(r.value) || (d.workArea.None? && d.bounds == Some(r.value)))
      && (r.Failure? ==> r.error == "Unable to read display bounds")
  {
    match q
    case DisplayError(m) => Failure(m)
    case Displays(ds) =>
      if |ds| == 0 then Failure("No displays detected")
      else
        var k := FindPrimary(ds);
        var d := if k.Some? then ds[k.value] else ds[0];
        if d.workArea.Some? then Success(d.workArea.value)
        else if d.bounds.Some? then Success(d.bounds.value)
        else Failure("Unable to read display bounds")
  }

  /** The answer of `chrome.windows.create`: failure, or the new window's id and
      the id of its first tab, each `None` when absent or not a number. */
  datatype CreateResult = CreateFailed(message: string) | Created(windowId: Option<int>, tabId: Option<int>)

  /** Every browser call the background makes, in the order it makes them. */
  datatype HostCall =
    | RemoveWindow(windowId: int)
    | MinimizeWindow(windowId: int)
    | GetDisplayInfo
    | CreateWindow(launch: LaunchUrl, width: real, height: real, left: real, top: real)
    | WaitForTab(tab: int)
    | MarkMiniWindow(tab: int, name: string)
    | InsertCss(tab: int)
    | ExecuteScript(tab: int)
    | NotifyMiniMode(tab: int, position: string)
    | ReadHistory
    | WriteHistory(entries: seq<HistoryEntry>)
    | OpenSidePanel(windowId: int)

  /** What the browser answers to each call of one request. `fetchedTitle` is
      the oEmbed title (`None` when the fetch fails or has no string title);
      `now` is `Date.now()`. */
  datatype HostScript = HostScript(
    removeResult: Outcome,
    minimizeResult: Outcome,
    displays: DisplayQuery,
    created: CreateResult,
    markResult: Outcome,
    cssResult: Outcome,
    jsResult: Outcome,
    notifyResult: Outcome,
    historyRead: Outcome,
    historyWrite: Outcome,
    fetchedTitle: Option<string>,
    now: int)

  /** `!activeWindowId` is false: an id is stored and it is not 0. */
  predicate Tracked(id: Option<int>) {
    id.Some? && id.value != 0
  }

  /** A failed remove or minimise whose message says the window is already gone. */
  predicate WindowAlreadyGone(o: Outcome) {
    o.Err? && Contains(o.message, MissingWindowText)
  }

  /** The `console.warn` lines the background logs, by kind. */
  datatype Warning = CloseFailed | MarkFailed | CssFailed | ScriptFailed | NotifyFailed

  function WarningText(w: Warning): string {
    match w
    case CloseFailed => "Failed to close PiP window"
    case MarkFailed => "Failed to mark mini window"
    case CssFailed => "Failed to inject CSS"
    case ScriptFailed => "Failed to inject JS"
    case NotifyFailed => "Unable to notify mini mode"
  }

  datatype Effects = Effects(calls: seq<HostCall>, warnings: seq<Warning>)

  /** The calls and warnings of `closeActiveWindow`. */
  function ClosePlan(active: Option<int>, removeResult: Outcome): (e: Effects)
    ensures !Tracked(active) ==> e == Effects([], [])
    ensures Tracked(active) ==> e.calls == [RemoveWindow(active.value)]
    ensures |e.warnings| <= 1 && (|e.warnings| == 1 <==> Tracked(active) && removeResult.Err? && !WindowAlreadyGone(removeResult))
  {
    if !Tracked(active) then Effects([], [])
    else if removeResult.Err? && !WindowAlreadyGone(removeResult) then
      Effects([RemoveWindow(active.value)], [CloseFailed])
    else Effects([RemoveWindow(active.value)], [])
  }

  /** The tracked id after `closeActiveWindow`: cleared when it was tracked. */
  function AfterClose(active: Option<int>): (r: Option<int>)
    ensures !Tracked(r)
    ensures Tracked(active) ==> r.None?
    ensures !Tracked(active) ==> r == active
  {
    if Tracked(active) then None else active
  }

  /** `position || "bottom-right"`, the corner `notifyMiniMode` sends. */
  function NotifiedPosition(position: string): (r: string)
    ensures r != ""
    ensures position != "" ==> r == position
  {
    if position == "" then DefaultPosition else position
  }

  /** The set-up of a new tab: wait for it to load, name the window, insert the
      CSS, run the script, then announce mini mode. A failure of any step is
      only a warning: every step runs, in this order, whatever the others answer. */
  function InjectionPlan(tab: int, position: string, host: HostScript): (e: Effects)
    ensures e.calls == [WaitForTab(tab), MarkMiniWindow(tab, MiniWindowName), InsertCss(tab), ExecuteScript(tab),
                        NotifyMiniMode(tab, NotifiedPosition(position))]
    ensures MarkFailed in e.warnings <==> host.markResult.Err?
    ensures CssFailed in e.warnings <==> host.cssResult.Err?
    ensures ScriptFailed in e.warnings <==> host.jsResult.Err?
    ensures NotifyFailed in e.warnings <==> host.notifyResult.Err?
    ensures |e.warnings| <= 4
  {
    var w := Warn(host.markResult, MarkFailed) + Warn(host.cssResult, CssFailed)
           + Warn(host.jsResult, ScriptFailed) + Warn(host.notifyResult, NotifyFailed);
    Effects([WaitForTab(tab), MarkMiniWindow(tab, MiniWindowName), InsertCss(tab), ExecuteScript(tab),
             NotifyMiniMode(tab, NotifiedPosition(position))], w)
  }

  /** The warning a failed step logs. */
  function Warn(o: Outcome, text: Warning): (r: seq<Warning>)
    ensures text in r <==> o.Err?
    ensures forall t :: t in r ==> t == text
    ensures |r| <= 1
  {
    if o.Err? then [text] else []
  }

  /** What `openYoutubeWindow` does: the calls, the warnings, the tracked id
      afterwards and the outcome. */
  datatype OpenEffect = OpenEffect(calls: seq<HostCall>, warnings: seq<Warning>, activeWindowId: Option<int>,
                                   result: Outcome)

  /** What follows the `chrome.windows.create` call `create`, with `active`
      the id tracked before it: a failure leaves everything as it was; a
      window is tracked and, when it has a tab, the tab is set up. */
  function AfterCreate(create: HostCall, position: string, host: HostScript, active: Option<int>): (e: OpenEffect)
    ensures |e.calls| >= 1 && e.calls[0] == create
    ensures forall i :: 1 <= i < |e.calls| ==> !e.calls[i].CreateWindow?
    ensures e.result.Err? ==> e.activeWindowId == active && e.warnings == []
    ensures e.result.Ok? <==> host.created.Created?
    ensures e.result.Ok? ==> e.activeWindowId == host.created.windowId
  {
    match host.created
    case CreateFailed(m) => OpenEffect([create], [], active, Err(m))
    case Created(windowId, tabId) =>
      var setUp := if tabId.Some? then InjectionPlan(tabId.value, position, host) else Effects([], []);
      var e := OpenEffect([create] + setUp.calls, setUp.warnings, windowId, Ok);
      assert forall i :: 1 <= i < |e.calls| ==> e.calls[i] == setUp.calls[i - 1];
      e
  }

  /** Everything `openYoutubeWindow` does after closing the old window, with
      `active` the id left tracked by the close: read the display, create the
      window where `calculatePosition` puts it, track it and set up its tab. */
  function LaunchPlan(req: WindowRequest, host: HostScript, active: Option<int>): (e: OpenEffect)
    ensures |e.calls| >= 1 && e.calls[0] == GetDisplayInfo
    ensures forall i :: 0 <= i < |e.calls| && e.calls[i].CreateWindow? ==> i == 1
    ensures e.result.Err? ==> e.activeWindowId == active && e.warnings == []
    ensures e.result.Ok? <==> PrimaryBounds(host.displays).Success? && host.created.Created?
    ensures e.result.Ok? ==> e.activeWindowId == host.created.windowId
    ensures PrimaryBounds(host.displays).Failure? ==> e.calls == [GetDisplayInfo]
  {
    match PrimaryBounds(host.displays)
    case Failure(m) => OpenEffect([GetDisplayInfo], [], active, Err(m))
    case Success(bounds) =>
      var at := CalculatePosition(bounds, req.width, req.height, req.position);
      var create := CreateWindow(TagUrlForExtension(req.url, req.parsedUrl), req.width, req.height, at.left, at.top);
      var c := AfterCreate(create, req.position, host, active);
      var e := c.(calls := [GetDisplayInfo] + c.calls);
      assert forall i :: 1 <= i < |e.calls| ==> e.calls[i] == c.calls[i - 1];
      e
  }

  /** `openYoutubeWindow(payload)`, starting with `active` tracked. */
  function OpenPlan(active: Option<int>, arg: PayloadArg, host: HostScript): (e: OpenEffect)
    ensures e.calls == [] <==> NormalizePayload(arg).Failure? || NormalizePayload(arg).value.url == ""
    ensures e.calls == [] ==> e.activeWindowId == active && e.warnings == [] && e.result.Err?
    ensures e.result.Ok? ==> host.created.Created? && e.activeWindowId == host.created.windowId
  {
    match NormalizePayload(arg)
    case Failure(m) => OpenEffect([], [], active, Err(m))
    case Success(req) =>
      if req.url == "" then OpenEffect([], [], active, Err("Missing URL"))
      else
        var close := ClosePlan(active, host.removeResult);
        var launch := LaunchPlan(req, host, AfterClose(active));
        OpenEffect(close.calls + launch.calls, close.warnings + launch.warnings, launch.activeWindowId, launch.result)
  }

  /** "Missing URL" is raised before anything is closed or created, and a
      `null` payload fails the same way with its `TypeError`. */
  lemma OpenWithoutUrlTouchesNothing(active: Option<int>, arg: PayloadArg, host: HostScript)
    requires arg.Null? || arg.Absent? || (arg.Given? && arg.payload.url == "")
    ensures OpenPlan(active, arg, host).calls == []
    ensures OpenPlan(active, arg, host).activeWindowId == active
    ensures OpenPlan(active, arg, host).result
            == if arg.Null? then Err(NullPayloadText) else Err("Missing URL")
  {
  }

  /** With a URL, a tracked window is removed first, then the display is read,
      and a window is created at most once, right after that. */
  lemma OpenClosesBeforeCreating(active: Option<int>, arg: PayloadArg, host: HostScript)
    requires arg.Given? && arg.payload.url != ""
    ensures var e := OpenPlan(active, arg, host);
      var n := if Tracked(active) then 1 else 0;
      n < |e.calls| && e.calls[n] == GetDisplayInfo
      && (Tracked(active) ==> e.calls[0] == RemoveWindow(active.value))
      && (forall i :: 0 <= i < |e.calls| && e.calls[i].CreateWindow? ==> i == n + 1)
  {
    var req := NormalizePayload(arg).value;
    var close := ClosePlan(active, host.removeResult);
    var launch := LaunchPlan(req, host, AfterClose(active));
    var e := OpenPlan(active, arg, host);
    assert e.calls == close.calls + launch.calls;
    var n := |close.calls|;
    forall i | 0 <= i < |e.calls|
      ensures e.calls[i].CreateWindow? ==> i == n + 1
    {
      if i < n {
        assert e.calls[i] == close.calls[i];
      } else {
        assert e.calls[i] == launch.calls[i - n];
      }
    }
  }

  /** Once the window exists the request succeeds whatever the set-up steps
      answer, the new id is tracked, and a numeric first tab gets the whole
      set-up sequence, in order, as the last calls. */
  lemma OpenSetsUpCreatedTab(active: Option<int>, arg: PayloadArg, host: HostScript, tab: int)
    requires arg.Given? && arg.payload.url != ""
    requires PrimaryBounds(host.displays).Success?
    requires host.created.Created? && host.created.tabId == Some(tab)
    ensures var e := OpenPlan(active, arg, host);
      var position := NormalizePayload(arg).value.position;
      e.result == Ok && e.activeWindowId == host.created.windowId
      && |e.calls| >= 5
      && e.calls[|e.calls| - 5..] == [WaitForTab(tab), MarkMiniWindow(tab, MiniWindowName), InsertCss(tab),
                                     ExecuteScript(tab), NotifyMiniMode(tab, NotifiedPosition(position))]
  {
    var req := NormalizePayload(arg).value;
    var close := ClosePlan(active, host.removeResult);
    var launch := LaunchPlan(req, host, AfterClose(active));
    var inj := InjectionPlan(tab, req.position, host);
    assert launch.calls[|launch.calls| - 5..] == inj.calls;
    var e := OpenPlan(active, arg, host);
    assert e.calls[|e.calls| - 5..] == launch.calls[|launch.calls| - 5..];
  }

  /** A failed open never leaves the old window tracked once it got past the URL check. */
  lemma FailedOpenForgetsOldWindow(active: Option<int>, arg: PayloadArg, host: HostScript)
    requires arg.Given? && arg.payload.url != ""
    requires OpenPlan(active, arg, host).result.Err?
    ensures !Tracked(OpenPlan(active, arg, host).activeWindowId)
  {
  }

  /** The reply the dispatcher sends for an outcome: `{ok: true}`, or
      `{ok: false, error: message || fallback}`. */
  function ReplyFor(o: Outcome, fallback: string): (r: Messages.Response)
    requires fallback != ""
    ensures r.ok <==> o.Ok?
    ensures r.ok ==> r.error.None?
    ensures !r.ok ==> r.error.Some? && r.error.value != ""
    ensures o.Err? && o.message != "" ==> r.error == Some(o.message)
  {
    if o.Ok? then Messages.Response(true, None)
    else Messages.Response(false, Some(ErrorText(o.message, fallback)))
  }

  /** A runtime message: `message?.type` and `message.payload`. */
  datatype RuntimeMessage = RuntimeMessage(kind: Option<string>, payload: PayloadArg)

  /** `_sender?.tab?.id` and `_sender?.tab?.windowId`. */
  datatype Sender = Sender(tabId: Option<int>, windowId: Option<int>)

  /** The four message types the dispatcher answers. */
  predicate Handled(kind: Option<string>) {
    kind.Some? && kind.value in {"OPEN_YOUTUBE", "STOP_YOUTUBE", "ADD_TO_HISTORY", Messages.MinimizeWindowType}
  }

  /** `message?.payload?.url` and its parse. */
  function PayloadUrl(arg: PayloadArg): (r: (string, Option<Url>))
    ensures !arg.Given? ==> r == ("", None)
  {
    if arg.Given? then (arg.payload.url, arg.payload.parsedUrl) else ("", None)
  }

  /** The new history entry for `url`, stamped with `now`. */
  function NewEntry(url: string, host: HostScript): (r: HistoryEntry)
    ensures r.url == url && r.addedAt == host.now
    ensures r.title.Some? && r.title.value != "" && IsTrimmed(r.title.value)
  {
    HistoryEntry(url, Some(NormalizeTitle(host.fetchedTitle)), host.now)
  }

  lemma AppendAssociates<T>(a: seq<T>, b: seq<T>, c: seq<T>)
    ensures (a + b) + c == a + (b + c)
  {
  }

  /** The background's state: the tracked popup window, the stored history, and
      the trace of browser calls and warnings it has made. */
  class PopupController {
    var activeWindowId: Option<int>
    var storedHistory: seq<HistoryEntry>
    var calls: seq<HostCall>
    var warnings: seq<Warning>

    constructor(stored: seq<HistoryEntry>)
      ensures activeWindowId.None? && storedHistory == stored && calls == [] && warnings == []
    {
      activeWindowId := None;
      storedHistory := stored;
      calls := [];
      warnings := [];
    }

    /** `chrome.windows.onRemoved`: forget the tracked window when it is the one removed. */
    method OnWindowRemoved(windowId: int)
      modifies this`activeWindowId
      ensures activeWindowId == if old(activeWindowId) == Some(windowId) then None else old(activeWindowId)
    {
      if activeWindowId == Some(windowId) {
        activeWindowId := None;
      }
    }

    /** `closeActiveWindow`: no call without a tracked window; otherwise remove
      it, warn unless it was already gone, and forget it in every case. */
    method CloseActiveWindow(removeResult: Outcome)
      modifies this`activeWindowId, this`calls, this`warnings
      ensures calls == old(calls) + ClosePlan(old(activeWindowId), removeResult).calls
      ensures warnings == old(warnings) + ClosePlan(old(activeWindowId), removeResult).warnings
      ensures activeWindowId == AfterClose(old(activeWindowId))
    {
      if !Tracked(activeWindowId) {
        return;
      }
      calls := calls + [RemoveWindow(activeWindowId.value)];
      if removeResult.Err? && !WindowAlreadyGone(removeResult) {
        warnings := warnings + [CloseFailed];
      }
      activeWindowId := None;
    }

    /** `minimizeActiveWindow`: nothing without a tracked window; a failure
      other than "No window with id" is passed on. */
    method MinimizeActiveWindow(minimizeResult: Outcome) returns (result: Outcome)
      modifies this`calls
      ensures !Tracked(activeWindowId) ==> calls == old(calls) && result == Ok
      ensures Tracked(activeWindowId) ==> calls == old(calls) + [MinimizeWindow(activeWindowId.value)]
      ensures Tracked(activeWindowId) && minimizeResult.Err? && !WindowAlreadyGone(minimizeResult)
              ==> result == minimizeResult
      ensures !(Tracked(activeWindowId) && minimizeResult.Err? && !WindowAlreadyGone(minimizeResult))
              ==> result == Ok
    {
      if !Tracked(activeWindowId) {
        return Ok;
      }
      calls := calls + [MinimizeWindow(activeWindowId.value)];
      if minimizeResult.Err? && !WindowAlreadyGone(minimizeResult) {
        return minimizeResult;
      }
      return Ok;
    }

    /** One set-up step whose failure is only logged. */
    method TolerantStep(call: HostCall, outcome: Outcome, warning: Warning)
      modifies this`calls, this`warnings
      ensures calls == old(calls) + [call]
      ensures warnings == old(warnings) + Warn(outcome, warning)
    {
      calls := calls + [call];
      if outcome.Err? {
        warnings := warnings + [warning];
      }
    }

    /** The part of `openYoutubeWindow` after the old window is closed. */
    method Launch(req: WindowRequest, host: HostScript) returns (result: Outcome)
      modifies this`activeWindowId, this`calls, this`warnings
      ensures var e := LaunchPlan(req, host, old(activeWindowId));
        calls == old(calls) + e.calls && warnings == old(warnings) + e.warnings
        && activeWindowId == e.activeWindowId && result == e.result
    {
      calls := calls + [GetDisplayInfo];
      var bounds := PrimaryBounds(host.displays);
      if bounds.Failure? {
        return Err(bounds.error);
      }
      var at := CalculatePosition(bounds.value, req.width, req.height, req.position);
      var create := CreateWindow(TagUrlForExtension(req.url, req.parsedUrl), req.width, req.height, at.left, at.top);
      ghost var c := AfterCreate(create, req.position, host, old(activeWindowId));
      result := CreateAndSetUp(create, req.position, host);
      AppendAssociates(old(calls), [GetDisplayInfo], c.calls);
    }

    /** The create call `create` and what follows it, as `AfterCreate` says. */
    method CreateAndSetUp(create: HostCall, position: string, host: HostScript) returns (result: Outcome)
      modifies this`activeWindowId, this`calls, this`warnings
      ensures var e := AfterCreate(create, position, host, old(activeWindowId));
        calls == old(calls) + e.calls && warnings == old(warnings) + e.warnings
        && activeWindowId == e.activeWindowId && result == e.result
    {
      calls := calls + [create];
      if host.created.CreateFailed? {
        return Err(host.created.message);
      }
      activeWindowId := host.created.windowId;
      if host.created.tabId.Some? {
        ghost var setUp := InjectionPlan(host.created.tabId.value, position, host);
        AppendAssociates(old(calls), [create], setUp.calls);
        SetUpTab(host.created.tabId.value, position, host);
      }
      return Ok;
    }

    /** The four tolerant set-up steps after waiting for the tab to load. */
    method SetUpTab(tab: int, position: string, host: HostScript)
      modifies this`calls, this`warnings
      ensures calls == old(calls) + InjectionPlan(tab, position, host).calls
      ensures warnings == old(warnings) + InjectionPlan(tab, position, host).warnings
    {
      ghost var c0, w0 := calls, warnings;
      var notify := NotifyMiniMode(tab, NotifiedPosition(position));
      calls := calls + [WaitForTab(tab)];
      TolerantStep(MarkMiniWindow(tab, MiniWindowName), host.markResult, MarkFailed);
      assert calls == c0 + [WaitForTab(tab), MarkMiniWindow(tab, MiniWindowName)];
      TolerantStep(InsertCss(tab), host.cssResult, CssFailed);
      assert calls == c0 + [WaitForTab(tab), MarkMiniWindow(tab, MiniWindowName), InsertCss(tab)];
      TolerantStep(ExecuteScript(tab), host.jsResult, ScriptFailed);
      assert calls == c0 + [WaitForTab(tab), MarkMiniWindow(tab, MiniWindowName), InsertCss(tab), ExecuteScript(tab)];
      TolerantStep(notify, host.notifyResult, NotifyFailed);
      assert calls == c0 + [WaitForTab(tab), MarkMiniWindow(tab, MiniWindowName), InsertCss(tab), ExecuteScript(tab),
                            notify];
      assert warnings == w0 + (Warn(host.markResult, MarkFailed) + Warn(host.cssResult, CssFailed)
                               + Warn(host.jsResult, ScriptFailed) + Warn(host.notifyResult, NotifyFailed));
    }

    /** `openYoutubeWindow(payload)`. */
    method OpenYoutubeWindow(arg: PayloadArg, host: HostScript) returns (result: Outcome)
      modifies this`activeWindowId, this`calls, this`warnings
      ensures var e := OpenPlan(old(activeWindowId), arg, host);
        calls == old(calls) + e.calls && warnings == old(warnings) + e.warnings
        && activeWindowId == e.activeWindowId && result == e.result
    {
      var normalized := NormalizePayload(arg);
      if normalized.Failure? {
        return Err(normalized.error);
      }
      var req := normalized.value;
      if req.url == "" {
        return Err("Missing URL");
      }
      ghost var close := ClosePlan(activeWindowId, host.removeResult);
      ghost var launch := LaunchPlan(req, host, AfterClose(activeWindowId));
      assert OpenPlan(activeWindowId, arg, host)
          == OpenEffect(close.calls + launch.calls, close.warnings + launch.warnings, launch.activeWindowId,
                        launch.result);
      CloseActiveWindow(host.removeResult);
      result := Launch(req, host);
      AppendAssociates(old(calls), close.calls, launch.calls);
      AppendAssociates(old(warnings), close.warnings, launch.warnings);
    }

    /** `addUrlToHistory(url)`: reject a non-YouTube link; otherwise read the
      history, put the new entry first, drop older entries with its URL, keep
      30 and write the list back. */
    method AddUrlToHistory(url: string, parsed: Option<Url>, host: HostScript) returns (result: Outcome)
      modifies this`calls, this`storedHistory
      ensures !IsValidYoutubeUrl(url, parsed) ==>
        result == Err("URL must be a YouTube link") && calls == old(calls) && storedHistory == old(storedHistory)
      ensures IsValidYoutubeUrl(url, parsed) && host.historyRead.Err? ==>
        result == host.historyRead && calls == old(calls) + [ReadHistory] && storedHistory == old(storedHistory)
      ensures IsValidYoutubeUrl(url, parsed) && host.historyRead.Ok? ==>
        var updated := UpdateHistory(old(storedHistory), NewEntry(url, host));
        calls == old(calls) + [ReadHistory, WriteHistory(updated)] && result == host.historyWrite
        && storedHistory == if host.historyWrite.Ok? then updated else old(storedHistory)
      ensures result.Ok? ==> 1 <= |storedHistory| <= MaxHistoryItems && storedHistory[0].url == url
      ensures DistinctUrls(old(storedHistory)) ==> DistinctUrls(storedHistory)
    {
      if !IsValidYoutubeUrl(url, parsed) {
        return Err("URL must be a YouTube link");
      }
      calls := calls + [ReadHistory];
      if host.historyRead.Err? {
        return host.historyRead;
      }
      var updated := UpdateHistory(storedHistory, NewEntry(url, host));
      if DistinctUrls(storedHistory) {
        UpdateHistoryKeepsDistinct(storedHistory, NewEntry(url, host));
      }
      calls := calls + [WriteHistory(updated)];
      if host.historyWrite.Err? {
        return host.historyWrite;
      }
      storedHistory := updated;
      return Ok;
    }

    /** The `ADD_TO_HISTORY` case of the listener: save the payload's URL,
      reply from the outcome ("Unable to add" when the error has no message)
      and, after a save sent from a tab, open the side panel of its window. */
    method OnAddToHistory(payload: PayloadArg, sender: Sender, host: HostScript) returns (reply: Messages.Response)
      modifies this`calls, this`storedHistory
      ensures var (url, parsed) := PayloadUrl(payload);
        (reply.ok <==> IsValidYoutubeUrl(url, parsed) && host.historyRead.Ok? && host.historyWrite.Ok?)
        && (reply.ok ==> storedHistory == UpdateHistory(old(storedHistory), NewEntry(url, host)))
        && (!reply.ok ==> storedHistory == old(storedHistory))
        && (!IsValidYoutubeUrl(url, parsed) ==> calls == old(calls))
        && (IsValidYoutubeUrl(url, parsed) && host.historyRead.Err? ==> calls == old(calls) + [ReadHistory])
        && (IsValidYoutubeUrl(url, parsed) && host.historyRead.Ok? ==>
              calls == old(calls) + [ReadHistory, WriteHistory(UpdateHistory(old(storedHistory), NewEntry(url, host)))]
                       + (if reply.ok && Tracked(sender.tabId) && Tracked(sender.windowId)
                          then [OpenSidePanel(sender.windowId.value)] else []))
    {
      var (url, parsed) := PayloadUrl(payload);
      var r := AddUrlToHistory(url, parsed, host);
      reply := ReplyFor(r, "Unable to add");
      if r.Ok? && Tracked(sender.tabId) && Tracked(sender.windowId) {
        calls := calls + [OpenSidePanel(sender.windowId.value)];
      }
    }

    /** The runtime-message listener: the four handled types get a reply built
      from the operation's outcome (with "Unknown error", "Unable to add" or
      "Unable to minimize" when the error has no message); a saved history
      entry sent from a tab opens the side panel of its window; every other
      type gets no reply and changes nothing. */
    method Dispatch(message: RuntimeMessage, sender: Sender, host: HostScript) returns (reply: Option<Messages.Response>)
      modifies this`activeWindowId, this`calls, this`warnings, this`storedHistory
      ensures reply.None? <==> !Handled(message.kind)
      ensures !Handled(message.kind) ==>
        calls == old(calls) && warnings == old(warnings) && activeWindowId == old(activeWindowId)
        && storedHistory == old(storedHistory)
      ensures message.kind == Some("OPEN_YOUTUBE") ==>
        var e := OpenPlan(old(activeWindowId), message.payload, host);
        reply == Some(ReplyFor(e.result, "Unknown error")) && activeWindowId == e.activeWindowId
        && calls == old(calls) + e.calls && warnings == old(warnings) + e.warnings
        && storedHistory == old(storedHistory)
      ensures message.kind == Some("STOP_YOUTUBE") ==>
        var e := ClosePlan(old(activeWindowId), host.removeResult);
        reply == Some(Messages.Response(true, None)) && activeWindowId == AfterClose(old(activeWindowId))
        && calls == old(calls) + e.calls && warnings == old(warnings) + e.warnings
        && storedHistory == old(storedHistory)
      ensures message.kind == Some("ADD_TO_HISTORY") ==>
        var (url, parsed) := PayloadUrl(message.payload);
        reply.Some? && activeWindowId == old(activeWindowId) && warnings == old(warnings)
        && (reply.value.ok <==> IsValidYoutubeUrl(url, parsed) && host.historyRead.Ok? && host.historyWrite.Ok?)
        && (reply.value.ok ==> storedHistory == UpdateHistory(old(storedHistory), NewEntry(url, host)))
        && (!reply.value.ok ==> storedHistory == old(storedHistory))
        && (!IsValidYoutubeUrl(url, parsed) ==> calls == old(calls))
        && (IsValidYoutubeUrl(url, parsed) && host.historyRead.Err? ==> calls == old(calls) + [ReadHistory])
        && (IsValidYoutubeUrl(url, parsed) && host.historyRead.Ok? ==>
              calls == old(calls) + [ReadHistory, WriteHistory(UpdateHistory(old(storedHistory), NewEntry(url, host)))]
                       + (if reply.value.ok && Tracked(sender.tabId) && Tracked(sender.windowId)
                          then [OpenSidePanel(sender.windowId.value)] else []))
      ensures message.kind == Some(Messages.MinimizeWindowType) ==>
        reply.Some? && activeWindowId == old(activeWindowId) && storedHistory == old(storedHistory)
        && warnings == old(warnings)
        && calls == old(calls) + (if Tracked(old(activeWindowId)) then [MinimizeWindow(old(activeWindowId).value)] else [])
        && (reply.value.ok <==> !(Tracked(old(activeWindowId)) && host.minimizeResult.Err?
                                  && !WindowAlreadyGone(host.minimizeResult)))
    {
      if !Handled(message.kind) {
        return None;
      }
      var kind := message.kind.value;
      if kind == "OPEN_YOUTUBE" {
        var r := OpenYoutubeWindow(message.payload, host);
        reply := Some(ReplyFor(r, "Unknown error"));
      } else if kind == "STOP_YOUTUBE" {
        CloseActiveWindow(host.removeResult);
        reply := Some(Messages.Response(true, None));
      } else if kind == "ADD_TO_HISTORY" {
        var r := OnAddToHistory(message.payload, sender, host);
        reply := Some(r);
      } else {
        var r := MinimizeActiveWindow(host.minimizeResult);
        reply := Some(ReplyFor(r, "Unable to minimize"));
      }
    }
  }
}

/** The content script on YouTube pages (content_script.js): a single "Add to
    Chill List" button shown on watch pages and never inside the extension's
    own popup window, and its click that saves the page to the history. */
module ContentScript {
  import opened Wrappers
  import opened Strings
  import opened Web
  import opened Messages
  import opened Js
  import Background

  /** `isExtensionWindow()`: forced into mini mode, named as the popup, or
      marked in its URL (`parsed` is `new URL(location.href)`, `None` when it
      throws). */
  function IsExtensionWindow(forcedMiniWindow: bool, windowName: string, parsed: Option<Url>): (r: bool)
    ensures r <==> forcedMiniWindow || windowName == Background.MiniWindowName
                   || (parsed.Some? && GetParam(parsed.value.params, Background.ExtensionMarker) == Some("1"))
  {
    if forcedMiniWindow then true
    else if windowName == "chill-mini-window" then true
    else parsed.Some? && GetParam(parsed.value.params, "ypip_ext") == Some("1")
  }

  /** `isWatchContext()`: the short-link host, a watch, shorts or live path,
      or else a main player video on the page. */
  function IsWatchContext(hostname: string, path: string, hasMainVideo: bool): (r: bool)
    ensures r <==> ToLower(StripWww(hostname)) == "youtu.be" || StartsWith(path, "/watch")
                   || StartsWith(path, "/shorts") || StartsWith(path, "/live") || hasMainVideo
  {
    if ToLower(StripWww(hostname)) == "youtu.be" then true
    else if StartsWith(path, "/watch") || StartsWith(path, "/shorts") || StartsWith(path, "/live") then true
    else hasMainVideo
  }

  /** Every window the background opens with a tagged URL counts as the
      extension's window, whatever its name. */
  lemma TaggedWindowsAreExtensionWindows(raw: string, parsed: Option<Url>, forced: bool, windowName: string)
    requires parsed.Some?
    ensures IsExtensionWindow(forced, windowName, Some(Background.TagUrlForExtension(raw, parsed).url))
  {
  }

  /** A runtime message the button sends. */
  datatype Sent = AddToHistory(url: string)

  const ButtonLabel := "Add to Chill List"

  /** The script's state: the forced mini-mode flag, how many elements carry
      the button's id, how many buttons have been injected so far (the one in
      the document, if any, is the `injected`-th; earlier ones are detached),
      that button's busy flag and caption, and the messages sent to the
      background. */
  class LaunchButton {
    var forcedMiniWindow: bool
    var buttons: nat
    var injected: nat
    var busy: bool
    var caption: string
    var sent: seq<Sent>

    constructor()
      ensures !forcedMiniWindow && buttons == 0 && injected == 0 && !busy && caption == ButtonLabel && sent == []
      ensures Valid()
    {
      forcedMiniWindow := false;
      buttons := 0;
      injected := 0;
      busy := false;
      caption := ButtonLabel;
      sent := [];
    }

    /** At most one button, and a busy button has sent its request. */
    ghost predicate Valid()
      reads this
    {
      buttons <= 1 && (busy ==> |sent| > 0)
    }

    /** `removeButton()`: remove the element with the button's id, if any. */
    method RemoveButton()
      modifies this`buttons
      ensures buttons == if old(buttons) > 0 then old(buttons) - 1 else 0
    {
      if buttons > 0 {
        buttons := buttons - 1;
      }
    }

    /** `injectButton()`: with a body, a fresh element is appended; it is
      idle (no busy mark) and reads "Add to Chill List". Without a body
      nothing happens. */
    method InjectButton(hasBody: bool)
      modifies this`buttons, this`injected, this`busy, this`caption
      ensures hasBody ==> buttons == old(buttons) + 1 && injected == old(injected) + 1
                          && !busy && caption == ButtonLabel
      ensures !hasBody ==> buttons == old(buttons) && injected == old(injected)
                           && busy == old(busy) && caption == old(caption)
    {
      if hasBody {
        buttons := buttons + 1;
        injected := injected + 1;
        busy := false;
        caption := ButtonLabel;
      }
    }

    /** `ensureButton()`, run on load, on every DOM mutation and after each
      in-app navigation: no button in the extension's window; otherwise
      remove it outside a watch context and inject a fresh one (when the
      page has a body) in one that has none. */
    method EnsureButton(windowName: string, parsed: Option<Url>, hostname: string, path: string, hasMainVideo: bool,
                        hasBody: bool)
      requires Valid()
      modifies this`buttons, this`injected, this`busy, this`caption
      ensures Valid()
      ensures IsExtensionWindow(forcedMiniWindow, windowName, parsed) ==> buttons == 0
      ensures !IsExtensionWindow(forcedMiniWindow, windowName, parsed) ==>
        (!IsWatchContext(hostname, path, hasMainVideo) ==> buttons == 0)
        && (IsWatchContext(hostname, path, hasMainVideo) ==>
              buttons == if old(buttons) == 0 && !hasBody then 0 else 1)
      ensures var injects := !IsExtensionWindow(forcedMiniWindow, windowName, parsed)
                             && IsWatchContext(hostname, path, hasMainVideo) && old(buttons) == 0 && hasBody;
        (injects ==> injected == old(injected) + 1 && !busy && caption == ButtonLabel)
        && (!injects ==> injected == old(injected) && busy == old(busy) && caption == old(caption))
    {
      if IsExtensionWindow(forcedMiniWindow, windowName, parsed) {
        RemoveButton();
        return;
      }
      var shouldShow := IsWatchContext(hostname, path, hasMainVideo);
      var existing := buttons > 0;
      if !shouldShow && existing {
        buttons := buttons - 1;
        return;
      }
      if shouldShow && !existing {
        InjectButton(hasBody);
      }
    }

    /** The runtime listener: `CHILL_MINI_MODE` sets the forced flag from the
      value's truthiness and removes the button; other messages change
      nothing. */
    method OnRuntimeMessage(kind: Option<string>, value: JsValue)
      requires Valid()
      modifies this`forcedMiniWindow, this`buttons
      ensures Valid()
      ensures kind == Some("CHILL_MINI_MODE") ==> forcedMiniWindow == Truthy(value) && buttons == 0
      ensures kind != Some("CHILL_MINI_MODE") ==> forcedMiniWindow == old(forcedMiniWindow) && buttons == old(buttons)
    {
      if kind == Some("CHILL_MINI_MODE") {
        forcedMiniWindow := Truthy(value);
        RemoveButton();
      }
    }

    /** The click, `addCurrentPage(button)`, on the button in the document
      (a detached one cannot be clicked, so without a button nothing
      happens): ignored while that button is busy; an invalid page URL
      shows "Invalid" and sends nothing; otherwise the button turns busy,
      shows "Saving..." and the page URL is sent. Returns whether it was
      sent. */
    method AddCurrentPage(url: string, parsed: Option<Url>) returns (sending: bool)
      requires Valid()
      modifies this`busy, this`caption, this`sent
      ensures Valid()
      ensures sending <==> buttons == 1 && !old(busy) && IsValidYoutubeUrl(url, parsed)
      ensures buttons == 0 || old(busy) ==> busy == old(busy) && caption == old(caption) && sent == old(sent)
      ensures buttons == 1 && !old(busy) && !IsValidYoutubeUrl(url, parsed) ==>
        !busy && caption == "Invalid" && sent == old(sent)
      ensures sending ==> busy && caption == "Saving..." && sent == old(sent) + [AddToHistory(url)]
    {
      if buttons == 0 || busy {
        return false;
      }
      if !IsValidYoutubeUrl(url, parsed) {
        caption := "Invalid";
        return false;
      }
      busy := true;
      caption := "Saving...";
      sent := sent + [AddToHistory(url)];
      return true;
    }

    /** The runtime's answer to the save clicked on the `element`-th button:
      "Added!" when it has no `lastError` and the reply is ok, "Error"
      otherwise, and its busy mark is cleared either way. When that button
      has been detached since, only the detached element changes, which is
      not part of the state. */
    method AddSettled(element: nat, lastError: bool, reply: Option<Response>)
      requires Valid()
      modifies this`busy, this`caption
      ensures Valid()
      ensures buttons == 1 && element == injected ==>
        !busy && caption == if !lastError && reply.Some? && reply.value.ok then "Added!" else "Error"
      ensures !(buttons == 1 && element == injected) ==> busy == old(busy) && caption == old(caption)
    {
      if buttons == 1 && element == injected {
        if !lastError && reply.Some? && reply.value.ok {
          caption := "Added!";
        } else {
          caption := "Error";
        }
        busy := false;
      }
    }

    /** The status timer of the `element`-th button: its caption returns to
      the button's own text; a detached button's timer changes nothing
      here. */
    method ResetLabel(element: nat)
      modifies this`caption
      ensures caption == if buttons == 1 && element == injected then ButtonLabel else old(caption)
    {
      if buttons == 1 && element == injected {
        caption := ButtonLabel;
      }
    }
  }
}

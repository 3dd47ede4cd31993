/**
 * The `share-button` element itself (src/main.ts): what a click on the
 * trigger does, the label timer of the clipboard fallback, closing the panel
 * on resize or scroll, and rendering again.
 */
module Controller {
  import opened Wrappers
  import opened Popover
  import opened Render
  import opened Placement

  /** The three things a click on the trigger can do. */
  datatype Path = NativeShare | Overlay | ClipboardCopy

  /**
   * Exactly one path per click: the native share sheet on mobile, else the
   * panel where the popover API exists, else a plain clipboard write.
   */
  function ChoosePath(caps: Capabilities): (p: Path)
    ensures p == NativeShare <==> IsMobile(caps)
    ensures p == Overlay <==> !IsMobile(caps) && caps.popoverSupport
    ensures p == ClipboardCopy <==> !IsMobile(caps) && !caps.popoverSupport
  {
    if IsMobile(caps) then NativeShare
    else if caps.popoverSupport then Overlay
    else ClipboardCopy
  }

  /**
   * The trigger carries `popovertarget` exactly when its click takes the
   * overlay path, so the browser toggles the panel exactly on the clicks
   * that place it.
   */
  lemma TargetIffOverlay(icon: string, caps: Capabilities, circle: bool, notext: bool)
    ensures CreateButton(icon, caps, circle, notext).popoverTarget.Some? <==> ChoosePath(caps) == Overlay
  {
  }

  /** What is handed to `navigator.share`. */
  datatype ShareData = ShareData(title: string, url: string)

  class ShareButton {
    const caps: Capabilities
    var title: string
    var linkUrl: string
    var copiedLabel: string
    /** The shadow root's wrapper. */
    var view: View
    /** The panel element that the wrapper holds (when the popover API exists). */
    var panel: Panel
    /** Every `navigator.share` request, oldest first. */
    var shares: seq<ShareData>
    /** Every `navigator.clipboard.writeText` request, oldest first. */
    var clipboard: seq<string>
    /** The labels the pending 1000 ms callbacks will write, oldest first. */
    var labelTimers: seq<string>
    /** The host element's own text, which its `<slot>` shows. */
    var textContent: string

    /** The render result, taken apart into the values later handlers use. */
    predicate Rendered(a: Attributes, p: Page, iconSet: map<string, string>, icons: NetworkIcons)
      requires IconChoices <= iconSet.Keys
      reads this
    {
      && view == RenderView(a, p, caps, iconSet, icons)
      && title == Title(a, p)
      && linkUrl == LinkUrl(a, p)
      && copiedLabel == CopiedLabel(a)
    }

    /** `connectedCallback`: the first render. */
    constructor (a: Attributes, p: Page, caps: Capabilities,
                 iconSet: map<string, string>, icons: NetworkIcons, hostText: string)
      requires IconChoices <= iconSet.Keys
      ensures this.caps == caps
      ensures Rendered(a, p, iconSet, icons)
      ensures fresh(panel) && panel.classes == {} && !panel.open
      ensures shares == [] && clipboard == [] && labelTimers == []
      ensures textContent == hostText
    {
      this.caps := caps;
      view := RenderView(a, p, caps, iconSet, icons);
      title := Title(a, p);
      linkUrl := LinkUrl(a, p);
      copiedLabel := CopiedLabel(a);
      panel := new Panel();
      shares := [];
      clipboard := [];
      labelTimers := [];
      textContent := hostText;
    }

    /**
     * `attributeChangedCallback`: everything is built again from the current
     * attributes, with a new panel element (its classes, position and
     * visibility start afresh); requests already made and pending timers stay.
     */
    method Render(a: Attributes, p: Page, iconSet: map<string, string>, icons: NetworkIcons)
      requires IconChoices <= iconSet.Keys
      modifies this, panel
      ensures Rendered(a, p, iconSet, icons)
      ensures panel == old(panel)
      ensures panel.classes == {} && panel.left == None && panel.top == None && !panel.open
      ensures shares == old(shares) && clipboard == old(clipboard)
      ensures labelTimers == old(labelTimers) && textContent == old(textContent)
    {
      panel.Reset();
      view := RenderView(a, p, caps, iconSet, icons);
      title := Title(a, p);
      linkUrl := LinkUrl(a, p);
      copiedLabel := CopiedLabel(a);
    }

    /**
     * A click on the trigger (there is one, with its handler, outside atomic
     * mode). On the overlay path a hidden copy of the panel is appended to
     * the wrapper to be measured and removed again, the panel is placed, and
     * the trigger's `popovertarget` then toggles it. On the clipboard path
     * without `navigator.clipboard` the unguarded `writeText` call throws
     * before the label timer is set, so nothing is recorded.
     */
    method Click(m: Measurements) returns (path: Path)
      requires view.clickHandler && |view.children| == 2
      modifies this, panel
      ensures path == ChoosePath(caps)
      ensures view == old(view) && panel == old(panel)
      ensures title == old(title) && linkUrl == old(linkUrl) && copiedLabel == old(copiedLabel)
      ensures textContent == old(textContent)
      ensures shares == old(shares) + (if path == NativeShare then [ShareData(title, linkUrl)] else [])
      ensures clipboard == old(clipboard) + (if path == ClipboardCopy && caps.clipboardApi then [linkUrl] else [])
      ensures labelTimers == old(labelTimers) + (if path == ClipboardCopy && caps.clipboardApi then [copiedLabel] else [])
      ensures path != Overlay ==> unchanged(panel)
      ensures path == Overlay ==>
        && panel.classes == PlacedClasses(old(panel.classes), m)
        && panel.left == Some(PanelLeft(m))
        && panel.top == Some(PanelTop(m))
        && panel.open == !old(panel.open)
    {
      if IsMobile(caps) {
        shares := shares + [ShareData(title, linkUrl)];
        return NativeShare;
      }
      if caps.popoverSupport {
        var before := view.children;
        var original := view.children[1];
        var copy := if original.PanelNode? then MeasuringClone(original.node) else original;
        view := view.(children := view.children + [copy]);
        view := view.(children := view.children[..|view.children| - 1]);
        assert view.children == before;
        panel.Place(m);
        panel.open := !panel.open;
        return Overlay;
      }
      if caps.clipboardApi {
        clipboard := clipboard + [linkUrl];
        labelTimers := labelTimers + [copiedLabel];
      }
      return ClipboardCopy;
    }

    /**
     * The oldest pending 1000 ms callback of the clipboard fallback runs: the
     * host's text becomes the label it captured; nothing is reverted later.
     */
    method LabelTimerElapsed()
      requires labelTimers != []
      modifies this
      ensures textContent == old(labelTimers[0])
      ensures labelTimers == old(labelTimers[1..])
      ensures view == old(view) && panel == old(panel)
      ensures shares == old(shares) && clipboard == old(clipboard)
      ensures title == old(title) && linkUrl == old(linkUrl) && copiedLabel == old(copiedLabel)
    {
      textContent := labelTimers[0];
      labelTimers := labelTimers[1..];
    }

    /**
     * A `resize` or `scroll` event, whose listeners exist outside atomic
     * mode: the panel is hidden. Without the popover API there is no element
     * with a `popover` attribute, the listener fails, and nothing changes.
     */
    method Close()
      requires view.closeListeners
      modifies panel
      ensures caps.popoverSupport ==> !panel.open
      ensures !caps.popoverSupport ==> panel.open == old(panel.open)
      ensures panel.classes == old(panel.classes)
      ensures panel.left == old(panel.left) && panel.top == old(panel.top)
    {
      if caps.popoverSupport {
        panel.open := false;
      }
    }
  }
}

/**
 * What `ShareButton.render` builds (src/main.ts): the configuration read from
 * the host's attributes with its defaults, the icon, the trigger button, the
 * panel element and the wrapper placed in the shadow root.
 */
module Render {
  import opened Wrappers
  import opened Popover
  import opened Text

  /**
   * The host element's attributes; `getAttribute` gives `None` for an absent
   * attribute, and the flags are `hasAttribute` tests.
   */
  datatype Attributes = Attributes(
    dataTitle: Option<string>, dataUrl: Option<string>,
    dataCopiedLabel: Option<string>, dataCopyLinkLabel: Option<string>,
    icon: Option<string>, networks: Option<string>,
    atomic: bool, circle: bool, notext: bool)

  /**
   * The document around the host: the text of its `<title>` and first `<h1>`
   * (`None` when there is no such element) and `location.href`.
   */
  datatype Page = Page(titleText: Option<string>, h1Text: Option<string>, location: string)

  /**
   * What the browser offers: the `popover` API, a user agent naming Android
   * or an iOS device, `navigator.share`, and `navigator.clipboard` (which
   * browsers provide only on secure pages).
   */
  datatype Capabilities = Capabilities(popoverSupport: bool, mobileAgent: bool, nativeShare: bool,
                                       clipboardApi: bool)

  predicate IsMobile(c: Capabilities)
  {
    c.mobileAgent && c.nativeShare
  }

  /** A string JavaScript treats as true in `||`: present and non-empty. */
  predicate Truthy(v: Option<string>)
  {
    v.Some? && v.value != ""
  }

  /** `v || fallback` for an attribute or text that may be absent. */
  function Or(v: Option<string>, fallback: string): (r: string)
    ensures Truthy(v) ==> r == v.value
    ensures !Truthy(v) ==> r == fallback
  {
    if Truthy(v) then v.value else fallback
  }

  /**
   * The share title: `data-title`, else the page title, else the first
   * heading, else empty. An empty value counts as absent, so the title is
   * empty only when all three sources are.
   */
  function Title(a: Attributes, p: Page): (r: string)
    ensures Truthy(a.dataTitle) ==> r == a.dataTitle.value
    ensures !Truthy(a.dataTitle) && Truthy(p.titleText) ==> r == p.titleText.value
    ensures !Truthy(a.dataTitle) && !Truthy(p.titleText) && Truthy(p.h1Text) ==> r == p.h1Text.value
    ensures r == "" <==> !Truthy(a.dataTitle) && !Truthy(p.titleText) && !Truthy(p.h1Text)
  {
    Or(a.dataTitle, Or(p.titleText, Or(p.h1Text, "")))
  }

  /** The shared URL: `data-url`, else the page's address. */
  function LinkUrl(a: Attributes, p: Page): (r: string)
    ensures Truthy(a.dataUrl) ==> r == a.dataUrl.value
    ensures !Truthy(a.dataUrl) ==> r == p.location
  {
    Or(a.dataUrl, p.location)
  }

  /** The label shown once the link is copied: `data-copied-label`, else "Copied!"; never empty. */
  function CopiedLabel(a: Attributes): (r: string)
    ensures Truthy(a.dataCopiedLabel) ==> r == a.dataCopiedLabel.value
    ensures !Truthy(a.dataCopiedLabel) ==> r == "Copied!"
    ensures r != ""
  {
    Or(a.dataCopiedLabel, "Copied!")
  }

  /**
   * "x, linkedin, facebook, email, whatsapp, telegram, copy", written as its
   * comma-separated tokens.
   */
  const DefaultNetworks: string :=
    "x" + "," + (" " + "linkedin" + "," + (" " + "facebook" + "," + (" " + "email" + ","
    + (" " + "whatsapp" + "," + (" " + "telegram" + "," + (" " + "copy"))))))

  /** The `networks` attribute, else every network followed by the copy button. */
  function Networks(a: Attributes): (r: string)
    ensures Truthy(a.networks) ==> r == a.networks.value
    ensures !Truthy(a.networks) ==> r == DefaultNetworks
  {
    Or(a.networks, DefaultNetworks)
  }

  /** The icon attribute values that pick one of the seven icons. */
  const IconChoices: set<string> := {"1", "2", "3", "4", "5", "6", "7"}

  /**
   * `createIcon`: no icon for "false", the chosen icon for "1".."7", and icon
   * "1" for an absent or empty attribute or any other value.
   */
  function CreateIcon(attr: Option<string>, icons: map<string, string>): (r: string)
    requires IconChoices <= icons.Keys
    ensures !Truthy(attr) ==> r == icons["1"]
    ensures Truthy(attr) && attr.value == "false" ==> r == ""
    ensures Truthy(attr) && attr.value in IconChoices ==> r == icons[attr.value]
    ensures Truthy(attr) && attr.value != "false" && attr.value !in IconChoices ==> r == icons["1"]
    ensures r == "" || exists k :: k in IconChoices && r == icons[k]
  {
    var choice := Or(attr, "1");
    if choice == "false" then ""
    else if choice !in IconChoices then icons["1"]
    else icons[choice]
  }

  /** The trigger button's attributes and markup. */
  datatype Button = Button(
    part: string, cssClass: string, popoverTarget: Option<string>,
    ariaLabel: Option<string>, inner: string)

  const PanelId: string := "share-popover"

  /**
   * `createButton`: the button targets the panel only where the popover API
   * is used (supported, not mobile); an icon-only button (circle or notext)
   * is labelled "Share", any other shows the icon and then the host's text.
   */
  function CreateButton(icon: string, caps: Capabilities, circle: bool, notext: bool): (b: Button)
    ensures b.popoverTarget.Some? <==> caps.popoverSupport && !IsMobile(caps)
    ensures b.popoverTarget.Some? ==> b.popoverTarget.value == PanelId
    ensures b.ariaLabel.Some? <==> circle || notext
    ensures b.ariaLabel.Some? ==> b.ariaLabel.value == "Share"
    ensures b.inner == if circle || notext then icon else icon + " <slot></slot>"
    ensures b.part == "share-button" && b.cssClass == "share-button"
  {
    Button(
      "share-button", "share-button",
      if caps.popoverSupport && !IsMobile(caps) then Some(PanelId) else None,
      if circle || notext then Some("Share") else None,
      if circle || notext then icon else icon + " <slot></slot>")
  }

  /**
   * `createPopover`'s result: outside atomic mode a `div` with id and part
   * `share-popover` and the `popover` attribute, holding the content; in
   * atomic mode the content alone.
   */
  datatype PopoverNode = PopoverDiv(id: string, part: string, content: Content) | Bare(content: Content)

  function CreatePopover(networks: string, o: Options, icons: NetworkIcons): (p: PopoverNode)
    ensures p.PopoverDiv? <==> !o.isAtomic
    ensures p.PopoverDiv? ==> p.id == PanelId && p.part == PanelId
    ensures p.content == CreatePopoverContent(networks, o, icons)
  {
    var content := CreatePopoverContent(networks, o, icons);
    if o.isAtomic then Bare(content) else PopoverDiv(PanelId, PanelId, content)
  }

  /** The options that `render` passes on to the panel content. */
  function PanelOptions(a: Attributes, p: Page): (o: Options)
    ensures o.title == Title(a, p) && o.linkUrl == LinkUrl(a, p)
    ensures o.isAtomic == a.atomic
    ensures o.copiedLabel == CopiedLabel(a) && o.copiedLabel != ""
    ensures o.copyLinkLabel == a.dataCopyLinkLabel
  {
    Options(Title(a, p), LinkUrl(a, p), a.atomic, CopiedLabel(a), a.dataCopyLinkLabel)
  }

  /**
   * A child of the wrapper `div`: the trigger, a text node (what `append`
   * makes of a string), the panel, or the hidden copy of the panel that a
   * click inserts for measuring.
   */
  datatype WrapperChild = Trigger(button: Button) | TextNode(data: string)
                        | PanelNode(node: PopoverNode) | MeasuringClone(node: PopoverNode)

  /**
   * The shadow root's single `div.wrapper` (part `share-wrapper`), and whether
   * a click handler and the resize/scroll close listeners were installed.
   */
  datatype View = View(
    cssClass: string, part: string, children: seq<WrapperChild>,
    clickHandler: bool, closeListeners: bool)

  /**
   * `render`: the wrapper holds the trigger (an empty text node in atomic
   * mode) and then the panel; where the popover API is missing the panel is
   * replaced by the text `<div></div>`.
   */
  function RenderView(a: Attributes, p: Page, caps: Capabilities,
                      iconSet: map<string, string>, icons: NetworkIcons): (v: View)
    requires IconChoices <= iconSet.Keys
    ensures |v.children| == 2
    ensures v.children[0].Trigger? <==> !a.atomic
    ensures a.atomic ==> v.children[0] == TextNode("")
    ensures v.children[0].Trigger? ==>
      v.children[0].button == CreateButton(CreateIcon(a.icon, iconSet), caps, a.circle, a.notext)
    ensures v.children[1].PanelNode? <==> caps.popoverSupport
    ensures !caps.popoverSupport ==> v.children[1] == TextNode("<div></div>")
    ensures v.children[1].PanelNode? ==>
      v.children[1].node == CreatePopover(Networks(a), PanelOptions(a, p), icons)
    ensures v.clickHandler <==> !a.atomic
    ensures v.closeListeners <==> !a.atomic
    ensures v.children[0].Trigger? && v.children[0].button.popoverTarget.Some? ==>
      v.children[1].PanelNode? && v.children[1].node.PopoverDiv?
      && v.children[1].node.id == v.children[0].button.popoverTarget.value
  {
    var popover := CreatePopover(Networks(a), PanelOptions(a, p), icons);
    var button := if a.atomic then TextNode("")
                  else Trigger(CreateButton(CreateIcon(a.icon, iconSet), caps, a.circle, a.notext));
    View("wrapper", "share-wrapper",
         [button, if caps.popoverSupport then PanelNode(popover) else TextNode("<div></div>")],
         !a.atomic, !a.atomic)
  }

  /** The default `networks` string, token by token. */
  function DefaultTokens(): seq<string>
  {
    ["x", " " + "linkedin", " " + "facebook", " " + "email", " " + "whatsapp",
     " " + "telegram", " " + "copy"]
  }

  lemma DefaultTokensSplit()
    ensures Split(DefaultNetworks, ',') == DefaultTokens()
  {
    var ts := DefaultTokens();
    assert ts[1..][1..][1..][1..][1..] == ts[5..];
    assert Join(ts, ',') == DefaultNetworks;
    forall i | 0 <= i < |ts| ensures ',' !in ts[i] {
    }
    SplitJoin(ts, ',');
  }

  /** A lower-case key after white space is looked up as that key. */
  lemma KeyAfterSpace(pad: string, key: string)
    requires AllSpace(pad) && Word(key) && forall k :: 0 <= k < |key| ==> !IsUpper(key[k])
    ensures NormalizeToken(pad + key) == key
  {
    assert ToLower(key) == key;
    assert pad + key + [] == pad + key;
    NormalizeIgnoresPaddingAndCase(pad, key, []);
  }

  /** The registry keys the default tokens select, in order. */
  function DefaultKeys(): seq<string>
  {
    ["x", "linkedin", "facebook", "email", "whatsapp", "telegram", "copy"]
  }

  /** Every default key is a lower-case word. */
  lemma DefaultKeyPlain(i: nat)
    requires i < 7
    ensures Word(DefaultKeys()[i])
    ensures forall k :: 0 <= k < |DefaultKeys()[i]| ==> !IsUpper(DefaultKeys()[i][k])
  {
  }

  /** The i-th default token normalizes to the i-th default key. */
  lemma DefaultTokenNormalizes(i: nat)
    requires i < 7
    ensures NormalizeToken(DefaultTokens()[i]) == DefaultKeys()[i]
  {
    var key := DefaultKeys()[i];
    var pad := if i == 0 then "" else " ";
    assert DefaultTokens()[i] == pad + key;
    DefaultKeyPlain(i);
    KeyAfterSpace(pad, key);
  }

  lemma ParseDefaultTokens(s: string, o: Options, icons: NetworkIcons)
    requires Split(s, ',') == DefaultTokens()
    ensures |ParseNetworks(s, o, icons)| == 7
    ensures forall i :: 0 <= i < 7 ==> ParseNetworks(s, o, icons)[i] == ResolveKey(DefaultKeys()[i], o, icons)
  {
    forall i | 0 <= i < 7
      ensures ParseNetworks(s, o, icons)[i] == ResolveKey(DefaultKeys()[i], o, icons)
    {
      DefaultTokenNormalizes(i);
    }
  }

  /**
   * Without a `networks` attribute the panel offers X, LinkedIn, Facebook,
   * Email, WhatsApp and Telegram, in that order, and then a copy button.
   */
  lemma DefaultPanelEntries(a: Attributes, o: Options, icons: NetworkIcons)
    requires !Truthy(a.networks)
    ensures |ParseNetworks(Networks(a), o, icons)| == 7
    ensures forall i :: 0 <= i < 7 ==>
      ParseNetworks(Networks(a), o, icons)[i] == ResolveKey(DefaultKeys()[i], o, icons)
  {
    DefaultTokensSplit();
    ParseDefaultTokens(Networks(a), o, icons);
  }

  /** The first six default keys name networks in the registry; the last is the copy button. */
  lemma DefaultKeysInRegistry(icons: NetworkIcons)
    ensures forall i :: 0 <= i < 6 ==> DefaultKeys()[i] in Registry(icons) && DefaultKeys()[i] != "copy"
    ensures DefaultKeys()[6] == "copy"
  {
  }
}

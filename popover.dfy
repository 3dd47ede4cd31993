/**
 * The panel's content (src/popover.ts): the fixed registry of networks, the
 * share links built from URL templates, and the parsing of the
 * comma-separated `networks` string into one entry per token.
 */
module Popover {
  import opened Wrappers
  import opened Text

  /** Icon markup imported from the icon module; treated as opaque strings. */
  datatype NetworkIcons = NetworkIcons(
    x: string, facebook: string, linkedin: string, email: string,
    whatsapp: string, telegram: string, copy: string, copied: string)

  /** What `createPopoverContent` receives from the host element. */
  datatype Options = Options(
    title: string, linkUrl: string, isAtomic: bool,
    copiedLabel: string, copyLinkLabel: Option<string>)

  /** A link's `href`: `encodeURI` applied to `raw`, left uninterpreted. */
  datatype Uri = EncodeUri(raw: string)

  /** The attributes and markup of one share anchor. */
  datatype Link = Link(
    classes: seq<string>, href: Uri, ariaLabel: string, target: string,
    rel: string, part: string, inner: string)

  /** How a freshly created copy button is set up; its behaviour is in module CopyButtons. */
  datatype CopyButtonSpec = CopyButtonSpec(
    classes: seq<string>, ariaLabel: string, part: string,
    initial: string, copied: string, text: string)

  /**
   * One entry of the parsed network list: the empty string `""` for an
   * unknown token, a registry link, or a new copy button.
   */
  datatype Entry = EmptyString | SocialLink(link: Link) | CopyControl(button: CopyButtonSpec)

  /** A registry entry: the icon, the display name and the URL template. */
  datatype NetworkDef = NetworkDef(icon: string, name: string, template: string)

  const UrlPlaceholder: string := "{{url}}"
  const TextPlaceholder: string := "{{text}}"

  // The share templates, spelled piece by piece around the two placeholders.
  const FacebookTemplate: string := "http://www.facebook.com/sharer.php?u=" + UrlPlaceholder
  const XTemplate: string :=
    "https://twitter.com/intent/tweet?url=" + (UrlPlaceholder + ("&text=" + TextPlaceholder))
  const LinkedInTemplate: string :=
    "https://www.linkedin.com/feed/?shareActive=true&text=" + (TextPlaceholder + (" " + UrlPlaceholder))
  const EmailTemplate: string :=
    "mailto:?subject=Check out " + (TextPlaceholder + ("&body=" + (TextPlaceholder + (" " + UrlPlaceholder))))
  const WhatsAppTemplate: string :=
    "https://api.whatsapp.com/send?text=" + (TextPlaceholder + (" " + UrlPlaceholder))
  /** `https://t.me/share/url?url={{url}}&text={{text}}`, spelled piece by piece. */
  const TelegramTemplate: string := "https://t.me/share/url?url=" + (UrlPlaceholder + ("&text=" + TextPlaceholder))

  /** The `networksMap` registry, keyed by lower-case identifier. */
  function Registry(icons: NetworkIcons): (r: map<string, NetworkDef>)
    ensures r.Keys == {"facebook", "x", "linkedin", "email", "whatsapp", "telegram", "copy"}
    ensures r["copy"].template == ""
  {
    map[
      "facebook" := NetworkDef(icons.facebook, "Facebook", FacebookTemplate),
      "x" := NetworkDef(icons.x, "X", XTemplate),
      "linkedin" := NetworkDef(icons.linkedin, "LinkedIn", LinkedInTemplate),
      "email" := NetworkDef(icons.email, "Email", EmailTemplate),
      "whatsapp" := NetworkDef(icons.whatsapp, "WhatsApp", WhatsAppTemplate),
      "telegram" := NetworkDef(icons.telegram, "Telegram", TelegramTemplate),
      "copy" := NetworkDef(icons.copy, "copy", "")
    ]
  }

  /**
   * Every registry key is its display name lower-cased, so the class and
   * part a link carries name the very token that selected it.
   */
  lemma RegistryKeysAreLowerNames(icons: NetworkIcons, key: string)
    requires key in Registry(icons)
    ensures ToLower(Registry(icons)[key].name) == key
  {
    LowerNames();
    var r := Registry(icons);
    assert key == "facebook" || key == "x" || key == "linkedin" || key == "email"
      || key == "whatsapp" || key == "telegram" || key == "copy";
  }

  lemma LowerNames()
    ensures ToLower("Facebook") == "facebook" && ToLower("X") == "x"
    ensures ToLower("LinkedIn") == "linkedin" && ToLower("Email") == "email"
    ensures ToLower("WhatsApp") == "whatsapp" && ToLower("Telegram") == "telegram"
    ensures ToLower("copy") == "copy"
  {
  }

  /**
   * The link target before encoding: every `{{url}}` becomes the share URL
   * and, only when the title is non-empty, every `{{text}}` becomes the title.
   * Both substitutions insert their value literally (see the finding about
   * `$` patterns in README.md).
   */
  function FinalUrl(template: string, linkUrl: string, title: string): (r: string)
    ensures NoPlaceholder(template) ==> r == template
  {
    ReplaceAllAbsent(template, UrlPlaceholder, linkUrl);
    ReplaceAllAbsent(template, TextPlaceholder, title);
    var withUrl := ReplaceAll(template, UrlPlaceholder, linkUrl);
    if title != "" then ReplaceAll(withUrl, TextPlaceholder, title) else withUrl
  }

  /** A template in which neither placeholder occurs. */
  ghost predicate NoPlaceholder(template: string)
  {
    forall i :: !OccursAt(template, UrlPlaceholder, i) && !OccursAt(template, TextPlaceholder, i)
  }

  /**
   * The link target as the source computes it, with `String.prototype.replace`
   * interpreting `$` patterns in the URL and in the title. It agrees with
   * `FinalUrl` whenever neither the URL nor the title contains `$`.
   */
  function FinalUrlAsWritten(template: string, linkUrl: string, title: string): (r: string)
    ensures '$' !in linkUrl && '$' !in title ==> r == FinalUrl(template, linkUrl, title)
  {
    var withUrl := ReplaceGlobal(template, UrlPlaceholder, linkUrl);
    if title != "" then ReplaceGlobal(withUrl, TextPlaceholder, title) else withUrl
  }

  /** A URL template read as literal text and placeholders. */
  datatype Piece = Literal(text: string) | UrlSlot | TextSlot

  /** The template text the pieces spell. */
  function Source(ps: seq<Piece>): string
    decreases |ps|
  {
    if ps == [] then ""
    else
      (match ps[0]
       case Literal(s) => s
       case UrlSlot => UrlPlaceholder
       case TextSlot => TextPlaceholder) + Source(ps[1..])
  }

  /** The pieces with every URL slot filled by `u` and every text slot by `t`. */
  function Fill(ps: seq<Piece>, u: string, t: string): string
    decreases |ps|
  {
    if ps == [] then ""
    else
      (match ps[0]
       case Literal(s) => s
       case UrlSlot => u
       case TextSlot => t) + Fill(ps[1..], u, t)
  }

  predicate BraceFree(s: string)
  {
    '{' !in s
  }

  predicate LiteralsBraceFree(ps: seq<Piece>)
  {
    forall i :: 0 <= i < |ps| && ps[i].Literal? ==> BraceFree(ps[i].text)
  }

  /** A `{{text}}` placeholder is not mistaken for `{{url}}`. */
  lemma TextPlaceholderKept(rest: string, u: string)
    ensures ReplaceAll(TextPlaceholder + rest, UrlPlaceholder, u)
         == TextPlaceholder + ReplaceAll(rest, UrlPlaceholder, u)
  {
    var t2 := "text}}" + rest;
    var t1 := "{" + t2;
    var s := "{" + t1;
    TextPlaceholderSpelled(rest);
    assert s[1..] == t1 && t1[1..] == t2;
    NoUrlPlaceholderAtFront(s, 2);
    NoUrlPlaceholderAtFront(t1, 1);
    ReplaceAllMiss(s, UrlPlaceholder, u);
    ReplaceAllMiss(t1, UrlPlaceholder, u);
    ReplaceAllSkip("text}}", rest, UrlPlaceholder, u);
  }

  lemma TextPlaceholderSpelled(rest: string)
    ensures TextPlaceholder + rest == "{" + ("{" + ("text}}" + rest))
  {
    assert TextPlaceholder == "{" + ("{" + "text}}");
  }

  /** A string whose k-th character is the `t` of `text` does not start with `{{url}}`. */
  lemma NoUrlPlaceholderAtFront(s: string, k: nat)
    requires k < 3 && k < |s| && s[k] == 't'
    ensures !OccursAt(s, UrlPlaceholder, 0)
  {
    assert UrlPlaceholder[k] != 't';
  }

  /** The first pass: URL slots filled, text slots still spelled out. */
  lemma {:induction false} UrlPass(ps: seq<Piece>, u: string)
    requires LiteralsBraceFree(ps)
    ensures ReplaceAll(Source(ps), UrlPlaceholder, u) == Fill(ps, u, TextPlaceholder)
    decreases |ps|
  {
    if ps != [] {
      UrlPass(ps[1..], u);
      match ps[0]
      case Literal(s) =>
        assert BraceFree(ps[0].text);
        ReplaceAllSkip(s, Source(ps[1..]), UrlPlaceholder, u);
      case UrlSlot =>
        ReplaceAllHit(Source(ps[1..]), UrlPlaceholder, u);
      case TextSlot =>
        TextPlaceholderKept(Source(ps[1..]), u);
    }
  }

  /** The second pass: text slots filled by the title. */
  lemma {:induction false} TextPass(ps: seq<Piece>, u: string, t: string)
    requires LiteralsBraceFree(ps) && BraceFree(u)
    ensures ReplaceAll(Fill(ps, u, TextPlaceholder), TextPlaceholder, t) == Fill(ps, u, t)
    decreases |ps|
  {
    if ps != [] {
      TextPass(ps[1..], u, t);
      match ps[0]
      case Literal(s) =>
        assert BraceFree(ps[0].text);
        ReplaceAllSkip(s, Fill(ps[1..], u, TextPlaceholder), TextPlaceholder, t);
      case UrlSlot =>
        ReplaceAllSkip(u, Fill(ps[1..], u, TextPlaceholder), TextPlaceholder, t);
      case TextSlot =>
        ReplaceAllHit(Fill(ps[1..], u, TextPlaceholder), TextPlaceholder, t);
    }
  }

  /**
   * For a template whose literal text holds no brace and a share URL without
   * one, every `{{url}}` becomes the URL, and every `{{text}}` becomes the
   * title when the title is non-empty and stays as it is otherwise.
   */
  lemma FinalUrlFillsTemplate(ps: seq<Piece>, u: string, t: string)
    requires LiteralsBraceFree(ps) && BraceFree(u)
    ensures FinalUrl(Source(ps), u, t) == Fill(ps, u, if t == "" then TextPlaceholder else t)
  {
    UrlPass(ps, u);
    if t != "" {
      TextPass(ps, u, t);
    }
  }

  /** The Telegram template, read as pieces. */
  function TelegramPieces(): seq<Piece>
  {
    [Literal("https://t.me/share/url?url="), UrlSlot, Literal("&text="), TextSlot]
  }

  lemma TelegramPiecesSpell()
    ensures Source(TelegramPieces()) == TelegramTemplate
  {
    var ps := TelegramPieces();
    assert ps[3..][1..] == [];
    assert Source(ps[3..]) == TextPlaceholder;
    assert ps[2..][1..] == ps[3..];
    assert Source(ps[2..]) == "&text=" + TextPlaceholder;
    assert ps[1..][1..] == ps[2..];
    assert Source(ps[1..]) == UrlPlaceholder + ("&text=" + TextPlaceholder);
    assert Source(ps) == "https://t.me/share/url?url=" + (UrlPlaceholder + ("&text=" + TextPlaceholder));
  }

  lemma TelegramFill(u: string, t: string)
    ensures Fill(TelegramPieces(), u, t) == "https://t.me/share/url?url=" + u + "&text=" + t
  {
    var ps := TelegramPieces();
    assert ps[3..][1..] == [];
    assert ps[2..][1..] == ps[3..];
    assert ps[1..][1..] == ps[2..];
    assert Fill(ps, u, t) == "https://t.me/share/url?url=" + (u + ("&text=" + (t + "")));
  }

  lemma TelegramPiecesBraceFree()
    ensures LiteralsBraceFree(TelegramPieces())
  {
    var ps := TelegramPieces();
    forall i | 0 <= i < |ps| && ps[i].Literal?
      ensures BraceFree(ps[i].text)
    {
      assert i == 0 || i == 2;
    }
  }

  /**
   * The Telegram link before encoding, for any share URL without braces: the
   * title follows `&text=` when non-empty, and the placeholder stays when it
   * is empty. With `https://ex.com` and `Hi` this gives
   * `https://t.me/share/url?url=https://ex.com&text=Hi`.
   */
  lemma TelegramLink(u: string, t: string)
    requires BraceFree(u)
    ensures t != "" ==> FinalUrl(TelegramTemplate, u, t) == "https://t.me/share/url?url=" + u + "&text=" + t
    ensures t == "" ==> FinalUrl(TelegramTemplate, u, t) == "https://t.me/share/url?url=" + u + "&text={{text}}"
  {
    TelegramPiecesSpell();
    TelegramPiecesBraceFree();
    FinalUrlFillsTemplate(TelegramPieces(), u, t);
    TelegramFill(u, if t == "" then TextPlaceholder else t);
  }

  /** The URL pass as written, when the URL has no `$`: placeholders for the title remain. */
  lemma TelegramUrlPassAsWritten(u: string)
    requires BraceFree(u) && '$' !in u
    ensures ReplaceGlobal(TelegramTemplate, UrlPlaceholder, u)
         == ("https://t.me/share/url?url=" + u + "&text=") + (TextPlaceholder + "")
  {
    TelegramPiecesSpell();
    TelegramPiecesBraceFree();
    UrlPass(TelegramPieces(), u);
    ReplaceGlobalIsLiteral([], TelegramTemplate, UrlPlaceholder, u);
    TelegramFill(u, TextPlaceholder);
  }

  /**
   * As written, the title `$&` is read as "the matched text", so the link
   * keeps the placeholder instead of the title, where the literal
   * substitution inserts the title.
   */
  lemma DollarTitleMangled(u: string)
    requires BraceFree(u) && '$' !in u
    ensures FinalUrlAsWritten(TelegramTemplate, u, "$&")
         == "https://t.me/share/url?url=" + u + "&text={{text}}"
    ensures FinalUrl(TelegramTemplate, u, "$&")
         == "https://t.me/share/url?url=" + u + "&text=$&"
  {
    TelegramLink(u, "$&");
    TelegramUrlPassAsWritten(u);
    DollarTitlePass(u);
  }

  /** The title pass as written, with the title `$&`. */
  lemma DollarTitlePass(u: string)
    requires BraceFree(u)
    ensures ReplaceGlobal(("https://t.me/share/url?url=" + u + "&text=") + (TextPlaceholder + ""), TextPlaceholder, "$&")
         == "https://t.me/share/url?url=" + u + "&text={{text}}"
  {
    var p := "https://t.me/share/url?url=" + u + "&text=";
    assert TextPlaceholder[0] !in p;
    MatchPatternKeepsPlaceholder(p);
  }

  /** With the replacement `$&`, a placeholder after brace-free text stays as it is. */
  lemma MatchPatternKeepsPlaceholder(p: string)
    requires TextPlaceholder[0] !in p
    ensures ReplaceGlobal(p + (TextPlaceholder + ""), TextPlaceholder, "$&") == p + (TextPlaceholder + "")
  {
    ReplaceGlobalSkip([], p, TextPlaceholder + "", TextPlaceholder, "$&");
    assert [] + p == p;
    ReplaceGlobalHit(p, "", TextPlaceholder, "$&");
    SubstitutionOfMatch(TextPlaceholder, p, "");
  }

  /**
   * `createSocialMediaLink`: the anchor for one registry entry. The `href`
   * is built from the literal substitution `FinalUrl`; it is the link the
   * code builds whenever the URL and the title hold no `$`.
   */
  function CreateSocialMediaLink(icon: string, network: string, template: string, o: Options): (a: Link)
    ensures a.classes == ["social-media", ToLower(network)]
    ensures a.part == "share-link " + ToLower(network)
    ensures a.ariaLabel == "Share on " + network
    ensures a.href == EncodeUri(FinalUrl(template, o.linkUrl, o.title))
    ensures '$' !in o.linkUrl && '$' !in o.title ==>
      a.href == EncodeUri(FinalUrlAsWritten(template, o.linkUrl, o.title))
    ensures a.inner == icon + " " + (if o.isAtomic then "" else " " + network)
  {
    Link(
      ["social-media", ToLower(network)],
      EncodeUri(FinalUrl(template, o.linkUrl, o.title)),
      "Share on " + network,
      "_blank",
      "noopener noreferrer",
      "share-link " + ToLower(network),
      icon + " " + (if o.isAtomic then "" else " " + network))
  }

  /** The label of the copy button: the configured one unless absent or empty. */
  function CopyLinkLabel(configured: Option<string>): (r: string)
    ensures r != ""
    ensures configured.Some? && configured.value != "" ==> r == configured.value
    ensures !(configured.Some? && configured.value != "") ==> r == "Copy link"
  {
    if configured.Some? && configured.value != "" then configured.value else "Copy link"
  }

  /** The button that the token `copy` creates, fresh for every occurrence. */
  function NewCopyButton(o: Options, icons: NetworkIcons): (b: CopyButtonSpec)
    ensures b.text == o.linkUrl
    ensures o.isAtomic ==> b.initial == icons.copy && b.copied == icons.copied
    ensures !o.isAtomic ==> b.initial == icons.copy + " <span>" + CopyLinkLabel(o.copyLinkLabel) + "</span>"
    ensures !o.isAtomic ==> b.copied == icons.copied + " <span>" + o.copiedLabel + "</span>"
  {
    var initial := icons.copy + " <span>" + CopyLinkLabel(o.copyLinkLabel) + "</span>";
    CopyButtonSpec(
      ["social-media", "copy-button"], "Copy link", "share-link copy",
      if o.isAtomic then icons.copy else initial,
      if o.isAtomic then icons.copied else icons.copied + " <span>" + o.copiedLabel + "</span>",
      o.linkUrl)
  }

  /** A token as it is looked up: trimmed, then lower-cased. */
  function NormalizeToken(raw: string): (r: string)
    ensures r == ToLower(Trim(raw))
    ensures r == [] <==> AllSpace(raw)
    ensures |r| <= |raw|
    ensures r == [] || (!IsSpace(r[0]) && !IsSpace(r[|r| - 1]))
    ensures forall k :: 0 <= k < |r| ==> !IsUpper(r[k])
  {
    var t := Trim(raw);
    ToLowerKeepsEdges(t);
    ToLower(t)
  }

  /**
   * The entry for a normalized token: `copy` always gives a new button (never
   * the registry's `copy` anchor), a registry key gives its link, and
   * anything else gives the empty string rather than an error.
   */
  function ResolveKey(key: string, o: Options, icons: NetworkIcons): (e: Entry)
    ensures e.CopyControl? <==> key == "copy"
    ensures e.CopyControl? ==> e.button == NewCopyButton(o, icons)
    ensures e.EmptyString? <==> key != "copy" && key !in Registry(icons)
    ensures e.SocialLink? ==>
      var d := Registry(icons)[key];
      e.link == CreateSocialMediaLink(d.icon, d.name, d.template, o)
  {
    if key == "copy" then CopyControl(NewCopyButton(o, icons))
    else if key in Registry(icons) then
      var d := Registry(icons)[key];
      SocialLink(CreateSocialMediaLink(d.icon, d.name, d.template, o))
    else EmptyString
  }

  /** One token of the `networks` string, looked up once trimmed and lower-cased. */
  function ResolveToken(raw: string, o: Options, icons: NetworkIcons): (e: Entry)
    ensures e.CopyControl? <==> NormalizeToken(raw) == "copy"
    ensures e.CopyControl? ==> e.button == NewCopyButton(o, icons)
    ensures e.EmptyString? <==> NormalizeToken(raw) != "copy" && NormalizeToken(raw) !in Registry(icons)
    ensures e.SocialLink? ==>
      var d := Registry(icons)[NormalizeToken(raw)];
      e.link == CreateSocialMediaLink(d.icon, d.name, d.template, o)
  {
    ResolveKey(NormalizeToken(raw), o, icons)
  }

  /**
   * The parsed network list: exactly one entry per comma-separated token, in
   * input order, empty and repeated tokens included.
   */
  function ParseNetworks(networks: string, o: Options, icons: NetworkIcons): (r: seq<Entry>)
    ensures |r| == |Split(networks, ',')|
    ensures forall i :: 0 <= i < |r| ==> r[i] == ResolveToken(Split(networks, ',')[i], o, icons)
  {
    var tokens := Split(networks, ',');
    seq(|tokens|, i requires 0 <= i < |tokens| => ResolveToken(tokens[i], o, icons))
  }

  /**
   * Tokens are matched whatever the surrounding white space and the case of
   * their ASCII letters.
   */
  lemma NormalizeIgnoresPaddingAndCase(a: string, m: string, b: string)
    requires AllSpace(a) && AllSpace(b)
    requires m != [] && !IsSpace(m[0]) && !IsSpace(m[|m| - 1])
    ensures NormalizeToken(a + m + b) == ToLower(m)
  {
    TrimPadded(a, m, b);
  }

  /**
   * Tokens that differ only in their padding and in the case of their ASCII
   * letters select the same entry.
   */
  lemma TokenCaseInsensitive(a1: string, m1: string, b1: string, a2: string, m2: string, b2: string,
                             o: Options, icons: NetworkIcons)
    requires AllSpace(a1) && AllSpace(b1) && AllSpace(a2) && AllSpace(b2)
    requires Word(m1) && Word(m2) && |m1| == |m2|
    requires forall k :: 0 <= k < |m1| ==> LowerChar(m1[k]) == LowerChar(m2[k])
    ensures ResolveToken(a1 + m1 + b1, o, icons) == ResolveToken(a2 + m2 + b2, o, icons)
  {
    NormalizeIgnoresPaddingAndCase(a1, m1, b1);
    NormalizeIgnoresPaddingAndCase(a2, m2, b2);
    assert ToLower(m1) == ToLower(m2);
  }

  /** A word that neither starts nor ends with white space. */
  predicate Word(w: string)
  {
    w != [] && !IsSpace(w[0]) && !IsSpace(w[|w| - 1])
  }

  /**
   * Two tokens that read `x` and `copy` once trimmed and lower-cased, such
   * as `" X , Copy "`, give the X link followed by a new copy button.
   */
  lemma ParseXThenCopy(a1: string, w1: string, b1: string, a2: string, w2: string, b2: string,
                       o: Options, icons: NetworkIcons)
    requires AllSpace(a1) && AllSpace(b1) && AllSpace(a2) && AllSpace(b2)
    requires Word(w1) && Word(w2) && ToLower(w1) == "x" && ToLower(w2) == "copy"
    requires ',' !in a1 + w1 + b1 && ',' !in a2 + w2 + b2
    ensures var r := ParseNetworks((a1 + w1 + b1) + "," + (a2 + w2 + b2), o, icons);
      && |r| == 2
      && r[0] == SocialLink(CreateSocialMediaLink(icons.x, "X", XTemplate, o))
      && r[1] == CopyControl(NewCopyButton(o, icons))
  {
    ParseTwo(a1 + w1 + b1, a2 + w2 + b2, o, icons);
    PaddedX(a1, w1, b1, o, icons);
    PaddedCopy(a2, w2, b2, o, icons);
  }

  lemma PaddedX(a: string, w: string, b: string, o: Options, icons: NetworkIcons)
    requires AllSpace(a) && AllSpace(b) && Word(w) && ToLower(w) == "x"
    ensures ResolveToken(a + w + b, o, icons) == SocialLink(CreateSocialMediaLink(icons.x, "X", XTemplate, o))
  {
    NormalizeIgnoresPaddingAndCase(a, w, b);
    ResolveX(a + w + b, o, icons);
  }

  lemma PaddedCopy(a: string, w: string, b: string, o: Options, icons: NetworkIcons)
    requires AllSpace(a) && AllSpace(b) && Word(w) && ToLower(w) == "copy"
    ensures ResolveToken(a + w + b, o, icons) == CopyControl(NewCopyButton(o, icons))
  {
    NormalizeIgnoresPaddingAndCase(a, w, b);
  }

  /** Two comma-free tokens give one entry each, in order. */
  lemma ParseTwo(t1: string, t2: string, o: Options, icons: NetworkIcons)
    requires ',' !in t1 && ',' !in t2
    ensures var r := ParseNetworks(t1 + "," + t2, o, icons);
      |r| == 2 && r[0] == ResolveToken(t1, o, icons) && r[1] == ResolveToken(t2, o, icons)
  {
    SplitTwo(t1, t2, ',');
  }

  lemma ResolveX(raw: string, o: Options, icons: NetworkIcons)
    requires NormalizeToken(raw) == "x"
    ensures ResolveToken(raw, o, icons) == SocialLink(CreateSocialMediaLink(icons.x, "X", XTemplate, o))
  {
    assert ResolveToken(raw, o, icons) == ResolveKey("x", o, icons);
    ResolveKeyX(o, icons);
  }

  lemma ResolveKeyX(o: Options, icons: NetworkIcons)
    ensures ResolveKey("x", o, icons) == SocialLink(CreateSocialMediaLink(icons.x, "X", XTemplate, o))
  {
    assert Registry(icons)["x"] == NetworkDef(icons.x, "X", XTemplate);
  }

  /** The string `" X , Copy "`, spelled as its padded tokens. */
  lemma ParseExample(o: Options, icons: NetworkIcons)
    ensures var r := ParseNetworks((" " + "X" + " ") + "," + (" " + "Copy" + " "), o, icons);
      && |r| == 2
      && r[0] == SocialLink(CreateSocialMediaLink(icons.x, "X", XTemplate, o))
      && r[1] == CopyControl(NewCopyButton(o, icons))
  {
    assert ToLower("X") == "x" && ToLower("Copy") == "copy";
    ParseXThenCopy(" ", "X", " ", " ", "Copy", " ", o, icons);
  }

  /** The row of network entries (`div.social-media-container`). */
  datatype Container = Container(classes: seq<string>, part: string, entries: seq<Entry>)

  /**
   * What `createPopoverContent` returns: in atomic mode the row alone,
   * otherwise a `div.popover-inner` holding the up triangle, the row and the
   * down triangle.
   */
  datatype Content = Inner(row: Container) | Row(row: Container)

  function CreatePopoverContent(networks: string, o: Options, icons: NetworkIcons): (c: Content)
    ensures c.Row? <==> o.isAtomic
    ensures c.row.entries == ParseNetworks(networks, o, icons)
    ensures ("atomic" in c.row.classes) <==> o.isAtomic
    ensures "social-media-container" in c.row.classes
  {
    var row := Container(
      (if o.isAtomic then ["atomic"] else []) + ["social-media-container"],
      "share-social-media",
      ParseNetworks(networks, o, icons));
    if o.isAtomic then Row(row) else Inner(row)
  }
}

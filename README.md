# share-button, modelled in Dafny

`<share-button>` is a web component. It shows a trigger button. A click on the
trigger does one of three things:

- on a mobile browser with `navigator.share`, it opens the native share sheet;
- where the browser has the popover API, it opens a panel of share links;
- everywhere else, it copies the share URL (`data-url` when set, else the
  page URL) to the clipboard.

The panel lists the networks named in the comma-separated `networks`
attribute. Each known network becomes a link built from a URL template. The
token `copy` becomes a button that copies the link and then shows a "copied"
state for a while. Before the panel opens, it is placed next to the trigger,
shifted away from the viewport edges, and turned up or down.

The model covers these files:

- `src/main.ts`: the element's click dispatch, the panel placement, the
  defaults read from attributes, the icon and trigger button, and the wrapper
  that `render` builds.
- `src/popover.ts`: the panel content. This is the network registry, the
  templating, the parsing of the `networks` string and the copy button.

| file | module | form |
|---|---|---|
| `wrappers.dfy` | `Wrappers` | `Option` |
| `text.dfy` | `Text` | JavaScript `trim`, `toLowerCase`, `split`, and `replace` with a global pattern, as functions with their laws |
| `popover.dfy` | `Popover` | registry, templating and token parsing, as functions and lemmas |
| `copy_button.dfy` | `CopyButtons` | the copy button: a transition function `Next`, and a class `CopyButton` whose methods follow it |
| `render.dfy` | `Render` | attribute defaults, `createIcon`, `createButton`, `createPopover`, the rendered wrapper |
| `placement.dfy` | `Placement` | placement arithmetic and class-set updates as functions, and a class `Panel` whose `Place` method mirrors the click handler step by step |
| `controller.dfy` | `Controller` | the element as a class `ShareButton`: click dispatch, the clipboard-fallback label timer, close on resize or scroll, re-render |

Browser behaviour is modelled as inputs and events:

- Measurements (`getBoundingClientRect`, `innerWidth`, `clientHeight`,
  `scrollY`) are `real` inputs.
- The outcome of a clipboard write is an event `Click(Written)` or
  `Click(Rejected)`.
- Timers firing are events.
- The browser's features (the popover API, `navigator.share`,
  `navigator.clipboard`) are boolean inputs.
- Share and clipboard requests are recorded in sequences.

## Behaviour worth knowing

- When the title is empty, `{{text}}` is left in the link as the literal text
  `{{text}}`. It is not replaced by an empty string (`src/popover.ts:39-41`).
- `encodeURI` is applied to the whole link once the placeholders are filled.
  The share URL is not encoded separately (`src/popover.ts:45`).
- Near both viewport edges, both `left-adjust` and `right-adjust` are added.
  Neither is ever removed while the panel exists, so the two can be present
  together (`src/main.ts:117`, `src/main.ts:126`).
- In the clipboard fallback, the host's text becomes the copied label after
  1000 ms. It is never reverted. The icon swap builds a button that is then
  discarded, so it has no effect (`src/main.ts:153-156`).
- The clipboard fallback calls `navigator.clipboard.writeText` without a
  guard. On a page where the browser offers no `navigator.clipboard` (an
  insecure page), the call throws: nothing is copied and the label never
  changes (`src/main.ts:152-153`). The copy button in the panel catches the
  same failure and stays as it was (`src/popover.ts:143-159`).
- A `{{text}}` inside the share URL is replaced by the title too, since the
  second `replace` runs on the link after the URL is in it
  (`src/popover.ts:37-40`).
- An unknown network token yields the string `""`. Appending that string adds
  an empty text node, so the token leaves an entry in the panel's row
  (`src/popover.ts:164`, `src/popover.ts:171`).
- The resize and scroll listeners are added on every render and never removed
  (`src/main.ts:166-167`).
- Up or down is decided from the trigger's `y`. The top position is computed
  from its `top`. These differ only for a box of negative height
  (`src/main.ts:133-143`).

## Model

| member | source | states |
|---|---|---|
| Text.Trim | src/popover.ts:124 | `trim` drops only white space (ECMAScript WhiteSpace and LineTerminator) from both ends, and the result neither starts nor ends with white space |
| Text.TrimPadded | src/popover.ts:124 | a word surrounded by any white space trims to exactly that word |
| Text.ToLower | src/popover.ts:124 | `toLowerCase` keeps the length, turns each ASCII upper-case letter into its lower-case letter, and changes no other character |
| Text.Split | src/popover.ts:123 | `split(",")` gives at least one piece, and no piece contains a comma |
| Text.SplitCount | src/popover.ts:123 | `split(",")` gives one piece more than there are commas |
| Text.JoinSplit | src/popover.ts:123 | the pieces, joined with the separator, give back the original string, so nothing is lost or reordered |
| Text.SplitJoin | src/popover.ts:123 | separator-free pieces, once joined, split back into exactly those pieces |
| Text.ReplaceAllAbsent | src/popover.ts:37 | a literal global replacement leaves a string in which the pattern does not occur unchanged |
| Text.ReplaceAll | src/popover.ts:37 | `replace(/p/g, r)` with `r` inserted literally, scanning left to right without overlap; its laws are the lemmas `ReplaceAllAbsent` and `ReplaceAllFirst` |
| Text.ReplaceAllFirst | src/popover.ts:37 | for `a + p + b` where no occurrence of `p` starts inside `a`, the replacement keeps `a`, replaces that occurrence and goes on with `b` |
| Text.Substitution | src/popover.ts:37-40 | the text `replace` inserts for one match is the replacement itself when it holds no `$` |
| Text.SubstitutionOfMatch | src/popover.ts:40 | the replacement `$&` inserts the matched text, not the two characters |
| Text.ReplaceGlobalIsLiteral | src/popover.ts:37-40 | JavaScript's `replace(/p/g, r)` equals literal replacement whenever `r` has no `$`, from any scan position |
| Text.ReplaceGlobal | src/popover.ts:37-40 | `replace(/p/g, r)` as JavaScript evaluates it, `$` patterns included; it equals `ReplaceAll` whenever `r` has no `$` |
| Popover.Registry | src/popover.ts:55-117 | the registry has exactly the keys `facebook`, `x`, `linkedin`, `email`, `whatsapp`, `telegram` and `copy`; the `copy` entry's template is empty |
| Popover.RegistryKeysAreLowerNames | src/popover.ts:55-117 | each registry key is its network's display name in lower case, so a link's class and part name the token that selected it |
| Popover.FinalUrl | src/popover.ts:37-41 | the corrected link target: both placeholders are filled by literal substitution, `{{text}}` only for a non-empty title; a template with neither placeholder is kept as it is |
| Popover.FinalUrlAsWritten | src/popover.ts:37-41 | the link target as the code computes it, with `$` patterns in URL and title expanded; it equals `FinalUrl` whenever neither URL nor title holds `$` |
| Popover.TextPlaceholderKept | src/popover.ts:37 | the `{{url}}` pass does not touch a `{{text}}` placeholder |
| Popover.UrlPass | src/popover.ts:37 | the `{{url}}` pass fills every URL slot of a template and leaves its text slots |
| Popover.TextPass | src/popover.ts:39-41 | the `{{text}}` pass fills every text slot with the title |
| Popover.FinalUrlFillsTemplate | src/popover.ts:37-41 | for a brace-free share URL, every `{{url}}` becomes the URL; every `{{text}}` becomes the title if the title is non-empty, and stays literal otherwise |
| Popover.TelegramLink | src/popover.ts:37-41 | for the Telegram template, a brace-free URL `u` and title `t` give `https://t.me/share/url?url=u&text=t`; an empty title gives `...&text={{text}}` |
| Popover.DollarTitleMangled | src/popover.ts:40 | as written, the title `$&` leaves `{{text}}` in the Telegram link, where the literal substitution puts `$&` |
| Popover.CreateSocialMediaLink | src/popover.ts:32-53 | classes `social-media` plus the lower-cased name; part `share-link <name>`; label `Share on <name>`; the href encodes `FinalUrl` of the template, which is the code's own link whenever URL and title hold no `$`; the name is shown only outside atomic mode |
| Popover.CopyLinkLabel | src/popover.ts:131 | the copy label is the configured one when present and non-empty, and `Copy link` otherwise |
| Popover.NewCopyButton | src/popover.ts:125-133 | the copy button copies the share URL; its initial and copied contents are the icons with the labels, or the icons alone in atomic mode |
| Popover.NormalizeToken | src/popover.ts:124 | a token as it is looked up is the trimmed token lower-cased; it is empty exactly when the token is all white space; it is no longer than the raw token, has no white space at either end and no ASCII upper-case letter |
| Popover.ResolveKey | src/popover.ts:125-164 | `copy` gives a new copy button (never the registry's copy anchor), a registry key gives its link, any other key gives `""` |
| Popover.ResolveToken | src/popover.ts:124-164 | a token is looked up trimmed and lower-cased, with the three outcomes of `ResolveKey` stated as if-and-only-ifs |
| Popover.ParseNetworks | src/popover.ts:123-165 | one entry per piece of `split(",")`, in order, empty and repeated tokens included; entry i resolves token i |
| Popover.NormalizeIgnoresPaddingAndCase | src/popover.ts:124 | a word padded with any white space normalizes to the word lower-cased |
| Popover.TokenCaseInsensitive | src/popover.ts:124-164 | two padded words that agree letter by letter once lower-cased select the same entry, whatever their padding and ASCII case |
| Popover.ParseXThenCopy | src/popover.ts:123-165 | any two tokens that read `x` and `copy` once trimmed and lower-cased give the X link followed by a new copy button |
| Popover.ParseExample | src/popover.ts:123-125 | `" X , Copy "` gives the X link followed by a new copy button |
| Popover.CreatePopoverContent | src/popover.ts:167-184 | the row holds the parsed entries; it is marked `atomic` exactly in atomic mode, and only then returned bare instead of inside `popover-inner` |
| CopyButtons.InitialState | src/popover.ts:131-133 | a new copy button is enabled, shows its initial content and is consistent |
| CopyButtons.Next | src/popover.ts:143-159 | a rejected write changes nothing; a click on a disabled button changes nothing; a successful write disables the button, shows the copied content and starts the timer; the timer restores the initial state, and without a pending timer nothing changes; consistency is preserved |
| CopyButtons.RunKeepsConsistent | src/popover.ts:135-160 | after any sequence of clicks, outcomes and timer events, the button is disabled exactly while its timer is pending and shows the matching content |
| CopyButtons.CopiedAlwaysReverts | src/popover.ts:153-156 | whatever happened before, a disabled button returns to its initial state when its timer fires |
| CopyButtons.CopyButton.constructor | src/popover.ts:126-133 | the live button starts in the initial state |
| CopyButtons.CopyButton.Click | src/popover.ts:135-152 | an enabled button requests a write of the share URL and moves as `Next` says; a disabled one requests nothing |
| CopyButtons.CopyButton.TimerElapsed | src/popover.ts:153-156 | the 5000 ms timer moves the button as `Next` says |
| Render.Or | src/main.ts:36-43 | JavaScript's `or` on an optional string: a present, non-empty value, else the fallback |
| Render.Title | src/main.ts:36-40 | the title falls through `data-title`, page title, first heading, then `""`, an empty value counting as absent; it is empty only if all three are |
| Render.LinkUrl | src/main.ts:42 | `data-url` when present and non-empty, else the page location |
| Render.CopiedLabel | src/main.ts:43 | `data-copied-label` when present and non-empty, else `Copied!`; never empty |
| Render.Networks | src/main.ts:218-220 | the `networks` attribute when present and non-empty, else the full default list |
| Render.PanelOptions | src/main.ts:45-57 | the panel receives that title, URL and copied label, the `atomic` flag and the copy-link label as given |
| Render.CreateIcon | src/main.ts:171-187 | an absent or empty attribute gives icon 1; `false` gives no icon; `1`..`7` give that icon; anything else gives icon 1 |
| Render.CreateButton | src/main.ts:189-208 | `popovertarget` is set iff the popover API is used (supported and not mobile); `aria-label="Share"` and icon-only content iff circle or notext, else the icon then a slot |
| Render.CreatePopover | src/main.ts:210-242 | outside atomic mode, a `share-popover` panel around the content; in atomic mode, the content alone |
| Render.RenderView | src/main.ts:58-76 | the wrapper holds the trigger, or `""` in atomic mode, then the panel, or the text `<div></div>` without the popover API; when the trigger targets something, it targets that panel |
| Render.DefaultTokensSplit | src/main.ts:218-220 | the default `networks` string splits into its seven tokens |
| Render.KeyAfterSpace | src/popover.ts:124 | a lower-case key after white space is looked up as that key |
| Render.DefaultTokenNormalizes | src/main.ts:218-220 | each default token normalizes to its key |
| Render.ParseDefaultTokens | src/main.ts:218-220 | a string that splits into the default tokens gives the entries of the default keys, in order |
| Render.DefaultPanelEntries | src/main.ts:218-220 | without a `networks` attribute the panel has seven entries: X, LinkedIn, Facebook, Email, WhatsApp and Telegram links, then a copy button |
| Render.DefaultKeysInRegistry | src/main.ts:218-220 | the first six default keys are registered networks and the last is `copy` |
| Placement.AnchorFraction | src/main.ts:107-127 | the trigger's centre falls at 1/4 of the panel near the left edge, 3/4 near the right edge (right wins when both hold), 1/2 otherwise |
| Placement.PanelLeft | src/main.ts:107-127 | the panel's left plus the anchor fraction of its width is the trigger's centre |
| Placement.PanelTop | src/main.ts:133-147 | below, the panel's top meets the trigger's bottom; above, the panel's bottom meets the trigger's top (page coordinates) |
| Placement.PanelShiftsAwayFromEdge | src/main.ts:107-127 | away from edges the panel is centred on the trigger; near the left edge its centre lies right of the trigger's; near the right edge, left of it |
| Placement.PlacedClasses | src/main.ts:111-147 | after an activation exactly one of `up`/`down` is present, `up` iff below; an adjust class is added per edge touched and never removed; no other class changes |
| Placement.AdjustClassesPersist | src/main.ts:111-126 | after any series of activations an adjust class is present iff it was before or some activation touched that edge |
| Placement.DirectionFollowsLastActivation | src/main.ts:133-147 | after one or more activations exactly one of `up`/`down` is present, as the last activation chose |
| Placement.Panel.constructor | src/main.ts:233-236 | a new panel has no classes and no position, and is hidden |
| Placement.Panel.Reset | src/main.ts:51-57 | the panel built by a new render starts afresh |
| Placement.Panel.Place | src/main.ts:106-147 | the step-by-step updates leave the classes, `left` and `top` that `PlacedClasses`, `PanelLeft` and `PanelTop` give |
| Controller.ChoosePath | src/main.ts:82-156 | exactly one path per click: native share iff mobile, overlay iff not mobile and popover supported, clipboard otherwise |
| Controller.TargetIffOverlay | src/main.ts:195-197 | the trigger has `popovertarget` exactly when its click takes the overlay path |
| Controller.ShareButton.constructor | src/main.ts:27-73 | the first render: the wrapper and the values handlers use come from `RenderView` and the defaults |
| Controller.ShareButton.Render | src/main.ts:31-73 | a re-render rebuilds everything from the current attributes with a fresh panel; requests made and pending timers stay |
| Controller.ShareButton.Click | src/main.ts:77-157 | mobile: one share request, nothing else; overlay: panel placed and toggled, no request; otherwise, where `navigator.clipboard` exists, one clipboard write of the URL and one pending label timer, and nothing without it; the wrapper's children are the same afterwards (the measuring clone is added and removed) |
| Controller.ShareButton.LabelTimerElapsed | src/main.ts:153-156 | the oldest pending fallback timer sets the host's text to the label it captured |
| Controller.ShareButton.Close | src/main.ts:160-168 | resize or scroll hides the panel; without the popover API the listener fails and nothing changes |

## Left out

- Styles, dark mode, user styles and the shadow-root plumbing. Icon markup is
  an opaque input string.
- `encodeURI` is the uninterpreted constructor `Popover.EncodeUri`. It is not
  an implementation of URI encoding.
- Popover.EncodeUri: JavaScript strings are sequences of UTF-16 code units,
  while a Dafny `string` holds Unicode scalar values, so a lone surrogate
  cannot be represented. `encodeURI` throws `URIError` on one
  (`src/popover.ts:45`). All seven registry links are built eagerly
  (`src/popover.ts:55-117`), so a title or URL holding a lone surrogate makes
  `createPopoverContent`, and with it `render`, throw. In the model, link
  building and `Render.RenderView` always succeed.
- Popover.CreateSocialMediaLink: the `href` is built from `FinalUrl`, the
  corrected literal substitution, and not from `FinalUrlAsWritten`. The two
  differ only when the URL or the title holds `$` (see Findings). The
  contract states both the corrected link and its agreement with the code
  when there is no `$`.
- Text.ToLower: lower-cases ASCII letters only. Other Unicode case mappings
  of `toLowerCase` are not modelled.
- The user-agent test is reduced to one boolean input (`mobileAgent`).
- Positions are `real`s. Double rounding and the `px` string formatting are
  not modelled.
- Timing is not modelled. Timers are events, and pending fallback timers fire
  in the order they were set.
- CopyButtons.CopyButton.Click: a click and the outcome of the write it starts
  are one event. So a second click while a write is pending is not modelled,
  and neither are two overlapping 5000 ms timers.
- The `currentTarget` null check of the copy button's handler is left out. A
  handler always has a current target while it runs.
- Node identity is left out. A registry link used by two tokens is one DOM
  node, which the second append moves. The model keeps the sequence of
  entries, as `createPopoverContent` returns it.
- Controller.ShareButton.Click: `navigator.share` is a recorded request. A
  synchronous throw, a rejected promise and `removeAttribute("popover")` on
  the trigger change nothing observable, and are not modelled.
- Controller.ShareButton.Render: the panel built by a new render is modelled
  by resetting the one `Panel` object. Nothing else refers to the old panel.
  Resize and scroll listeners that pile up across renders all close the
  current panel, and are modelled once.
- Browser light dismiss of the popover is not modelled.
- `shareText` (`src/main.ts:224`) is passed to `createPopoverContent`, which
  never reads it.

## Findings

| source | as written | input that shows it | evidently intended | confidence | as-written member | corrected member |
|---|---|---|---|---|---|---|
| src/popover.ts:37-40 | `replace` with a string replacement reads `$` patterns in the share URL and the title (`$&`, `$$`, `` $` ``, `$'`) | title `$&` with the Telegram template: the link keeps `{{text}}` instead of the title | the title and URL are inserted literally | high, not executed | Popover.DollarTitleMangled | Popover.FinalUrlFillsTemplate |

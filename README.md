# Schibsted video player widget — a Dafny model

This project models the decision logic of the "Schibsted Video Player BS"
widget (`SchibstedVideoPlayerBS/src/VideoPlayerBS.tsx`), a page-builder
component that embeds an external video SDK. The browser globals
the component reads are parameters here: the user-agent string, the page's
hostname, the device kind, the SDK global (`window.SVP`) and the document,
given as its list of elements in tree order.

What is modelled, module by module:

- `JsStrings` — JavaScript `indexOf` (first occurrence or -1) and `includes`,
  proved against a reference definition of "contains".
- `Provider` — `returnProvider`, kept as the component's if/else-if chain,
  and proved equal to a first-match search over the ordered list of eleven
  brand domains, with the sentinel `PULSE-INIT` when nothing matches or the
  hostname is empty.
- `Browser` — the Safari / Chrome / iOS flags from the user agent. Chrome
  clears the Safari flag. The flags choose between the desktop and the mobile
  video id.
- `PlayerConfig` — the player configuration. `mute`, `autoplay` and
  `plugins` come from the `autoplay` and `theme` properties. `id` comes from
  the device, the user agent and both video ids. `node` is the node id,
  `pulse.provider` comes from the hostname and `pulse.decorator` from
  `repeat`. `vendor`, `locale`, `autopause`, `stretching`, `recommended` and
  `skin` are fixed. Also the pulse analytics decorator, a record update on
  JavaScript objects, modelled as maps.
- `ScriptLoader` — `initPlayer(d, s, id)`, the SDK script loader, as a
  method that changes a `Document` object's element list in place. It is
  proved against a specification function. Lemmas cover the no-op case,
  the insertion before the first `<s>` element, idempotence, "exactly one
  script with this id" and the missing-anchor failure.
- `Bootstrap` — `playerInit`, the loop (`time`) handler, `runPlayer`'s
  immediate-or-deferred decision on a `Window` object, and the mount effect.
  The mount effect loads the script and then runs the player. When the load
  throws because the document has no `<script>` element, the effect stops
  and `runPlayer` is never reached.

The component's parameter list defaults both video ids to 173843
(line 17), but the host registration gives `videoIdDesktop` the initial
value 173734 (line 168). The model's
`DefaultProps` uses the parameter-list defaults.

The DOM's `getElementById("")` never finds an element, so the loader's guard
never fires for an empty id. Idempotence is therefore proved for non-empty
ids, which is how the component calls it (`'svp-player-sdk'`).
`EmptyIdInsertsEachTime` records the empty-id case.

## Model

| member | source | states |
|---|---|---|
| `JsStrings.IndexOf` | SchibstedVideoPlayerBS/src/VideoPlayerBS.tsx:23-25 | `indexOf` is -1 exactly when the substring does not occur; otherwise it is a position where it occurs, and no earlier position has it |
| `JsStrings.IndexOfFrom` | SchibstedVideoPlayerBS/src/VideoPlayerBS.tsx:23-25 | the search from position k returns the first occurrence at or after k, or -1 when there is none |
| `JsStrings.Includes` | SchibstedVideoPlayerBS/src/VideoPlayerBS.tsx:98-118 | `includes` is true exactly when the substring occurs somewhere in the string |
| `Provider.FirstMatchFrom` | SchibstedVideoPlayerBS/src/VideoPlayerBS.tsx:98-122 | the index found is the first brand at or after k whose domain occurs in the hostname; none is found only when no such brand exists |
| `Provider.ReturnProvider` | SchibstedVideoPlayerBS/src/VideoPlayerBS.tsx:96-126 | an empty (falsy) hostname yields `PULSE-INIT` without any domain test; the full first-match meaning is stated by `ReturnProviderIsFirstMatch` |
| `Provider.ProviderFor` | SchibstedVideoPlayerBS/src/VideoPlayerBS.tsx:96-126 | reference provider tag: the sentinel exactly when no domain occurs; otherwise the tag of a matching brand that no earlier brand precedes |
| `Provider.ReturnProviderIsFirstMatch` | SchibstedVideoPlayerBS/src/VideoPlayerBS.tsx:96-126 | the if/else chain (with its empty-hostname test) equals the first-match search over the ordered list adressa.no, aftenposten.no, bt.no, e24.no, fvn.no, aftenbladet.no, vg.no, tek.no, finn.no, godt.no, minmote.no |
| `Provider.ReturnProviderSelects` | SchibstedVideoPlayerBS/src/VideoPlayerBS.tsx:96-126 | `returnProvider` yields brand i's tag if and only if brand i's domain occurs and no earlier brand's domain does |
| `Provider.TagsAreNotSentinel` | SchibstedVideoPlayerBS/src/VideoPlayerBS.tsx:96-126 | no brand tag equals the sentinel, so the sentinel means "no match" |
| `Browser.DetectBrowser` | SchibstedVideoPlayerBS/src/VideoPlayerBS.tsx:22-28 | Safari is flagged if and only if "Safari" occurs and "Chrome" does not; Chrome if and only if "Chrome" occurs; iOS if and only if "iPhone" or "iPad" occurs |
| `Browser.SelectVideoId` | SchibstedVideoPlayerBS/src/VideoPlayerBS.tsx:50 | the id is one of the two given ids: the desktop id exactly when the device is a desktop and neither the Safari nor the iOS flag is set, the mobile id otherwise |
| `Browser.ChromeOverridesSafari` | SchibstedVideoPlayerBS/src/VideoPlayerBS.tsx:26-28 | a user agent with both "Chrome" and "Safari" is classified Chrome and not Safari |
| `Browser.VideoIdFromUserAgent` | SchibstedVideoPlayerBS/src/VideoPlayerBS.tsx:50 | the desktop id is used when the device is a desktop, the resolved Safari flag is off and neither "iPhone" nor "iPad" occurs; in every other case the mobile id is used |
| `PlayerConfig.Get` | SchibstedVideoPlayerBS/src/VideoPlayerBS.tsx:68 | reading `eventData.provider` or `eventData.object` gives the property's value when present and `undefined` when missing |
| `PlayerConfig.Spread` | SchibstedVideoPlayerBS/src/VideoPlayerBS.tsx:68 | `{...v}` copies exactly the properties of an object; a non-object (`undefined`, `null`, a boolean, a number) spreads to no properties |
| `PlayerConfig.Plugins` | SchibstedVideoPlayerBS/src/VideoPlayerBS.tsx:34-40 | with muted autoplay the plugin map has exactly one key, the muted-plugin URL, bound to `MutedPlugin` with empty options; otherwise it is empty |
| `PlayerConfig.Decorate` | SchibstedVideoPlayerBS/src/VideoPlayerBS.tsx:64-69 | the decorated event keeps every other top-level field. `provider` gains `productTag = 'partnerstudio'` and keeps its other fields. `object` gets `loop = repeat` and `autoplay = true` and keeps its other fields |
| `PlayerConfig.DecorateIdempotent` | SchibstedVideoPlayerBS/src/VideoPlayerBS.tsx:68 | decorating an already decorated event gives the same event, whatever the asset |
| `PlayerConfig.BuildConfig` | SchibstedVideoPlayerBS/src/VideoPlayerBS.tsx:30-72 | every field of the configuration: the chosen video id, `mute = autoplay && theme`, `autoplay` is 'viewable' or false, the plugin map, the first-match provider tag, the decorator, and the constants (vendor brandstudio, locale no, autopause viewable, stretching fill, all recommended flags false, the vgtv skin) |
| `PlayerConfig.MutedAutoplayConfig` | SchibstedVideoPlayerBS/src/VideoPlayerBS.tsx:30-42 | with autoplay and theme on the configuration is muted, autoplays when viewable and carries the muted plugin |
| `PlayerConfig.DefaultPropsConfig` | SchibstedVideoPlayerBS/src/VideoPlayerBS.tsx:17 | with the parameter-list defaults the player shows video 173843 on every device and browser, autoplays when viewable, muted, with the muted plugin |
| `PlayerConfig.NoAutoplayConfig` | SchibstedVideoPlayerBS/src/VideoPlayerBS.tsx:30-42 | with autoplay off the configuration is not muted, does not autoplay and has no plugins |
| `ScriptLoader.GetElementById` | SchibstedVideoPlayerBS/src/VideoPlayerBS.tsx:131 | the position found is the first element carrying the id; nothing is found for the empty id or when no element carries it |
| `ScriptLoader.FirstByTag` | SchibstedVideoPlayerBS/src/VideoPlayerBS.tsx:130 | the position found is the first element with the tag; nothing is found only when no element has it |
| `ScriptLoader.CreateElement` | SchibstedVideoPlayerBS/src/VideoPlayerBS.tsx:135 | `d.createElement(s)` gives an element with tag s, no id, no `src` and the async flag off |
| `ScriptLoader.SdkScript` | SchibstedVideoPlayerBS/src/VideoPlayerBS.tsx:135-143 | the inserted element has tag s, the given id, the SDK bundle URL as `src` and `async` on; with a non-empty id `getElementById` finds it |
| `ScriptLoader.LoadPlan` | SchibstedVideoPlayerBS/src/VideoPlayerBS.tsx:128-148 | an insertion always happens at an existing element with the requested tag |
| `ScriptLoader.AfterLoad` | SchibstedVideoPlayerBS/src/VideoPlayerBS.tsx:128-148 | the element list after the load: unchanged on the early return and on the failing path; after an insertion at i, one element longer, with the SDK script at i, the elements before i in place and those from i on shifted by one |
| `ScriptLoader.InitPlayer` | SchibstedVideoPlayerBS/src/VideoPlayerBS.tsx:128-149 | the path taken and the new element list are those of the specification functions `LoadPlan` and `AfterLoad` applied to the old element list |
| `ScriptLoader.LoadWhenPresent` | SchibstedVideoPlayerBS/src/VideoPlayerBS.tsx:131-134 | when an element with the (non-empty) id exists the call returns early and the document is unchanged |
| `ScriptLoader.LoadWithoutAnchor` | SchibstedVideoPlayerBS/src/VideoPlayerBS.tsx:130-148 | with the id absent and no `<s>` element the call fails at `fjs.parentNode` and the document is unchanged |
| `ScriptLoader.LoadInsertsBeforeFirst` | SchibstedVideoPlayerBS/src/VideoPlayerBS.tsx:135-148 | with the id absent and the first `<s>` element at position i, the call inserts at i and the new list is the old one with the script (tag s, the id, the bundle URL, async) placed right before that element |
| `ScriptLoader.LoadIdempotent` | SchibstedVideoPlayerBS/src/VideoPlayerBS.tsx:128-149 | a second call with the same non-empty id leaves the document as the first call left it |
| `ScriptLoader.LoadLeavesOne` | SchibstedVideoPlayerBS/src/VideoPlayerBS.tsx:128-149 | starting without the id and with a `<s>` element present, one call and also two calls leave exactly one element with that id |
| `ScriptLoader.EmptyIdInsertsEachTime` | SchibstedVideoPlayerBS/src/VideoPlayerBS.tsx:131 | with a `<s>` element present and the empty id, the guard never fires and two calls add two elements |
| `Bootstrap.DecimalText` | SchibstedVideoPlayerBS/src/VideoPlayerBS.tsx:159 | the decimal text of a non-negative number is a non-empty string of digits, without a leading zero unless it is "0", whose value is the number; a negative number gives '-' followed by such digits, not starting with '0', whose value is its magnitude |
| `Bootstrap.NodeId` | SchibstedVideoPlayerBS/src/VideoPlayerBS.tsx:52 | the player node id is the decimal text of the desktop id, then that of the mobile id, then `-player` |
| `Bootstrap.NodeIdsCanCollide` | SchibstedVideoPlayerBS/src/VideoPlayerBS.tsx:52 | the two ids are joined without a separator, so desktop 12 with mobile 3 and desktop 1 with mobile 23 both give the node id `123-player` |
| `Bootstrap.PlayerInit` | SchibstedVideoPlayerBS/src/VideoPlayerBS.tsx:47-83 | the constructed player gets a `time` handler if and only if `repeat` is on, is mounted in the component's node and is muted exactly when autoplay and theme are on |
| `Bootstrap.OnTime` | SchibstedVideoPlayerBS/src/VideoPlayerBS.tsx:74-80 | a tick issues a seek, always to 0, if and only if the loop handler is attached and playback is near its end |
| `Bootstrap.NoRepeatNeverSeeks` | SchibstedVideoPlayerBS/src/VideoPlayerBS.tsx:74-80 | a player built with `repeat` off never seeks |
| `Bootstrap.Decide` | SchibstedVideoPlayerBS/src/VideoPlayerBS.tsx:87 | the player is built now if and only if the SDK global exists and reports `isLoaded` |
| `Bootstrap.RunPlayer` | SchibstedVideoPlayerBS/src/VideoPlayerBS.tsx:86-94 | if the SDK is ready exactly one player, built by `playerInit`, is added and no listener; otherwise exactly one `onSvpPlayerReady` listener is added and no player; the SDK global is unchanged |
| `Bootstrap.Mount` | SchibstedVideoPlayerBS/src/VideoPlayerBS.tsx:151-155 | the mount effect loads the SDK script (`'script'`, `'svp-player-sdk'`) and the document becomes `AfterLoad` of the old one; when the load fails for want of a `<script>` element, no listener and no player is added; otherwise `runPlayer`'s decision is made, with exactly its effect; the SDK global is unchanged |
| `Bootstrap.RemountBeforeReady` | SchibstedVideoPlayerBS/src/VideoPlayerBS.tsx:151-155 | two mounts before the SDK is ready, for two different device kinds (the effect re-runs on a device change), with no SDK script yet and a `<script>` element present, leave exactly one SDK script and two readiness listeners, and construct no player |

## Left out

- React rendering, JSX, `useRef`, the `useEffect` lifecycle and the `useDevice` hook: UI framework plumbing. The device kind and the mount are parameters and methods here.
- `registerVevComponent`, its property schema and `editableCSS`: host-platform registration data, not logic.
- The SDK's `Player` constructor and its playback, analytics and network behaviour: an opaque foreign library. A player is recorded as the configuration it was given plus whether a `time` handler was attached.
- `addEventListener` mechanics and the firing of `onSvpPlayerReady`: browser event plumbing. Registered listeners are recorded in order and never fired.
- Bootstrap.OnTime: the test `getDuration() - getCurrentTime() <= .5` is floating-point arithmetic on SDK values. It is the abstract flag `nearEnd`.
- `console.log` and `console.debug`: diagnostic output.
- `scroll-container/src/ScrollContainer.tsx`: markup pass-through with no logic.
- PlayerConfig.Spread: spreading a string copies its characters as indexed properties; the model treats every non-object value as contributing no properties. The decorator only spreads `eventData.provider` and `eventData.object`, which the pulse schema makes objects.
- PlayerConfig.Decorate: JavaScript objects keep their property order; maps do not, so the model does not capture key order.
- ScriptLoader.FirstByTag: HTML tag-name matching is case-insensitive. The model compares tags exactly.
- ScriptLoader.Element: the DOM is a tree. The model keeps only tree order, which is all that `getElementById`, `getElementsByTagName(s)[0]` and `insertBefore` next to the first match depend on.
- Bootstrap.DecimalText: JavaScript numbers are doubles. Non-integers and integers of 10^21 or more print differently. Video ids are modelled as integers.
- PlayerConfig.JsValue: numbers are modelled as integers, not doubles.
- Browser.DetectBrowser: JavaScript strings are UTF-16 code units; here they are Dafny characters, with no normalisation.

# chatkit-vue core, modelled in Dafny

This project models the core of chatkit-vue, the Vue binding for OpenAI's ChatKit web component. It covers four parts:

- **Option stabilizer** (`src/composables/useStableOptions.ts`). The host passes an options tree that may hold callbacks, and it is rebuilt on every render. The stabilizer compares each new tree with the last snapshot using `deepEqualIgnoringFns`, which is structural equality that treats any two functions as equal. When only functions changed, ChatKit keeps receiving the same stabilized tree. Every function in that tree is a wrapper that remembers its path; calling the wrapper looks the path up in the *latest* options and calls what it finds there.
- **`useChatKit`** (`src/composables/useChatKit.ts`). It splits the stabilized options into handlers (keys matching `on[A-Z]`, except `onClientTool`) and plain options. It also forwards six methods to the mounted element, and warns while no element is mounted.
- **Widget style builder** (`src/widgets/utils.ts`). It maps widget layout props to a CSS property dictionary: spacing with `x`/`y` expansion, borders, the radius token table, sizes, and light/dark colours.
- **Hosted client secret** (`src/hosted.ts`). It picks the secret field from the server's reply, builds the request, checks the reply, and follows a cache rule that decides when to fetch again.

Modules:

- `Wrappers`: `Option` and `Result`.
- `JsValue`: the value tree.
  - Scalars, functions, stable wrappers, plain arrays and records, and non-plain objects.
  - A record is its own keys in `Object.keys` order.
  - Property lookup `Get`, the path walk `GetByPath`, and how JavaScript prints an integer below 10^21 in magnitude.
- `DeepEqual`: the comparison.
  - `FnBlindEqual` is the relation as a declarative predicate, with its algebra.
  - `DeepEqualFrom`, `ItemsEqual` and `FieldsEqual` are the recursive comparison with its `seen` side table, proved equal to `FnBlindEqual`.
- `Rewrap`: `withLatestFunctionWrappers`.
  - The `Rewrapper` class keeps the shared `path` stack that `visit` pushes onto and truncates.
  - `WrapAt` is its specification.
  - `InvokeWrapper` is what a call to a wrapper reaches.
- `StableOptions`: `useStableOptions` as the class `Stabilizer`.
  - Its fields are the three refs, plus a generation counter that stands for the identity of the `shaped` ref's value.
  - `StableDispatch` is the end-to-end guarantee: after any run of updates, every function of the stabilized tree calls the function the latest options hold at the same path.
- `ChatKit`: `useChatKit` as the class `ChatKitBinding`, with the handler/option partition.
- `WidgetStyle`: the style helpers as methods of a `Style` class that owns the dictionary, each proved against a function on dictionaries.
  - Properties are keyed by the `CssProp` datatype. Its `Name()` is the camel-case property name.
- `Hosted`: the `HostedClientSecret` class, which owns `cachedSecret`, and the pure request and parse logic.

Behaviour follows the code where the repository's tests disagree with it:

- `src/hosted.test.ts:30` expects a second `getClientSecret('first-secret')` to be served from the cache. `src/hosted.ts:145` makes that call a forced refresh, and `Hosted.CacheRule` and `Hosted.CacheScenario` follow the code.
- `src/hosted.test.ts:75` expects a different error text from the one at `src/hosted.ts:72-73`. The model uses the code's text.

## Model

| member | source | states |
|---|---|---|
| JsValue.Get | src/composables/useStableOptions.ts:74 | an array index in range gives that item; a record key gives the record's own value for it (`undefined` when absent) |
| JsValue.Lookup | src/composables/useStableOptions.ts:52-53 | reading an own key gives the value stored under it; a key that is not an own key reads as `undefined` |
| JsValue.GetByPath | src/composables/useStableOptions.ts:68-69 | a walk from `null`/`undefined` stays there; a walk of one or more keys from a boolean, number or string ends at `undefined` |
| JsValue.GetByPathStopsAtNullish | src/composables/useStableOptions.ts:68-69 | once any prefix of the path reaches `null`/`undefined`, the walk returns that value whatever keys follow |
| JsValue.IsPlainObjectOrArray | src/composables/useStableOptions.ts:5-14 | arrays and plain records are plain; `null`, `undefined`, functions and class instances never are |
| JsValue.Decimal | src/widgets/utils.ts:38 | a non-empty text that starts with a minus sign exactly when the number is negative |
| JsValue.NatDecimalDigits | src/widgets/utils.ts:38 | the printed digits read back as the number, with no leading zero |
| JsValue.DecimalRoundTrip | src/widgets/utils.ts:38 | after an optional minus sign, the printed text is the digits of the magnitude, without leading zeros, and reads back as the number |
| DeepEqual.DeepEqualIgnoringFns | src/composables/useStableOptions.ts:16-59 | the answer with a fresh side table is exactly `FnBlindEqual(a, b)` |
| DeepEqual.DeepEqualFrom | src/composables/useStableOptions.ts:16-33 | with a sound side table the answer is exactly `FnBlindEqual(a, b)`; when the answer is true, every entry of the returned table is a pair found equal or an entry it was given, unchanged |
| DeepEqual.ItemsEqual | src/composables/useStableOptions.ts:35-42 | given two arrays of one length, true exactly when the items are equal position by position (the length check itself is in `DeepEqualFrom`) |
| DeepEqual.FieldsEqual | src/composables/useStableOptions.ts:44-58 | given two records with the same number of own keys, true exactly when each key of `a` is an own key of `b` with an equal value (the key-count check itself is in `DeepEqualFrom`) |
| DeepEqual.FnBlindEqualReflexive | src/composables/useStableOptions.ts:21 | every well-formed value equals itself, so the `Object.is` shortcut agrees with the relation |
| DeepEqual.FunctionLeaves | src/composables/useStableOptions.ts:23-25 | any two functions are equal; a function never equals a non-function |
| DeepEqual.OpaqueAndKinds | src/composables/useStableOptions.ts:5-14 | non-plain objects are equal only when identical, and an array never equals a record |
| DeepEqual.FnBlindEqualSymmetric | src/composables/useStableOptions.ts:44-58 | on records with distinct keys, the key-count check plus `hasOwnProperty` make the relation symmetric |
| DeepEqual.FnBlindEqualTransitive | src/composables/useStableOptions.ts:44-58 | the relation is transitive, so the snapshot compares consistently across renders |
| DeepEqual.KeyOrderIrrelevant | src/composables/useStableOptions.ts:44-56 | a record equals any reordering of its own fields |
| DeepEqual.RenamedFunctionsStayEqual | src/composables/useStableOptions.ts:23-25 | replacing every callback by a new one (an inline-callback re-render) keeps the tree equal |
| Rewrap.WrapperFor | src/composables/useStableOptions.ts:82-85 | the wrapper for a function at path `p` captures the parent path and the last key, which together are `p` |
| Rewrap.WrapAt | src/composables/useStableOptions.ts:81-108 | the copy has a function exactly where the source has one |
| Rewrap.Rewrapper.Visit | src/composables/useStableOptions.ts:81-108 | the result is `WrapAt(v, path)`, and the shared `path` stack is as it was before the call |
| Rewrap.Rewrapper.VisitArray | src/composables/useStableOptions.ts:87-96 | a new array of the same length whose item `i` is visited at `path + [i]`; the path is truncated back |
| Rewrap.Rewrapper.VisitObject | src/composables/useStableOptions.ts:97-106 | a new record with the same own keys in order, each value visited at `path + [k]`; the path is truncated back |
| Rewrap.Rewrapper.VisitEntry | src/composables/useStableOptions.ts:100-103 | one pass of the object loop: the key is written at the current depth, and the entry is the key with its value rewrapped at `path + [k]` |
| Rewrap.WithLatestFunctionWrappers | src/composables/useStableOptions.ts:63-111 | the stabilized copy of the whole tree is `Wrap(root)` |
| Rewrap.GetByPathWrapped | src/composables/useStableOptions.ts:81-108 | looking up a path in the copy gives the copy of what the source holds at that path |
| Rewrap.WrapperAtEveryFunction | src/composables/useStableOptions.ts:82-86 | wherever the source holds a function, the copy holds the wrapper for that exact path |
| Rewrap.WrapKeepsShape | src/composables/useStableOptions.ts:87-107 | a plain tree and its copy are equal ignoring functions |
| Rewrap.WrapWellFormed | src/composables/useStableOptions.ts:97-106 | the copy of a tree with distinct keys has distinct keys, since each object's own keys are copied one for one |
| Rewrap.WrapIdempotent | src/composables/useStableOptions.ts:81-108 | rewrapping a rewrapped tree puts the same path wrappers at the same paths, so the two trees are equal as values |
| Rewrap.InvokeWrapper | src/composables/useStableOptions.ts:71-79 | a wrapper call reaches a function only, with the latest parent as receiver |
| Rewrap.WrapperDispatch | src/composables/useStableOptions.ts:68-79 | the wrapper for path `q` calls exactly what the latest tree holds at `q`, with its parent as `this`, and calls nothing when no function is there |
| Rewrap.WrapperOfWrapper | src/composables/useStableOptions.ts:71-79 | a wrapper resolved against a stabilized tree reaches that tree's own wrapper for the same path |
| StableOptions.GetByPathKeepsEquality | src/composables/useStableOptions.ts:68-69 | trees equal ignoring functions reach equal values along every path |
| StableOptions.StableDispatch | src/composables/useStableOptions.ts:118-130 | while the latest options equal the snapshot ignoring functions, every function of the stabilized tree is the wrapper for its path, and calling it reaches the latest options' function there |
| StableOptions.ShapedMatchesLatest | src/composables/useStableOptions.ts:118-130 | for a tree without class instances, the stabilized tree consumers hold equals the latest options ignoring functions |
| StableOptions.Stabilizer.constructor | src/composables/useStableOptions.ts:116-120 | latest and snapshot are the initial options; shaped is their rewrapped copy, equal to them ignoring functions when the tree has no class instances |
| StableOptions.Stabilizer.Update | src/composables/useStableOptions.ts:122-130 | latest is always the new value; snapshot and shaped stay unchanged (same generation) when it equals the snapshot ignoring functions, otherwise both are replaced and the generation advances; for a tree without class instances, shaped then equals latest ignoring functions |
| StableOptions.Stabilizer.Invoke | src/composables/useStableOptions.ts:71-79 | calling the function at a path of `shaped` reaches the function at that path of the latest options, with its parent as receiver; no call when no function is there |
| StableOptions.CallbackRecreated | src/composables/useStableOptions.ts:126 | two renders with the same theme whose inline callback is re-created are equal ignoring functions, so the stabilized tree is kept |
| StableOptions.ThemeChanged | src/composables/useStableOptions.ts:126-128 | two renders with the same keys that differ only in the theme string are not equal, whatever their callbacks, so the stabilized tree is rebuilt |
| ChatKit.SplitEntries | src/composables/useChatKit.ts:111-117 | the loop yields the handler and option entries in order, and together they are a permutation of the input |
| ChatKit.IsHandlerKey | src/composables/useChatKit.ts:112 | a handler key is `on` followed by an upper-case ASCII letter; `onClientTool` is never one |
| ChatKit.HandlerEntries | src/composables/useChatKit.ts:111-117 | what goes into `nextHandlers`: no more entries than the input, each an input entry with a handler key |
| ChatKit.OptionEntries | src/composables/useChatKit.ts:111-117 | what goes into `nextOptions`: no more entries than the input, each an input entry whose key is not a handler key |
| ChatKit.SplitIsPartition | src/composables/useChatKit.ts:111-117 | handlers plus options is the input as a multiset; an entry is a handler iff its key matches `on[A-Z]` and is not `onClientTool` |
| ChatKit.SplitAppend | src/composables/useChatKit.ts:111-117 | one more entry lands at the end of exactly one side |
| ChatKit.HandlerKeyExamples | src/composables/useChatKit.ts:112 | `onResponseStart` is a handler; `on`, `onclick`, `onClientTool`, `theme` are options |
| ChatKit.LookupHandler | src/composables/useChatKit.ts:111-113 | a handler key looked up in the handlers gives what the full options hold there |
| ChatKit.HandlerCallsLatest | src/composables/useChatKit.ts:106-121 | a handler taken from the split of the stabilized options is the stable wrapper for its key, and calling it reaches the latest options' handler |
| ChatKit.ChatKitBinding.constructor | src/composables/useChatKit.ts:65-70 | no element mounted, nothing logged; the eager effect run has split the stabilized initial options |
| ChatKit.ChatKitBinding.RunEffect | src/composables/useChatKit.ts:106-121 | options and handlers are both recomputed from the same stabilized tree; nothing else changes |
| ChatKit.ChatKitBinding.SourceChanged | src/composables/useChatKit.ts:106-121 | a function-only change keeps both refs and the stabilized tree; any other change re-splits the new tree |
| ChatKit.ChatKitBinding.SetInstance | src/composables/useChatKit.ts:86-88 | the element ref becomes the given instance or null |
| ChatKit.ChatKitBinding.SetOptions | src/composables/useChatKit.ts:95-97 | the options ref becomes the given value |
| ChatKit.ChatKitBinding.SetHandlers | src/composables/useChatKit.ts:101-103 | the handlers ref becomes the given value |
| ChatKit.ChatKitBinding.CallHandler | src/composables/useChatKit.ts:98-100 | `handlers[key]?.()`, the call form of src/composables/useChatKit.test.ts:20 and :33: a handler from the effect's split reaches the latest options' function with the latest options as receiver; a directly installed function is called on the handlers object; `null`/`undefined` is skipped; any other value is a `TypeError` |
| ChatKit.ChatKitBinding.CallMethod | src/composables/useChatKit.ts:72-84 | unmounted: one warning with the exact message, result `undefined`, nothing forwarded; mounted: the call goes to that element with the same name and arguments and its result is returned |
| WidgetStyle.ResolveColor | src/widgets/utils.ts:27-34 | nothing for a missing or empty colour, a string as it is, `.dark` exactly when the theme is dark, else `.light` |
| WidgetStyle.ResolveColorDefaultsToLight | src/widgets/utils.ts:29 | without a theme a themed colour resolves to its light variant |
| WidgetStyle.CssValue | src/widgets/utils.ts:36-42 | `undefined` stays `undefined`, a number `n` becomes its decimal plus `px`, a string is unchanged |
| WidgetStyle.RadiusToken | src/widgets/utils.ts:12-25 | a value exactly for the twelve table tokens: a length in `px`, or `100%` for `100%` |
| WidgetStyle.Assign | src/widgets/utils.ts:44-51 | an `undefined` value assigns nothing, otherwise exactly that one key |
| WidgetStyle.Style.AssignStyle | src/widgets/utils.ts:44-51 | the dictionary gains exactly that assignment, or is unchanged for `undefined` |
| WidgetStyle.LastAssigning | src/widgets/utils.ts:63-89 | the index of the last step that assigns a key, with no later step assigning it |
| WidgetStyle.OverlayLastWins | src/widgets/utils.ts:63-89 | applied in order, a key ends with the value of its last assignment, or keeps its old value when nothing assigns it |
| WidgetStyle.SpacingEntryCovers | src/widgets/utils.ts:64-88 | an entry writes a side exactly when its value is not `null` and its key is `x`/`y` or that side's name, and only sides of its own prefix |
| WidgetStyle.SpacingSidesLastWins | src/widgets/utils.ts:63-89 | each side holds the value of the last non-null entry standing for it (`x` for left/right, `y` for top/bottom) |
| WidgetStyle.SpacingSidesUntouched | src/widgets/utils.ts:63-89 | unknown keys write nothing: every property other than a covered side keeps its value |
| WidgetStyle.SpacingAllSides | src/widgets/utils.ts:59-62 | a number or string sets only `padding`/`margin` itself |
| WidgetStyle.SpacingSkipsNull | src/widgets/utils.ts:64 | a `null` entry can be dropped without changing the result |
| WidgetStyle.EdgeSpacing | src/widgets/utils.ts:53-90 | padding or margin changes no property outside its own family (`padding*` or `margin*`) |
| WidgetStyle.Style.ApplySpacingEntry | src/widgets/utils.ts:64-88 | one loop pass adds exactly that entry's assignments |
| WidgetStyle.Style.ApplyEdgeSpacing | src/widgets/utils.ts:53-90 | the dictionary becomes the in-order overlay of the entries' assignments |
| WidgetStyle.ResolveBorderConfig | src/widgets/utils.ts:92-107 | a number gives that size with style `solid`; an object keeps its size, resolves its colour for the theme and defaults its style to `solid` |
| WidgetStyle.KeyEdges | src/widgets/utils.ts:143-169 | the sides a border entry key stands for are exactly those that `x`, `y` or the side name covers |
| WidgetStyle.BorderWholeSetsThree | src/widgets/utils.ts:115-127 | a number or `{size}` sets exactly `borderWidth` and `borderStyle` (default `solid`), and `borderColor` only when the resolved colour is non-empty, an existing `borderColor` keeping its value otherwise; nothing else changes |
| WidgetStyle.BorderFalsyWritesNothing | src/widgets/utils.ts:114 | a zero or missing border, or an object without `size` or side keys, leaves the style unchanged |
| WidgetStyle.BorderEntryCovers | src/widgets/utils.ts:143-169 | a truthy entry styles exactly the sides its key stands for |
| WidgetStyle.BorderEntryKeys | src/widgets/utils.ts:129-170 | per-edge entries write only per-side border properties |
| WidgetStyle.BorderEdgePartLastWins | src/widgets/utils.ts:129-171 | each part (width, style, colour) of each side holds the value that the last entry writing that part gave it |
| WidgetStyle.BorderEdgePartUntouched | src/widgets/utils.ts:129-171 | a part of a side that no entry writes keeps its old value |
| WidgetStyle.BorderEdgeStyleLastWins | src/widgets/utils.ts:129-171 | each side's border style is that of the last truthy entry standing for it (`solid` unless the entry gives one) |
| WidgetStyle.BorderEdgeWidthLastWins | src/widgets/utils.ts:129-171 | each side's width is `toCssValue(size)` of the last truthy entry standing for it that has a size; entries without a size do not write it |
| WidgetStyle.BorderEdgeColorLastWins | src/widgets/utils.ts:129-171 | each side's colour is that of the last truthy entry standing for it whose colour resolves to a non-empty string |
| WidgetStyle.BorderEdgesTouchOnlySides | src/widgets/utils.ts:129-171 | a per-edge border leaves every other property unchanged |
| WidgetStyle.BorderSkipsFalsy | src/widgets/utils.ts:130 | a falsy edge value (0, `null`, a non-config value) can be dropped without changing the result |
| WidgetStyle.Border | src/widgets/utils.ts:109-171 | a border changes no property other than the `border*` width, style and colour properties |
| WidgetStyle.Style.ApplyResolved | src/widgets/utils.ts:121-125 | width when there is a size, style always, colour only when non-empty |
| WidgetStyle.Style.ApplyEdge | src/widgets/utils.ts:135-141 | one side's width, style and (non-empty) colour |
| WidgetStyle.Style.ApplyBorderEntry | src/widgets/utils.ts:130-169 | one loop pass adds exactly that entry's side assignments |
| WidgetStyle.Style.ApplyBorder | src/widgets/utils.ts:109-171 | the dictionary becomes `Border(old, border, theme)` |
| WidgetStyle.Radius | src/widgets/utils.ts:173-179 | falsy: unchanged; `md` gives 12px, `full` 9999px, `none` 0px; an unknown string passes through; only `borderRadius` changes |
| WidgetStyle.Style.ApplyRadius | src/widgets/utils.ts:173-179 | the dictionary becomes `Radius(old, radius)` |
| WidgetStyle.DecorationsNoSizing | src/widgets/utils.ts:205-211 | spacing, background, radius and border never write a size, flex, gap or aspect-ratio property |
| WidgetStyle.ShorthandsOverride | src/widgets/utils.ts:222-238 | a present `size`, `minSize` or `maxSize` sets both properties it stands for to its CSS value, whatever was there |
| WidgetStyle.ExplicitSizesStand | src/widgets/utils.ts:213-220 | without `size`, a present `width` or `height` ends with its own CSS value |
| WidgetStyle.BoxSizeOverrides | src/widgets/utils.ts:213-238 | `size`, `minSize` and `maxSize` override width/height, min and max set earlier; without `size`, `width`/`height` stand |
| WidgetStyle.BoxFlexGapAspectRatio | src/widgets/utils.ts:240-253 | a numeric flex `n` gives `n 1 0` and a string flex is kept; a numeric aspect ratio gives the bare number and a string is kept; gap goes through `toCssValue`; each is present exactly when its prop is |
| WidgetStyle.BoxFalsyPaddingWritesNothing | src/widgets/utils.ts:205 | padding 0, empty or absent leaves no padding property at all |
| WidgetStyle.BoxBackground | src/widgets/utils.ts:207-209 | `backgroundColor` is present exactly when the background is truthy, and holds its colour for the theme |
| WidgetStyle.BoxEmptyNode | src/widgets/utils.ts:203 | a node with no props yields an empty style |
| WidgetStyle.BoxStyles | src/widgets/utils.ts:181-256 | `flex`, `gap` and `aspectRatio` are in the style exactly when their props are present |
| WidgetStyle.Style.ApplyDecorations | src/widgets/utils.ts:205-211 | from an empty style, the dictionary becomes the decorations of the node |
| WidgetStyle.Style.ApplySizes | src/widgets/utils.ts:213-238 | the dictionary becomes the sizing overlay of the node |
| WidgetStyle.BuildBoxStyles | src/widgets/utils.ts:181-256 | a fresh style whose dictionary is `BoxStyles(node, theme)`, theme defaulting to light |
| Hosted.AcceptSecret | src/hosted.ts:71-76 | accepted exactly when the value is a non-empty string, otherwise the given error |
| Hosted.PickedSecret | src/hosted.ts:65-70 | `client_secret ?? clientSecret ?? secret` on an object: the first of the three that is not `null`/`undefined`, else `secret`; `undefined` for a non-object |
| Hosted.DefaultParse | src/hosted.ts:63-77 | a success is a non-empty string held by `client_secret`, `clientSecret` or `secret`; a non-object payload is an error; every error has the exact message |
| Hosted.DefaultParseFallback | src/hosted.ts:65-70 | the first of the three fields that is not null/undefined decides alone |
| Hosted.EmptyClientSecretShadows | src/hosted.ts:65-76 | `client_secret: ""` is an error even beside a valid `clientSecret`; `client_secret: null` falls through to it |
| Hosted.GetMethod | src/hosted.ts:95 | the configured method if given, else POST exactly when there is a body and GET otherwise |
| Hosted.BuildInit | src/hosted.ts:109-125 | with a body: the payload and `content-type: application/json` overlaid by the resolved headers; without one: headers only when resolved |
| Hosted.PostWithHeaders | src/hosted.test.ts:57-63 | a body with an Authorization header gives a POST with exactly the two headers |
| Hosted.DefaultParser | src/hosted.ts:63-77 | a JSON decoding error propagates; a success is a non-empty string |
| Hosted.RequestOutcome | src/hosted.ts:127-140 | a fetch error propagates; a non-ok status gives the status message; a parser error propagates; a parser result that is not a non-empty string gives the invalid-result error; a success is the parser's non-empty string |
| Hosted.StatusMessage | src/hosted.ts:128-132 | the fixed prefix, then the status code in decimal, a space, the status text and a full stop |
| Hosted.DefaultParserOutcome | src/hosted.ts:134 | with the default parser an ok reply yields what `defaultParse` picks |
| Hosted.MustRefresh | src/hosted.ts:145 | a `null` current secret never forces a refresh; a forced refresh means the current secret is the cached one |
| Hosted.ServesFromCache | src/hosted.ts:147 | the cache answers exactly when it holds a non-empty secret that differs from the caller's current one |
| Hosted.CacheRule | src/hosted.ts:145-149 | a request is made iff nothing non-empty is cached or the caller's current secret is the cached one; `null` never forces a refresh |
| Hosted.HostedClientSecret.constructor | src/hosted.ts:82-92 | the parser defaults to `defaultParse` and the cache starts at `initialClientSecret ?? null` |
| Hosted.HostedClientSecret.RequestSecret | src/hosted.ts:109-141 | sends `BuildInit(...)`; the result is `RequestOutcome`; only a success replaces the cached secret |
| Hosted.HostedClientSecret.GetClientSecret | src/hosted.ts:144-161 | the cached secret without a request when the cache rule allows, otherwise the outcome of one request, which caches the secret only on success |

## Left out

- Vue reactivity (`shallowRef`, `watchEffect`, `toValue`, `nextTick`, `MaybeRef`): the effects are explicit method calls (`Stabilizer.Update`, `ChatKitBinding.SourceChanged`) made once per change of the source; dependency tracking and scheduling are not modelled.
- Object identity: containers have no identity in the value model. `Object.is` on two containers and the `WeakMap` keys are structural. The ref identity of `shaped` is a generation counter. Cyclic object graphs cannot be represented.
- Aliasing and in-place mutation: the snapshot is the very object the host passed (`src/composables/useStableOptions.ts:117` and `:127` store it, not a copy). If the host mutates that object in place and the effect runs again, `Object.is` at line 21 sees the same object, so the stabilized tree is kept and its copied scalars stay stale. The model has only immutable values, so every update passes a new value and the comparison sees the change; this stale-scalar behaviour is not captured.
- Numbers are integers. NaN, ±0, fractional values and the non-finite branch of `toCssValue` (`src/widgets/utils.ts:39`) are not modelled.
- Property lookup on primitives and inherited prototype properties yields `undefined`. Array index and string key coercion (`a["0"]`) is not modelled.
- Functions are identity tokens. A wrapper call yields the function it reaches and its receiver; no code runs. `Function.prototype.apply` arguments are not tracked.
- `console.warn` is an append to a log. The value a forwarded element method returns is a parameter.
- Network and async parts of `src/hosted.ts`:
  - `fetch` is a parameter mapping the request to a reply.
  - `Response.clone()` and `json()` are folded into that reply.
  - `resolveMaybeFn` factories are the values they resolve to on that call.
  - `ensureFetch` is not modelled.
  - `url` and `domainKey` are only stored.
- Hosted.HostedClientSecret.GetClientSecret: in-flight sharing of one request between concurrent calls (`src/hosted.ts:151-160`) is not modelled. Calls are sequential, so `inflight` is null on entry.
- Hosted.BuildInit: the request body is the payload itself. `JSON.stringify` is not modelled.
- Insertion order of keys in the CSS dictionary is not modelled (it is a map).
- Rewrap.WrapIdempotent: a wrapper is a value that records its path, not a closure over a ref. In the source a second pass over a stabilized tree makes new closures that read that tree, not the first pass's ref; the lemma says only that the two trees hold the same path wrappers at the same paths. `Rewrap.WrapperOfWrapper` states what a call through the outer wrapper reaches.
- JsValue.Decimal: numbers of magnitude 10^21 or more, which JavaScript writes in exponent form (`1e+21`), are written as plain digits.
- ChatKit.ChatKitBinding.CallHandler: the `TypeError` carries a fixed message, not the engine's wording.
- WidgetStyle.RadiusToken: inherited names of the radius table (`toString`) are treated as unknown strings.
- WidgetStyle.ResolveBorderConfig: a border `size` that is not a number is not representable.
- Border objects are split by the source's own test (number, or numeric `size`) into `Whole` and `PerEdge`. The entries of a `PerEdge` object never hold a numeric `size` (the `EdgeEntries` type), since such an object takes the whole-border branch. A `Whole` object without `size` holds only non-side keys, so it writes nothing.
- The options passed to `useChatKit` are records. Non-object options, which make `Object.entries` throw, are outside the model.
- The type declarations (`src/widgets/types.ts`, `src/types.ts`), the Nuxt module and the build configuration are not part of this model.

/**
  * The widget style builder (src/widgets/utils.ts): maps the layout props of
  * a widget (spacing, border, radius, sizes, colours) to a dictionary of CSS
  * properties.  Numbers are integers; `JsValue.Decimal` renders them as JavaScript
  * renders an integral number.
  */
module WidgetStyle {
  import opened Wrappers
  import JsValue

  /** `number | string`, the type of every size-like prop. */
  datatype Dimension = Number(n: int) | Text(s: string)

  /** `ThemedColor`: one colour, or one per theme. */
  datatype ThemedColor = Color(c: string) | ThemedPair(dark: string, light: string)

  datatype Theme = Light | Dark

  /**
    * `SpacingOption`: one value for every side, or an object whose own
    * entries are listed in `Object.entries` order; `None` is a `null` or
    * `undefined` entry.
    */
  datatype SpacingOption = AllSides(value: Dimension) | Sides(entries: seq<(string, Option<Dimension>)>)

  /** `BorderConfig`: a width, or an object whose `size` may be missing. */
  datatype BorderConfig = Thickness(n: int) | Config(size: Option<int>, color: Option<ThemedColor>, style: Option<string>)

  /**
    * `BorderOption`: a number or an object.  `Whole` is a number or an object
    * with its own props; `PerEdge` is an object read entry by entry, where
    * `None` stands for an entry that is neither a number nor an object.
    */
  datatype BorderOption = Whole(config: BorderConfig) | PerEdge(entries: EdgeEntries)

  /**
    * An object whose `size` is a number takes the whole-border branch
    * (lines 115-118), so the entries of a per-edge object never hold a
    * numeric `size`.
    */
  predicate NoNumericSize(entries: seq<(string, Option<BorderConfig>)>) {
    forall i :: 0 <= i < |entries| && entries[i].0 == "size" ==> !(entries[i].1.Some? && entries[i].1.value.Thickness?)
  }

  type EdgeEntries = entries: seq<(string, Option<BorderConfig>)> | NoNumericSize(entries) witness []

  /** The four sides, with the suffix each adds to a CSS property name. */
  datatype Edge = Top | Right | Bottom | Left {
    function Suffix(): string {
      match this
      case Top => "Top"
      case Right => "Right"
      case Bottom => "Bottom"
      case Left => "Left"
    }
    function LowerName(): string {
      match this
      case Top => "top"
      case Right => "right"
      case Bottom => "bottom"
      case Left => "left"
    }
  }

  /** The sides an entry key stands for: `x` is left and right, `y` is top and bottom, a side name is itself. */
  predicate Covers(key: string, e: Edge) {
    (key == "x" && (e == Left || e == Right)) ||
    (key == "y" && (e == Top || e == Bottom)) ||
    key == e.LowerName()
  }

  /** The two spacing families of `applyEdgeSpacing`. */
  datatype SpacingKind = Padding | Margin {
    function Name(): string {
      if this == Padding then "padding" else "margin"
    }
  }

  datatype BorderPart = WidthPart | StylePart | ColorPart {
    function Name(): string {
      match this
      case WidthPart => "Width"
      case StylePart => "Style"
      case ColorPart => "Color"
    }
  }

  /**
    * The CSS properties the builder writes.  The style dictionary is keyed by
    * these; `Name` gives the camel-case property name the dictionary holds
    * (`SpacingSide(Padding, Top)` is `paddingTop`, `BorderSide(Left,
    * ColorPart)` is `borderLeftColor`).
    */
  datatype CssProp =
    | Spacing(kind: SpacingKind)
    | SpacingSide(kind: SpacingKind, edge: Edge)
    | BorderAll(part: BorderPart)
    | BorderSide(edge: Edge, part: BorderPart)
    | BorderRadius | BackgroundColor
    | Height | Width | MinHeight | MinWidth | MaxHeight | MaxWidth
    | Flex | Gap | AspectRatio
  {
    function Name(): string {
      match this
      case Spacing(kind) => kind.Name()
      case SpacingSide(kind, edge) => kind.Name() + edge.Suffix()
      case BorderAll(part) => "border" + part.Name()
      case BorderSide(edge, part) => "border" + edge.Suffix() + part.Name()
      case BorderRadius => "borderRadius"
      case BackgroundColor => "backgroundColor"
      case Height => "height"
      case Width => "width"
      case MinHeight => "minHeight"
      case MinWidth => "minWidth"
      case MaxHeight => "maxHeight"
      case MaxWidth => "maxWidth"
      case Flex => "flex"
      case Gap => "gap"
      case AspectRatio => "aspectRatio"
    }
  }

  // ---------------------------------------------------------------- scalars

  /** `!!value` for a number or string */
  predicate DimensionTruthy(d: Dimension) {
    match d
    case Number(n) => n != 0
    case Text(s) => s != ""
  }

  /** The twelve names of `SizeToken` that `radiusMap` lists. */
  const RadiusTokens: set<string> :=
    {"2xs", "xs", "sm", "md", "lg", "xl", "2xl", "3xl", "4xl", "full", "100%", "none"}

  /** `radiusMap` (lines 12-25): a length in pixels for each token, `100%` for `100%`. */
  function RadiusToken(token: string): (px: Option<string>)
    ensures px.Some? <==> token in RadiusTokens
    ensures px.Some? && token != "100%" ==> |px.value| > 2 && px.value[|px.value| - 2..] == "px"
    ensures token == "100%" ==> px == Some("100%")
  {
    match token
    case "2xs" => Some("4px")
    case "xs" => Some("6px")
    case "sm" => Some("8px")
    case "md" => Some("12px")
    case "lg" => Some("16px")
    case "xl" => Some("20px")
    case "2xl" => Some("24px")
    case "3xl" => Some("28px")
    case "4xl" => Some("32px")
    case "full" => Some("9999px")
    case "100%" => Some("100%")
    case "none" => Some("0px")
    case _ => None
  }

  /**
    * `resolveColor` (lines 27-34): no colour for a missing or empty one, a
    * plain colour as it is, and the dark variant exactly when the theme is dark.
    */
  function ResolveColor(color: Option<ThemedColor>, theme: Theme := Light): (r: Option<string>)
    ensures color.None? || color == Some(Color("")) ==> r == None
    ensures color.Some? && color.value.Color? && color.value.c != "" ==> r == Some(color.value.c)
    ensures color.Some? && color.value.ThemedPair? ==>
      r == Some(if theme == Dark then color.value.dark else color.value.light)
  {
    match color
    case None => None
    case Some(Color(c)) => if c == "" then None else Some(c)
    case Some(ThemedPair(dark, light)) => if theme == Dark then Some(dark) else Some(light)
  }

  /** Without a theme, a themed colour resolves to its light variant. */
  lemma ResolveColorDefaultsToLight(dark: string, light: string)
    ensures ResolveColor(Some(ThemedPair(dark, light))) == Some(light)
  {
  }

  /** `toCssValue` (lines 36-42): numbers get `px`, strings are kept, `undefined` stays `undefined`. */
  function CssValue(value: Option<Dimension>): (r: Option<string>)
    ensures value.None? <==> r.None?
    ensures value.Some? && value.value.Text? ==> r == Some(value.value.s)
    ensures value.Some? && value.value.Number? ==> r == Some(JsValue.Decimal(value.value.n) + "px")
  {
    match value
    case None => None
    case Some(Number(n)) => Some(JsValue.Decimal(n) + "px")
    case Some(Text(s)) => Some(s)
  }

  // --------------------------------------------------- assignments in order

  /** The style after a list of steps, each step given by the assignments it makes. */
  function Overlay(m: map<CssProp, string>, steps: seq<map<CssProp, string>>): map<CssProp, string> {
    if |steps| == 0 then m else Overlay(m, steps[..|steps| - 1]) + steps[|steps| - 1]
  }

  /** The last step that assigns `k`, if any. */
  function LastAssigning(steps: seq<map<CssProp, string>>, k: CssProp): (r: Option<nat>)
    ensures r.Some? ==> r.value < |steps| && k in steps[r.value]
    ensures r.Some? ==> forall j :: r.value < j < |steps| ==> k !in steps[j]
    ensures r.None? ==> forall j :: 0 <= j < |steps| ==> k !in steps[j]
  {
    if |steps| == 0 then None
    else if k in steps[|steps| - 1] then Some(|steps| - 1)
    else LastAssigning(steps[..|steps| - 1], k)
  }

  /** Later steps overwrite earlier ones: a key holds what its last assignment wrote, or what it held before when nothing assigned it. */
  lemma {:induction false} OverlayLastWins(m: map<CssProp, string>, steps: seq<map<CssProp, string>>, k: CssProp)
    ensures LastAssigning(steps, k).Some? ==>
      k in Overlay(m, steps) && Overlay(m, steps)[k] == steps[LastAssigning(steps, k).value][k]
    ensures LastAssigning(steps, k).None? ==>
      (k in Overlay(m, steps) <==> k in m) && (k in m ==> Overlay(m, steps)[k] == m[k])
    decreases |steps|
  {
    if |steps| > 0 && k !in steps[|steps| - 1] {
      OverlayLastWins(m, steps[..|steps| - 1], k);
    }
  }

  /** The step at `j` is the last to assign `k` when no later step does. */
  lemma {:induction false} LastAssigningAt(steps: seq<map<CssProp, string>>, k: CssProp, j: nat)
    requires j < |steps| && k in steps[j]
    requires forall i :: j < i < |steps| ==> k !in steps[i]
    ensures LastAssigning(steps, k) == Some(j)
    decreases |steps|
  {
    if j < |steps| - 1 {
      LastAssigningAt(steps[..|steps| - 1], k, j);
    }
  }

  lemma OverlayAppend(m: map<CssProp, string>, steps: seq<map<CssProp, string>>, w: map<CssProp, string>)
    ensures Overlay(m, steps + [w]) == Overlay(m, steps) + w
  {
    assert (steps + [w])[..|steps|] == steps;
  }

  /** Assigning in two steps is assigning their union. */
  lemma MergeAssociates(a: map<CssProp, string>, b: map<CssProp, string>, c: map<CssProp, string>)
    ensures a + b + c == a + (b + c)
  {
  }

  /** Running two lists of steps one after the other is running their concatenation. */
  lemma {:induction false} OverlayConcat(m: map<CssProp, string>, a: seq<map<CssProp, string>>, b: seq<map<CssProp, string>>)
    ensures Overlay(m, a + b) == Overlay(Overlay(m, a), b)
    decreases |b|
  {
    if |b| == 0 {
      assert a + b == a;
    } else {
      var b' := b[..|b| - 1];
      OverlayConcat(m, a, b');
      assert (a + b)[..|a + b| - 1] == a + b';
      assert (a + b)[|a + b| - 1] == b[|b| - 1];
    }
  }

  /** Dropping a step that assigns nothing changes nothing. */
  lemma OverlaySkipsEmpty(m: map<CssProp, string>, steps: seq<map<CssProp, string>>, i: nat)
    requires i < |steps| && steps[i] == map[]
    ensures Overlay(m, steps) == Overlay(m, steps[..i] + steps[i + 1..])
  {
    var before, after := steps[..i], steps[i + 1..];
    assert steps == before + [map[]] + after;
    OverlayConcat(m, before + [map[]], after);
    OverlayAppend(m, before, map[]);
    assert Overlay(m, before) + map[] == Overlay(m, before);
    OverlayConcat(m, before, after);
  }

  /** `assignStyle` (lines 44-51) as the assignments it makes: none for `undefined`, else exactly one. */
  function Assign(key: CssProp, value: Option<string>): (w: map<CssProp, string>)
    ensures value.None? ==> w == map[]
    ensures value.Some? ==> w.Keys == {key} && w[key] == value.value
  {
    if value.None? then map[] else map[key := value.value]
  }

  // --------------------------------------------------------------- spacing

  /** What one entry of a spacing object assigns (lines 63-89). */
  function SpacingEntryWrites(kind: SpacingKind, key: string, val: Option<Dimension>): map<CssProp, string> {
    if val.None? then map[]
    else
      var value := CssValue(val);
      match key
      case "x" => Assign(SpacingSide(kind, Left), value) + Assign(SpacingSide(kind, Right), value)
      case "y" => Assign(SpacingSide(kind, Top), value) + Assign(SpacingSide(kind, Bottom), value)
      case "top" => Assign(SpacingSide(kind, Top), value)
      case "right" => Assign(SpacingSide(kind, Right), value)
      case "bottom" => Assign(SpacingSide(kind, Bottom), value)
      case "left" => Assign(SpacingSide(kind, Left), value)
      case _ => map[]
  }

  function SpacingSteps(kind: SpacingKind, entries: seq<(string, Option<Dimension>)>): (steps: seq<map<CssProp, string>>)
    ensures |steps| == |entries|
    ensures forall i :: 0 <= i < |entries| ==> steps[i] == SpacingEntryWrites(kind, entries[i].0, entries[i].1)
  {
    seq(|entries|, i requires 0 <= i < |entries| => SpacingEntryWrites(kind, entries[i].0, entries[i].1))
  }

  /** `applyEdgeSpacing` (lines 53-90) on the style `m`. */
  function EdgeSpacing(m: map<CssProp, string>, kind: SpacingKind, spacing: Option<SpacingOption>): (r: map<CssProp, string>)
    ensures forall k: CssProp :: !((k.Spacing? || k.SpacingSide?) && k.kind == kind) ==> Keeps(m, r, k)
  {
    match spacing
    case None => m
    case Some(AllSides(value)) => m + Assign(Spacing(kind), CssValue(Some(value)))
    case Some(Sides(entries)) =>
      SpacingStepsFamily(m, kind, entries);
      Overlay(m, SpacingSteps(kind, entries))
  }

  /** The steps of a spacing object assign only per-side properties of its own family. */
  lemma SpacingStepsFamily(m: map<CssProp, string>, kind: SpacingKind, entries: seq<(string, Option<Dimension>)>)
    ensures forall k: CssProp :: !(k.SpacingSide? && k.kind == kind) ==> Keeps(m, Overlay(m, SpacingSteps(kind, entries)), k)
  {
    var steps := SpacingSteps(kind, entries);
    forall k: CssProp | !(k.SpacingSide? && k.kind == kind) ensures Keeps(m, Overlay(m, steps), k) {
      forall i | 0 <= i < |steps| ensures k !in steps[i] {
        SpacingEntryCovers(kind, entries[i].0, entries[i].1, k);
      }
      OverlayLastWins(m, steps, k);
    }
  }

  /** An entry assigns a side exactly when its value is not `null` and its key stands for that side, and it assigns only sides of its own family. */
  lemma SpacingEntryCovers(kind: SpacingKind, key: string, val: Option<Dimension>, k: CssProp)
    ensures k in SpacingEntryWrites(kind, key, val) <==> val.Some? && k.SpacingSide? && k.kind == kind && Covers(key, k.edge)
    ensures k in SpacingEntryWrites(kind, key, val) ==> SpacingEntryWrites(kind, key, val)[k] == CssValue(val).value
  {
  }

  /**
    * Spacing on the sides: each side ends with the value of the last entry
    * that stands for it (`x`, `y` or the side's own name) and is not `null`.
    */
  lemma SpacingSidesLastWins(m: map<CssProp, string>, kind: SpacingKind, entries: seq<(string, Option<Dimension>)>, e: Edge, j: nat)
    requires j < |entries| && entries[j].1.Some? && Covers(entries[j].0, e)
    requires forall i :: j < i < |entries| ==> entries[i].1.None? || !Covers(entries[i].0, e)
    ensures SpacingSide(kind, e) in EdgeSpacing(m, kind, Some(Sides(entries)))
    ensures EdgeSpacing(m, kind, Some(Sides(entries)))[SpacingSide(kind, e)] == CssValue(entries[j].1).value
  {
    var steps, k := SpacingSteps(kind, entries), SpacingSide(kind, e);
    forall i | j < i < |entries| ensures k !in steps[i] {
      SpacingEntryCovers(kind, entries[i].0, entries[i].1, k);
    }
    SpacingEntryCovers(kind, entries[j].0, entries[j].1, k);
    LastAssigningAt(steps, k, j);
    OverlayLastWins(m, steps, k);
  }

  /** A side no entry stands for, and every property that is not a side of this family, keeps what it held. */
  lemma SpacingSidesUntouched(m: map<CssProp, string>, kind: SpacingKind, entries: seq<(string, Option<Dimension>)>, k: CssProp)
    requires !(k.SpacingSide? && k.kind == kind) ||
      forall i :: 0 <= i < |entries| ==> entries[i].1.None? || !Covers(entries[i].0, k.edge)
    ensures var r := EdgeSpacing(m, kind, Some(Sides(entries)));
      (k in r <==> k in m) && (k in m ==> r[k] == m[k])
  {
    var steps := SpacingSteps(kind, entries);
    forall i | 0 <= i < |steps| ensures k !in steps[i] {
      SpacingEntryCovers(kind, entries[i].0, entries[i].1, k);
    }
    OverlayLastWins(m, steps, k);
  }

  /** A single number or string sets only `padding`/`margin` itself. */
  lemma SpacingAllSides(m: map<CssProp, string>, kind: SpacingKind, value: Dimension)
    ensures EdgeSpacing(m, kind, Some(AllSides(value))) == m[Spacing(kind) := CssValue(Some(value)).value]
  {
  }

  /** A `null` entry of a spacing object can be left out without changing the result. */
  lemma SpacingSkipsNull(m: map<CssProp, string>, kind: SpacingKind, entries: seq<(string, Option<Dimension>)>, i: nat)
    requires i < |entries| && entries[i].1.None?
    ensures EdgeSpacing(m, kind, Some(Sides(entries))) ==
      EdgeSpacing(m, kind, Some(Sides(entries[..i] + entries[i + 1..])))
  {
    var steps := SpacingSteps(kind, entries);
    OverlaySkipsEmpty(m, steps, i);
    SpacingStepsRemove(kind, entries, i);
  }

  /** Dropping an entry drops its step. */
  lemma SpacingStepsRemove(kind: SpacingKind, entries: seq<(string, Option<Dimension>)>, i: nat)
    requires i < |entries|
    ensures SpacingSteps(kind, entries[..i] + entries[i + 1..]) ==
      SpacingSteps(kind, entries)[..i] + SpacingSteps(kind, entries)[i + 1..]
  {
    var rest := entries[..i] + entries[i + 1..];
    forall j | 0 <= j < |rest| ensures rest[j] == (if j < i then entries[j] else entries[j + 1]) {
    }
  }

  // ---------------------------------------------------------------- border

  /** The result of `resolveBorderConfig` (lines 92-107); `size` is missing only for an object without one. */
  datatype ResolvedBorder = ResolvedBorder(size: Option<int>, color: Option<string>, style: string)

  function ResolveBorderConfig(value: BorderConfig, theme: Theme): (r: ResolvedBorder)
    ensures value.Thickness? ==> r == ResolvedBorder(Some(value.n), None, "solid")
    ensures value.Config? ==> r.size == value.size && r.color == ResolveColor(value.color, theme)
    ensures value.Config? && value.style.Some? ==> r.style == value.style.value
    ensures value.Config? && value.style.None? ==> r.style == "solid"
  {
    match value
    case Thickness(n) => ResolvedBorder(Some(n), None, "solid")
    case Config(size, color, style) =>
      ResolvedBorder(size, ResolveColor(color, theme), if style.Some? then style.value else "solid")
  }

  /** `!!value` for a per-edge entry: a number other than 0, or any object. */
  predicate EdgeValueTruthy(value: Option<BorderConfig>) {
    value.Some? && value.value != Thickness(0)
  }

  predicate ColorTruthy(color: Option<string>) {
    color.Some? && color.value != ""
  }

  function AsDimension(size: Option<int>): Option<Dimension> {
    if size.None? then None else Some(Number(size.value))
  }

  /** What styling one border target with `r` assigns: width if there is a size, style always, colour if not empty. */
  function BorderWrites(width: CssProp, style: CssProp, color: CssProp, r: ResolvedBorder): map<CssProp, string> {
    Assign(width, CssValue(AsDimension(r.size)))
      + Assign(style, Some(r.style))
      + (if ColorTruthy(r.color) then Assign(color, r.color) else map[])
  }

  /** The inner `apply` of `applyBorder` (lines 135-141). */
  function EdgeBorderWrites(e: Edge, r: ResolvedBorder): map<CssProp, string> {
    BorderWrites(BorderSide(e, WidthPart), BorderSide(e, StylePart), BorderSide(e, ColorPart), r)
  }

  /**
    * What `apply` (lines 135-141) writes for one part of a side: the width
    * only when there is a size, the style always, the colour only when it is
    * not empty.
    */
  function PartValue(part: BorderPart, r: ResolvedBorder): (v: Option<string>)
    ensures part == WidthPart ==> (v.Some? <==> r.size.Some?)
    ensures part == WidthPart && r.size.Some? ==> v.value == JsValue.Decimal(r.size.value) + "px"
    ensures part == StylePart ==> v == Some(r.style)
    ensures part == ColorPart ==> (v.Some? <==> ColorTruthy(r.color)) && (v.Some? ==> v == r.color)
  {
    match part
    case WidthPart => CssValue(AsDimension(r.size))
    case StylePart => Some(r.style)
    case ColorPart => if ColorTruthy(r.color) then r.color else None
  }

  /** Styling one side assigns only that side's properties, each exactly when `apply` has a value for it. */
  lemma EdgeBorderKeys(e: Edge, r: ResolvedBorder)
    ensures forall k :: k in EdgeBorderWrites(e, r) ==> k.BorderSide? && k.edge == e
    ensures forall part :: BorderSide(e, part) in EdgeBorderWrites(e, r) <==> PartValue(part, r).Some?
    ensures forall part :: BorderSide(e, part) in EdgeBorderWrites(e, r) ==>
      EdgeBorderWrites(e, r)[BorderSide(e, part)] == PartValue(part, r).value
  {
    var w := EdgeBorderWrites(e, r);
    assert w == Assign(BorderSide(e, WidthPart), PartValue(WidthPart, r))
      + Assign(BorderSide(e, StylePart), PartValue(StylePart, r))
      + Assign(BorderSide(e, ColorPart), PartValue(ColorPart, r));
  }

  /** The sides an entry key stands for, in the order `applyBorder` styles them. */
  function KeyEdges(key: string): (es: seq<Edge>)
    ensures forall e :: e in es <==> Covers(key, e)
  {
    match key
    case "x" => [Left, Right]
    case "y" => [Top, Bottom]
    case "top" => [Top]
    case "right" => [Right]
    case "bottom" => [Bottom]
    case "left" => [Left]
    case _ => []
  }

  function EdgesBorderWrites(es: seq<Edge>, r: ResolvedBorder): map<CssProp, string> {
    if |es| == 0 then map[]
    else EdgesBorderWrites(es[..|es| - 1], r) + EdgeBorderWrites(es[|es| - 1], r)
  }

  lemma {:induction false} EdgesBorderKeys(es: seq<Edge>, r: ResolvedBorder)
    ensures forall k :: k in EdgesBorderWrites(es, r) ==> k.BorderSide? && k.edge in es
    ensures forall e, part :: e in es ==>
      (BorderSide(e, part) in EdgesBorderWrites(es, r) <==> PartValue(part, r).Some?)
    ensures forall e, part :: e in es && BorderSide(e, part) in EdgesBorderWrites(es, r) ==>
      EdgesBorderWrites(es, r)[BorderSide(e, part)] == PartValue(part, r).value
    decreases |es|
  {
    if |es| > 0 {
      EdgesBorderKeys(es[..|es| - 1], r);
      EdgeBorderKeys(es[|es| - 1], r);
    }
  }

  lemma EdgesBorderWritesTwo(a: Edge, b: Edge, r: ResolvedBorder)
    ensures EdgesBorderWrites([a], r) == EdgeBorderWrites(a, r)
    ensures EdgesBorderWrites([a, b], r) == EdgeBorderWrites(a, r) + EdgeBorderWrites(b, r)
  {
    assert [a, b][..1] == [a] && [a][..0] == [];
  }

  /** What one entry of a per-edge border object assigns (lines 129-170): each side its key stands for, in order. */
  function BorderEntryWrites(key: string, value: Option<BorderConfig>, theme: Theme): map<CssProp, string> {
    if !EdgeValueTruthy(value) then map[]
    else EdgesBorderWrites(KeyEdges(key), ResolveBorderConfig(value.value, theme))
  }

  function BorderSteps(entries: seq<(string, Option<BorderConfig>)>, theme: Theme): (steps: seq<map<CssProp, string>>)
    ensures |steps| == |entries|
    ensures forall i :: 0 <= i < |entries| ==> steps[i] == BorderEntryWrites(entries[i].0, entries[i].1, theme)
  {
    seq(|entries|, i requires 0 <= i < |entries| => BorderEntryWrites(entries[i].0, entries[i].1, theme))
  }

  /** `!border` */
  predicate BorderTruthy(border: Option<BorderOption>) {
    border.Some? && border.value != Whole(Thickness(0))
  }

  /** A number, or an object with a numeric `size`, styles the whole border at once (lines 115-127). */
  predicate WholeBorder(border: BorderOption) {
    border.Whole? && (border.config.Thickness? || border.config.size.Some?)
  }

  /** `applyBorder` (lines 109-171) on the style `m`. */
  function Border(m: map<CssProp, string>, border: Option<BorderOption>, theme: Theme): (r: map<CssProp, string>)
    ensures forall k: CssProp :: !k.BorderSide? && !k.BorderAll? ==> Keeps(m, r, k)
  {
    if !BorderTruthy(border) then m
    else match border.value
      case Whole(config) =>
        if !WholeBorder(border.value) then m
        else m + BorderWrites(BorderAll(WidthPart), BorderAll(StylePart), BorderAll(ColorPart), ResolveBorderConfig(config, theme))
      case PerEdge(entries) =>
        BorderStepsOnlySides(m, entries, theme);
        Overlay(m, BorderSteps(entries, theme))
  }

  /** The steps of a per-edge border assign only per-side border properties. */
  lemma BorderStepsOnlySides(m: map<CssProp, string>, entries: seq<(string, Option<BorderConfig>)>, theme: Theme)
    ensures forall k: CssProp :: !k.BorderSide? ==> Keeps(m, Overlay(m, BorderSteps(entries, theme)), k)
  {
    var steps := BorderSteps(entries, theme);
    forall k: CssProp | !k.BorderSide? ensures Keeps(m, Overlay(m, steps), k) {
      forall i | 0 <= i < |steps| ensures k !in steps[i] {
        if k in steps[i] {
          BorderEntryKeys(entries[i].0, entries[i].1, theme, k);
        }
      }
      OverlayLastWins(m, steps, k);
    }
  }

  /**
    * A number or `{ size }` border sets exactly `borderWidth` and
    * `borderStyle` (`solid` unless given), and `borderColor` exactly when
    * the resolved colour is not empty; nothing else changes.
    */
  lemma BorderWholeSetsThree(m: map<CssProp, string>, config: BorderConfig, theme: Theme)
    requires config != Thickness(0) && (config.Thickness? || config.size.Some?)
    ensures var res := Border(m, Some(Whole(config)), theme);
      var color := if config.Config? then ResolveColor(config.color, theme) else None;
      var size := if config.Thickness? then config.n else config.size.value;
      && res[BorderAll(WidthPart)] == JsValue.Decimal(size) + "px"
      && res[BorderAll(StylePart)] == (if config.Config? && config.style.Some? then config.style.value else "solid")
      && (ColorTruthy(color) ==> res[BorderAll(ColorPart)] == color.value)
      && (!ColorTruthy(color) && BorderAll(ColorPart) in m ==> res[BorderAll(ColorPart)] == m[BorderAll(ColorPart)])
      && res.Keys == m.Keys + {BorderAll(WidthPart), BorderAll(StylePart)} + (if ColorTruthy(color) then {BorderAll(ColorPart)} else {})
      && forall k :: k in m && !k.BorderAll? ==> res[k] == m[k]
  {
  }

  /** A zero or missing border, or an object without `size` and without side keys, writes nothing. */
  lemma BorderFalsyWritesNothing(m: map<CssProp, string>, border: Option<BorderOption>, theme: Theme)
    requires border.None? || border == Some(Whole(Thickness(0))) || (border.Some? && border.value.Whole? && border.value.config.Config? && border.value.config.size.None?)
    ensures Border(m, border, theme) == m
  {
  }

  lemma BorderEntryCovers(key: string, value: Option<BorderConfig>, theme: Theme, e: Edge, part: BorderPart)
    ensures BorderSide(e, part) in BorderEntryWrites(key, value, theme) <==>
      EdgeValueTruthy(value) && Covers(key, e) && PartValue(part, ResolveBorderConfig(value.value, theme)).Some?
    ensures BorderSide(e, part) in BorderEntryWrites(key, value, theme) ==>
      BorderEntryWrites(key, value, theme)[BorderSide(e, part)] == PartValue(part, ResolveBorderConfig(value.value, theme)).value
  {
    if EdgeValueTruthy(value) {
      EdgesBorderKeys(KeyEdges(key), ResolveBorderConfig(value.value, theme));
    }
  }

  /** Per-edge entries only ever assign per-side border properties. */
  lemma BorderEntryKeys(key: string, value: Option<BorderConfig>, theme: Theme, k: CssProp)
    requires k in BorderEntryWrites(key, value, theme)
    ensures k.BorderSide? && EdgeValueTruthy(value) && Covers(key, k.edge)
  {
    EdgesBorderKeys(KeyEdges(key), ResolveBorderConfig(value.value, theme));
  }

  /** An entry writes a part of a side when it is truthy, stands for the side and has a value for that part. */
  predicate WritesPart(entry: (string, Option<BorderConfig>), theme: Theme, e: Edge, part: BorderPart) {
    EdgeValueTruthy(entry.1) && Covers(entry.0, e) && PartValue(part, ResolveBorderConfig(entry.1.value, theme)).Some?
  }

  /** No entry after `j` writes that part of that side. */
  predicate LastWriter(entries: seq<(string, Option<BorderConfig>)>, theme: Theme, e: Edge, part: BorderPart, j: nat) {
    forall i :: j < i < |entries| ==> !WritesPart(entries[i], theme, e, part)
  }

  /** The step of an entry assigns a part of a side exactly when the entry writes it, with the value `apply` gives. */
  lemma BorderStepsPart(entries: seq<(string, Option<BorderConfig>)>, theme: Theme, e: Edge, part: BorderPart)
    ensures forall i :: 0 <= i < |entries| ==>
      (BorderSide(e, part) in BorderSteps(entries, theme)[i] <==> WritesPart(entries[i], theme, e, part)) &&
      (WritesPart(entries[i], theme, e, part) ==>
        BorderSteps(entries, theme)[i][BorderSide(e, part)] == PartValue(part, ResolveBorderConfig(entries[i].1.value, theme)).value)
  {
    forall i | 0 <= i < |entries| {
      BorderEntryCovers(entries[i].0, entries[i].1, theme, e, part);
    }
  }

  /** Per-edge borders: a part of a side holds what the last entry writing that part gave it. */
  lemma BorderEdgePartLastWins(m: map<CssProp, string>, entries: EdgeEntries, theme: Theme, e: Edge, part: BorderPart, j: nat)
    requires j < |entries| && WritesPart(entries[j], theme, e, part) && LastWriter(entries, theme, e, part, j)
    ensures BorderSide(e, part) in Border(m, Some(PerEdge(entries)), theme)
    ensures Border(m, Some(PerEdge(entries)), theme)[BorderSide(e, part)] ==
      PartValue(part, ResolveBorderConfig(entries[j].1.value, theme)).value
  {
    var steps, k := BorderSteps(entries, theme), BorderSide(e, part);
    BorderStepsPart(entries, theme, e, part);
    LastAssigningAt(steps, k, j);
    OverlayLastWins(m, steps, k);
  }

  /** Per-edge borders: a part of a side that no entry writes keeps its old value. */
  lemma BorderEdgePartUntouched(m: map<CssProp, string>, entries: EdgeEntries, theme: Theme, e: Edge, part: BorderPart)
    requires forall i :: 0 <= i < |entries| ==> !WritesPart(entries[i], theme, e, part)
    ensures Keeps(m, Border(m, Some(PerEdge(entries)), theme), BorderSide(e, part))
  {
    BorderStepsPart(entries, theme, e, part);
    OverlayLastWins(m, BorderSteps(entries, theme), BorderSide(e, part));
  }

  /** Per-edge borders: the style of a side is that of the last truthy entry standing for that side (`x`, `y` or its own name). */
  lemma BorderEdgeStyleLastWins(m: map<CssProp, string>, entries: EdgeEntries, theme: Theme, e: Edge, j: nat)
    requires j < |entries| && EdgeValueTruthy(entries[j].1) && Covers(entries[j].0, e)
    requires forall i :: j < i < |entries| ==> !EdgeValueTruthy(entries[i].1) || !Covers(entries[i].0, e)
    ensures BorderSide(e, StylePart) in Border(m, Some(PerEdge(entries)), theme)
    ensures Border(m, Some(PerEdge(entries)), theme)[BorderSide(e, StylePart)] == ResolveBorderConfig(entries[j].1.value, theme).style
  {
    BorderEdgePartLastWins(m, entries, theme, e, StylePart, j);
  }

  /**
    * Per-edge borders: the width of a side comes from the last truthy entry
    * standing for it that has a size; entries without a size leave it alone.
    */
  lemma BorderEdgeWidthLastWins(m: map<CssProp, string>, entries: EdgeEntries, theme: Theme, e: Edge, j: nat)
    requires j < |entries| && EdgeValueTruthy(entries[j].1) && Covers(entries[j].0, e)
    requires ResolveBorderConfig(entries[j].1.value, theme).size.Some?
    requires forall i :: j < i < |entries| && EdgeValueTruthy(entries[i].1) && Covers(entries[i].0, e) ==>
      ResolveBorderConfig(entries[i].1.value, theme).size.None?
    ensures BorderSide(e, WidthPart) in Border(m, Some(PerEdge(entries)), theme)
    ensures Border(m, Some(PerEdge(entries)), theme)[BorderSide(e, WidthPart)] ==
      JsValue.Decimal(ResolveBorderConfig(entries[j].1.value, theme).size.value) + "px"
  {
    BorderEdgePartLastWins(m, entries, theme, e, WidthPart, j);
  }

  /**
    * Per-edge borders: the colour of a side comes from the last truthy entry
    * standing for it whose colour resolves to a non-empty string.
    */
  lemma BorderEdgeColorLastWins(m: map<CssProp, string>, entries: EdgeEntries, theme: Theme, e: Edge, j: nat)
    requires j < |entries| && EdgeValueTruthy(entries[j].1) && Covers(entries[j].0, e)
    requires ColorTruthy(ResolveBorderConfig(entries[j].1.value, theme).color)
    requires forall i :: j < i < |entries| && EdgeValueTruthy(entries[i].1) && Covers(entries[i].0, e) ==>
      !ColorTruthy(ResolveBorderConfig(entries[i].1.value, theme).color)
    ensures BorderSide(e, ColorPart) in Border(m, Some(PerEdge(entries)), theme)
    ensures Border(m, Some(PerEdge(entries)), theme)[BorderSide(e, ColorPart)] ==
      ResolveBorderConfig(entries[j].1.value, theme).color.value
  {
    BorderEdgePartLastWins(m, entries, theme, e, ColorPart, j);
  }

  /** A per-edge border leaves every property that is not a per-side border property as it was. */
  lemma BorderEdgesTouchOnlySides(m: map<CssProp, string>, entries: EdgeEntries, theme: Theme, k: CssProp)
    requires !k.BorderSide?
    ensures var r := Border(m, Some(PerEdge(entries)), theme);
      (k in r <==> k in m) && (k in m ==> r[k] == m[k])
  {
    BorderStepsOnlySides(m, entries, theme);
  }

  /** A falsy per-edge entry (0, `null`, or a value that is neither a number nor an object) can be left out. */
  lemma BorderSkipsFalsy(m: map<CssProp, string>, entries: EdgeEntries, theme: Theme, i: nat)
    requires i < |entries| && !EdgeValueTruthy(entries[i].1)
    ensures Border(m, Some(PerEdge(entries)), theme) == Border(m, Some(PerEdge(entries[..i] + entries[i + 1..])), theme)
  {
    var steps := BorderSteps(entries, theme);
    assert steps[i] == map[];
    OverlaySkipsEmpty(m, steps, i);
    BorderStepsRemove(entries, theme, i);
  }

  /** Dropping an entry drops its step. */
  lemma BorderStepsRemove(entries: seq<(string, Option<BorderConfig>)>, theme: Theme, i: nat)
    requires i < |entries|
    ensures BorderSteps(entries[..i] + entries[i + 1..], theme) ==
      BorderSteps(entries, theme)[..i] + BorderSteps(entries, theme)[i + 1..]
  {
    var rest := entries[..i] + entries[i + 1..];
    forall j | 0 <= j < |rest| ensures rest[j] == (if j < i then entries[j] else entries[j + 1]) {
    }
  }

  // ---------------------------------------------------------------- radius

  /** `applyRadius` (lines 173-179): a token through the table, any other string as it is, nothing for a missing or empty one. */
  function Radius(m: map<CssProp, string>, radius: Option<string>): (r: map<CssProp, string>)
    ensures radius.None? || radius == Some("") ==> r == m
    ensures radius.Some? && radius.value != "" ==> r.Keys == m.Keys + {BorderRadius}
    ensures radius.Some? && radius.value != "" && RadiusToken(radius.value).None? ==> r[BorderRadius] == radius.value
    ensures radius == Some("md") ==> r[BorderRadius] == "12px"
    ensures radius == Some("full") ==> r[BorderRadius] == "9999px"
    ensures radius == Some("none") ==> r[BorderRadius] == "0px"
    ensures forall k :: k in m && k != BorderRadius ==> r[k] == m[k]
  {
    if radius.None? || radius.value == "" then m
    else
      var token := RadiusToken(radius.value);
      m[BorderRadius := if token.Some? then token.value else radius.value]
  }

  // ----------------------------------------------------------- box styles

  /** The layout props `buildBoxStyles` reads; `None` is an absent (`undefined`) prop. */
  datatype BoxNode = BoxNode(
    padding: Option<SpacingOption>,
    margin: Option<SpacingOption>,
    background: Option<ThemedColor>,
    radius: Option<string>,
    border: Option<BorderOption>,
    height: Option<Dimension>,
    width: Option<Dimension>,
    minHeight: Option<Dimension>,
    minWidth: Option<Dimension>,
    maxHeight: Option<Dimension>,
    maxWidth: Option<Dimension>,
    flex: Option<Dimension>,
    size: Option<Dimension>,
    minSize: Option<Dimension>,
    maxSize: Option<Dimension>,
    gap: Option<Dimension>,
    aspectRatio: Option<Dimension>)

  /** `!!spacing`: a spacing object is always truthy, a number or string unless 0 or empty. */
  predicate SpacingTruthy(spacing: Option<SpacingOption>) {
    spacing.Some? && (spacing.value.Sides? || DimensionTruthy(spacing.value.value))
  }

  /** `!!color`: a themed pair is always truthy, a plain colour unless empty. */
  predicate BackgroundTruthy(color: Option<ThemedColor>) {
    color.Some? && color.value != Color("")
  }

  /** `if (value !== undefined) style[prop] = toCssValue(value)` */
  function SetDimension(m: map<CssProp, string>, prop: CssProp, value: Option<Dimension>): map<CssProp, string> {
    if value.None? then m else m[prop := CssValue(value).value]
  }

  /** `${n} 1 0` for a number, the string as it is. */
  function FlexValue(flex: Dimension): string {
    match flex
    case Number(n) => JsValue.Decimal(n) + " 1 0"
    case Text(s) => s
  }

  /** `String(n)` for a number (no unit), the string as it is. */
  function AspectRatioValue(ratio: Dimension): string {
    match ratio
    case Number(n) => JsValue.Decimal(n)
    case Text(s) => s
  }

  /** Line 205: padding, only when truthy, on an empty style. */
  function PaddingStep(node: BoxNode): map<CssProp, string> {
    if SpacingTruthy(node.padding) then EdgeSpacing(map[], Padding, node.padding) else map[]
  }

  /** Line 206: margin, only when truthy. */
  function MarginStep(m: map<CssProp, string>, node: BoxNode): map<CssProp, string> {
    if SpacingTruthy(node.margin) then EdgeSpacing(m, Margin, node.margin) else m
  }

  /** Lines 207-209: the background colour for the theme, only when truthy. */
  function BackgroundStep(m: map<CssProp, string>, node: BoxNode, theme: Theme): map<CssProp, string> {
    if BackgroundTruthy(node.background) then m[BackgroundColor := ResolveColor(node.background, theme).value] else m
  }

  /** Lines 205-211: spacing, background, radius and border, each only when truthy. */
  function Decorations(node: BoxNode, theme: Theme): map<CssProp, string> {
    Border(Radius(BackgroundStep(MarginStep(PaddingStep(node), node), node, theme), node.radius), node.border, theme)
  }

  predicate Keeps(m: map<CssProp, string>, r: map<CssProp, string>, k: CssProp) {
    (k in r <==> k in m) && (k in m ==> r[k] == m[k])
  }

  lemma PaddingStepKeys(node: BoxNode, k: CssProp)
    requires !IsPadding(k)
    ensures k !in PaddingStep(node)
  {
    if SpacingTruthy(node.padding) && node.padding.value.Sides? {
      SpacingSidesUntouched(map[], Padding, node.padding.value.entries, k);
    }
  }

  lemma MarginStepKeeps(m: map<CssProp, string>, node: BoxNode, k: CssProp)
    requires !((k.Spacing? || k.SpacingSide?) && k.kind == Margin)
    ensures Keeps(m, MarginStep(m, node), k)
  {
    if SpacingTruthy(node.margin) && node.margin.value.Sides? {
      SpacingSidesUntouched(m, Margin, node.margin.value.entries, k);
    }
  }

  /** Margin, background, radius and border keep a padding or sizing property as the padding step left it. */
  lemma DecorationsKeep(node: BoxNode, theme: Theme, k: CssProp)
    requires IsPadding(k) || SizingProp(k)
    ensures Keeps(PaddingStep(node), Decorations(node, theme), k)
  {
    var m2 := MarginStep(PaddingStep(node), node);
    MarginStepKeeps(PaddingStep(node), node, k);
    var m4 := Radius(BackgroundStep(m2, node, theme), node.radius);
    assert Keeps(m4, Border(m4, node.border, theme), k);
  }

  /** Lines 213-238: the six sizes, then `size`, `minSize` and `maxSize` over them. */
  /** The explicit `height`, `width`, `minHeight`, `minWidth`, `maxHeight`, `maxWidth` props (lines 213-220). */
  function ExplicitSizes(m: map<CssProp, string>, node: BoxNode): map<CssProp, string> {
    var a := SetDimension(SetDimension(SetDimension(m, Height, node.height), Width, node.width), MinHeight, node.minHeight);
    SetDimension(SetDimension(SetDimension(a, MinWidth, node.minWidth), MaxHeight, node.maxHeight), MaxWidth, node.maxWidth)
  }

  /** A shorthand prop that, when present, sets two properties to the same value (`size`, `minSize`, `maxSize`). */
  function SetPair(m: map<CssProp, string>, first: CssProp, second: CssProp, value: Option<Dimension>): map<CssProp, string> {
    SetDimension(SetDimension(m, first, value), second, value)
  }

  /** The `size`, `minSize` and `maxSize` shorthands (lines 222-238). */
  function Shorthands(m: map<CssProp, string>, node: BoxNode): map<CssProp, string> {
    var s := SetPair(m, Width, Height, node.size);
    SetPair(SetPair(s, MinWidth, MinHeight, node.minSize), MaxWidth, MaxHeight, node.maxSize)
  }

  /** The sizing part of `buildBoxStyles` (lines 213-238): explicit sizes first, then the shorthands. */
  function Sizes(m: map<CssProp, string>, node: BoxNode): map<CssProp, string> {
    Shorthands(ExplicitSizes(m, node), node)
  }

  /** Lines 240-253: `flex`, `gap` and `aspectRatio`. */
  function Extras(m: map<CssProp, string>, node: BoxNode): map<CssProp, string> {
    var f := if node.flex.None? then m else m[Flex := FlexValue(node.flex.value)];
    var g := SetDimension(f, Gap, node.gap);
    if node.aspectRatio.None? then g else g[AspectRatio := AspectRatioValue(node.aspectRatio.value)]
  }

  /** `buildBoxStyles` (lines 181-256): the style built from an empty one. */
  function BoxStyles(node: BoxNode, theme: Theme := Light): (r: map<CssProp, string>)
    ensures Flex in r <==> node.flex.Some?
    ensures Gap in r <==> node.gap.Some?
    ensures AspectRatio in r <==> node.aspectRatio.Some?
  {
    NoLayoutBeforeExtras(node, theme);
    ExtrasValues(Sizes(Decorations(node, theme), node), node);
    Extras(Sizes(Decorations(node, theme), node), node)
  }

  /** Nothing before line 240 writes `flex`, `gap` or `aspectRatio`. */
  lemma NoLayoutBeforeExtras(node: BoxNode, theme: Theme)
    ensures var m := Sizes(Decorations(node, theme), node);
      Flex !in m && Gap !in m && AspectRatio !in m
  {
    var d := Decorations(node, theme);
    forall k | k in {Flex, Gap, AspectRatio} ensures k !in Sizes(d, node) {
      DecorationsNoSizing(node, theme, k);
      SizesKeep(d, node, k);
    }
  }

  predicate IsPadding(k: CssProp) {
    (k.Spacing? || k.SpacingSide?) && k.kind == Padding
  }

  /** The properties lines 213-253 set. */
  predicate SizingProp(k: CssProp) {
    k in {Height, Width, MinHeight, MinWidth, MaxHeight, MaxWidth, Flex, Gap, AspectRatio}
  }

  lemma SetDimensionKeeps(m: map<CssProp, string>, prop: CssProp, value: Option<Dimension>, k: CssProp)
    requires k != prop
    ensures var r := SetDimension(m, prop, value); (k in r <==> k in m) && (k in m ==> r[k] == m[k])
  {
  }

  /** `flex`, `gap` and `aspectRatio` leave every other property alone. */
  lemma ExtrasKeep(m: map<CssProp, string>, node: BoxNode, k: CssProp)
    requires k != Flex && k != Gap && k != AspectRatio
    ensures var r := Extras(m, node); (k in r <==> k in m) && (k in m ==> r[k] == m[k])
  {
    var f := if node.flex.None? then m else m[Flex := FlexValue(node.flex.value)];
    SetDimensionKeeps(f, Gap, node.gap, k);
  }

  /** The sizing props leave every property they do not name alone. */
  lemma SizesKeep(m: map<CssProp, string>, node: BoxNode, k: CssProp)
    requires k !in {Height, Width, MinHeight, MinWidth, MaxHeight, MaxWidth}
    ensures var r := Sizes(m, node); (k in r <==> k in m) && (k in m ==> r[k] == m[k])
  {
  }

  lemma LayoutKeeps(m: map<CssProp, string>, node: BoxNode, k: CssProp)
    requires !SizingProp(k)
    ensures var r := Extras(Sizes(m, node), node); (k in r <==> k in m) && (k in m ==> r[k] == m[k])
  {
    SizesKeep(m, node, k);
    ExtrasKeep(Sizes(m, node), node, k);
  }

  /** A present shorthand sets both its properties; an absent one changes nothing. */
  lemma SetPairSets(m: map<CssProp, string>, first: CssProp, second: CssProp, value: Option<Dimension>)
    requires first != second
    ensures var r := SetPair(m, first, second, value);
      && (value.Some? ==> first in r && second in r && r[first] == r[second] == CssValue(value).value)
      && (value.None? ==> r == m)
  {
  }

  /** A shorthand leaves every other property alone. */
  lemma SetPairKeeps(m: map<CssProp, string>, first: CssProp, second: CssProp, value: Option<Dimension>, k: CssProp)
    requires k != first && k != second
    ensures Keeps(m, SetPair(m, first, second, value), k)
  {
    SetDimensionKeeps(m, first, value, k);
    SetDimensionKeeps(SetDimension(m, first, value), second, value, k);
  }

  /** Present `width` and `height` props are written. */
  lemma ExplicitSizesSet(m: map<CssProp, string>, node: BoxNode)
    ensures var r := ExplicitSizes(m, node);
      && (node.width.Some? ==> Width in r && r[Width] == CssValue(node.width).value)
      && (node.height.Some? ==> Height in r && r[Height] == CssValue(node.height).value)
  {
    var a1 := SetDimension(m, Height, node.height);
    var a2 := SetDimension(a1, Width, node.width);
    var a := SetDimension(a2, MinHeight, node.minHeight);
    var b1 := SetDimension(a, MinWidth, node.minWidth);
    var b2 := SetDimension(b1, MaxHeight, node.maxHeight);
    forall k | k == Width || k == Height ensures Keeps(a2, ExplicitSizes(m, node), k) {
      SetDimensionKeeps(a2, MinHeight, node.minHeight, k);
      SetDimensionKeeps(a, MinWidth, node.minWidth, k);
      SetDimensionKeeps(b1, MaxHeight, node.maxHeight, k);
      SetDimensionKeeps(b2, MaxWidth, node.maxWidth, k);
    }
    SetDimensionKeeps(a1, Width, node.width, Height);
  }

  /** `size`, `minSize` and `maxSize` win over the explicit props they shadow. */
  lemma ShorthandsOverride(m: map<CssProp, string>, node: BoxNode)
    ensures var r := Shorthands(m, node);
      && (node.size.Some? ==> Width in r && Height in r && r[Width] == r[Height] == CssValue(node.size).value)
      && (node.minSize.Some? ==> MinWidth in r && MinHeight in r && r[MinWidth] == r[MinHeight] == CssValue(node.minSize).value)
      && (node.maxSize.Some? ==> MaxWidth in r && MaxHeight in r && r[MaxWidth] == r[MaxHeight] == CssValue(node.maxSize).value)
  {
    var s1 := SetPair(m, Width, Height, node.size);
    var s2 := SetPair(s1, MinWidth, MinHeight, node.minSize);
    var r := SetPair(s2, MaxWidth, MaxHeight, node.maxSize);
    SetPairSets(m, Width, Height, node.size);
    SetPairSets(s1, MinWidth, MinHeight, node.minSize);
    SetPairSets(s2, MaxWidth, MaxHeight, node.maxSize);
    forall k | k == Width || k == Height ensures Keeps(s1, r, k) {
      SetPairKeeps(s1, MinWidth, MinHeight, node.minSize, k);
      SetPairKeeps(s2, MaxWidth, MaxHeight, node.maxSize, k);
    }
    forall k | k == MinWidth || k == MinHeight ensures Keeps(s2, r, k) {
      SetPairKeeps(s2, MaxWidth, MaxHeight, node.maxSize, k);
    }
  }

  /** Without `size`, explicit `width` and `height` stand. */
  lemma ExplicitSizesStand(m: map<CssProp, string>, node: BoxNode)
    requires node.size.None?
    ensures var r := Sizes(m, node);
      && (node.width.Some? ==> Width in r && r[Width] == CssValue(node.width).value)
      && (node.height.Some? ==> Height in r && r[Height] == CssValue(node.height).value)
  {
    var e := ExplicitSizes(m, node);
    var s2 := SetPair(e, MinWidth, MinHeight, node.minSize);
    ExplicitSizesSet(m, node);
    assert SetPair(e, Width, Height, node.size) == e;
    forall k | k == Width || k == Height ensures Keeps(e, Sizes(m, node), k) {
      SetPairKeeps(e, MinWidth, MinHeight, node.minSize, k);
      SetPairKeeps(s2, MaxWidth, MaxHeight, node.maxSize, k);
    }
  }

  lemma BoxSizeOverrides(node: BoxNode, theme: Theme)
    ensures var r := BoxStyles(node, theme);
      && (node.size.Some? ==> Width in r && Height in r && r[Width] == r[Height] == CssValue(node.size).value)
      && (node.minSize.Some? ==> MinWidth in r && MinHeight in r && r[MinWidth] == r[MinHeight] == CssValue(node.minSize).value)
      && (node.maxSize.Some? ==> MaxWidth in r && MaxHeight in r && r[MaxWidth] == r[MaxHeight] == CssValue(node.maxSize).value)
      && (node.size.None? && node.width.Some? ==> Width in r && r[Width] == CssValue(node.width).value)
      && (node.size.None? && node.height.Some? ==> Height in r && r[Height] == CssValue(node.height).value)
  {
    var d := Decorations(node, theme);
    ShorthandsOverride(ExplicitSizes(d, node), node);
    if node.size.None? {
      ExplicitSizesStand(d, node);
    }
    forall k | k in {Width, Height, MinWidth, MinHeight, MaxWidth, MaxHeight} {
      ExtrasKeep(Sizes(d, node), node, k);
    }
  }

  lemma ExtrasValues(m: map<CssProp, string>, node: BoxNode)
    requires Flex !in m && Gap !in m && AspectRatio !in m
    ensures var r := Extras(m, node);
      && (Flex in r <==> node.flex.Some?)
      && (node.flex.Some? ==> r[Flex] == FlexValue(node.flex.value))
      && (Gap in r <==> node.gap.Some?)
      && (node.gap.Some? ==> r[Gap] == CssValue(node.gap).value)
      && (AspectRatio in r <==> node.aspectRatio.Some?)
      && (node.aspectRatio.Some? ==> r[AspectRatio] == AspectRatioValue(node.aspectRatio.value))
  {
  }

  /** Spacing, background, radius and border never write a sizing property. */
  lemma DecorationsNoSizing(node: BoxNode, theme: Theme, k: CssProp)
    requires SizingProp(k)
    ensures k !in Decorations(node, theme)
  {
    PaddingStepKeys(node, k);
    DecorationsKeep(node, theme, k);
  }

  /**
    * A number for `flex` becomes `n 1 0` (`3 1 0` for 3), for `aspectRatio`
    * a bare number (`2` for 2, no unit), and `gap` goes through
    * `toCssValue`; each is in the style exactly when the prop is present.
    */
  lemma BoxFlexGapAspectRatio(node: BoxNode, theme: Theme)
    ensures var r := BoxStyles(node, theme);
      && (Flex in r <==> node.flex.Some?)
      && (node.flex.Some? && node.flex.value.Number? ==> r[Flex] == JsValue.Decimal(node.flex.value.n) + " 1 0")
      && (node.flex.Some? && node.flex.value.Text? ==> r[Flex] == node.flex.value.s)
      && (Gap in r <==> node.gap.Some?)
      && (node.gap.Some? ==> r[Gap] == CssValue(node.gap).value)
      && (AspectRatio in r <==> node.aspectRatio.Some?)
      && (node.aspectRatio.Some? && node.aspectRatio.value.Number? ==> r[AspectRatio] == JsValue.Decimal(node.aspectRatio.value.n))
      && (node.aspectRatio.Some? && node.aspectRatio.value.Text? ==> r[AspectRatio] == node.aspectRatio.value.s)
  {
    NoLayoutBeforeExtras(node, theme);
    ExtrasValues(Sizes(Decorations(node, theme), node), node);
  }

  /** Only the padding step writes padding properties: padding 0, "" or absent leaves none in the style. */
  lemma BoxFalsyPaddingWritesNothing(node: BoxNode, theme: Theme)
    requires !SpacingTruthy(node.padding)
    ensures forall k :: k in BoxStyles(node, theme) ==> !IsPadding(k)
  {
    forall k | IsPadding(k) ensures k !in BoxStyles(node, theme) {
      DecorationsKeep(node, theme, k);
      LayoutKeeps(Decorations(node, theme), node, k);
    }
  }

  /** `backgroundColor` is set exactly when the background is truthy, to the colour for the theme. */
  lemma BoxBackground(node: BoxNode, theme: Theme)
    ensures var r := BoxStyles(node, theme);
      && (BackgroundColor in r <==> BackgroundTruthy(node.background))
      && (BackgroundTruthy(node.background) ==> r[BackgroundColor] == ResolveColor(node.background, theme).value)
  {
    var k := BackgroundColor;
    PaddingStepKeys(node, k);
    var m2 := MarginStep(PaddingStep(node), node);
    MarginStepKeeps(PaddingStep(node), node, k);
    var m4 := Radius(BackgroundStep(m2, node, theme), node.radius);
    assert Keeps(m4, Border(m4, node.border, theme), k);
    LayoutKeeps(Decorations(node, theme), node, k);
  }

  /** A node with no props gives an empty style. */
  lemma BoxEmptyNode(theme: Theme)
    ensures BoxStyles(BoxNode(None, None, None, None, None, None, None, None, None, None, None, None, None, None, None, None, None), theme) == map[]
  {
  }

  // ------------------------------------------------------- the style object

  /** A `CSSProperties` object that the helpers fill in place. */
  class Style {
    var props: map<CssProp, string>

    constructor()
      ensures props == map[]
    {
      props := map[];
    }

    /** `assignStyle` (lines 44-51) */
    method AssignStyle(key: CssProp, value: Option<string>)
      modifies this
      ensures props == old(props) + Assign(key, value)
    {
      if value.None? {
        return;
      }
      props := props[key := value.value];
    }

    /** One pass of the loop in `applyEdgeSpacing` (lines 64-88) */
    method ApplySpacingEntry(kind: SpacingKind, key: string, val: Option<Dimension>)
      modifies this
      ensures props == old(props) + SpacingEntryWrites(kind, key, val)
    {
      if val.None? {
        return;
      }
      var value := CssValue(val);
      ghost var before := props;
      match key
      case "x" =>
        AssignStyle(SpacingSide(kind, Left), value);
        AssignStyle(SpacingSide(kind, Right), value);
        MergeAssociates(before, Assign(SpacingSide(kind, Left), value), Assign(SpacingSide(kind, Right), value));
      case "y" =>
        AssignStyle(SpacingSide(kind, Top), value);
        AssignStyle(SpacingSide(kind, Bottom), value);
        MergeAssociates(before, Assign(SpacingSide(kind, Top), value), Assign(SpacingSide(kind, Bottom), value));
      case "top" => AssignStyle(SpacingSide(kind, Top), value);
      case "right" => AssignStyle(SpacingSide(kind, Right), value);
      case "bottom" => AssignStyle(SpacingSide(kind, Bottom), value);
      case "left" => AssignStyle(SpacingSide(kind, Left), value);
      case _ =>
        assert SpacingEntryWrites(kind, key, val) == map[];
        assert before + map[] == before;
    }

    /** `applyEdgeSpacing` (lines 53-90) */
    method ApplyEdgeSpacing(kind: SpacingKind, spacing: Option<SpacingOption>)
      modifies this
      ensures props == EdgeSpacing(old(props), kind, spacing)
    {
      if spacing.None? {
        return;
      }
      if spacing.value.AllSides? {
        AssignStyle(Spacing(kind), CssValue(Some(spacing.value.value)));
        return;
      }
      var entries := spacing.value.entries;
      ghost var steps := SpacingSteps(kind, entries);
      for i := 0 to |entries|
        invariant props == Overlay(old(props), steps[..i])
      {
        var (key, val) := entries[i];
        ApplySpacingEntry(kind, key, val);
        assert steps[..i + 1] == steps[..i] + [steps[i]];
        OverlayAppend(old(props), steps[..i], steps[i]);
      }
      assert steps[..|entries|] == steps;
    }

    /** Width, style and (when not empty) colour of one border target: lines 121-125 for the whole border, 136-140 for a side. */
    method ApplyResolved(width: CssProp, style: CssProp, color: CssProp, r: ResolvedBorder)
      modifies this
      ensures props == old(props) + BorderWrites(width, style, color, r)
    {
      var cssValue := CssValue(AsDimension(r.size));
      AssignStyle(width, cssValue);
      AssignStyle(style, Some(r.style));
      var a, b := Assign(width, cssValue), Assign(style, Some(r.style));
      MergeAssociates(old(props), a, b);
      if ColorTruthy(r.color) {
        AssignStyle(color, r.color);
        MergeAssociates(old(props), a + b, Assign(color, r.color));
      }
    }

    /** The inner `apply` of `applyBorder` (lines 135-141) */
    method ApplyEdge(e: Edge, r: ResolvedBorder)
      modifies this
      ensures props == old(props) + EdgeBorderWrites(e, r)
    {
      ApplyResolved(BorderSide(e, WidthPart), BorderSide(e, StylePart), BorderSide(e, ColorPart), r);
    }

    /** `applyBorder` (lines 109-171) */
    method ApplyBorder(border: Option<BorderOption>, theme: Theme)
      modifies this
      ensures props == Border(old(props), border, theme)
    {
      if !BorderTruthy(border) {
        return;
      }
      if WholeBorder(border.value) {
        var r := ResolveBorderConfig(border.value.config, theme);
        ApplyResolved(BorderAll(WidthPart), BorderAll(StylePart), BorderAll(ColorPart), r);
        return;
      }
      if border.value.Whole? {
        // an object without a numeric `size` has no side keys among its entries
        return;
      }
      var entries := border.value.entries;
      ghost var steps := BorderSteps(entries, theme);
      for i := 0 to |entries|
        invariant props == Overlay(old(props), steps[..i])
      {
        var (edge, value) := entries[i];
        ApplyBorderEntry(edge, value, theme);
        assert steps[..i + 1] == steps[..i] + [steps[i]];
        OverlayAppend(old(props), steps[..i], steps[i]);
      }
      assert steps[..|entries|] == steps;
    }

    /** One pass of the loop in `applyBorder` (lines 130-169) */
    method ApplyBorderEntry(edge: string, value: Option<BorderConfig>, theme: Theme)
      modifies this
      ensures props == old(props) + BorderEntryWrites(edge, value, theme)
    {
      if !EdgeValueTruthy(value) {
        return;
      }
      var r := ResolveBorderConfig(value.value, theme);
      if edge == "x" {
        ApplyEdge(Left, r);
        ApplyEdge(Right, r);
        EdgesBorderWritesTwo(Left, Right, r);
        MergeAssociates(old(props), EdgeBorderWrites(Left, r), EdgeBorderWrites(Right, r));
        assert KeyEdges(edge) == [Left, Right];
        return;
      }
      if edge == "y" {
        ApplyEdge(Top, r);
        ApplyEdge(Bottom, r);
        EdgesBorderWritesTwo(Top, Bottom, r);
        MergeAssociates(old(props), EdgeBorderWrites(Top, r), EdgeBorderWrites(Bottom, r));
        assert KeyEdges(edge) == [Top, Bottom];
        return;
      }
      match edge
      case "top" => 
        ApplyEdge(Top, r);
        EdgesBorderWritesTwo(Top, Top, r);
        assert KeyEdges(edge) == [Top];
      case "right" => 
        ApplyEdge(Right, r);
        EdgesBorderWritesTwo(Right, Right, r);
        assert KeyEdges(edge) == [Right];
      case "bottom" => 
        ApplyEdge(Bottom, r);
        EdgesBorderWritesTwo(Bottom, Bottom, r);
        assert KeyEdges(edge) == [Bottom];
      case "left" => 
        ApplyEdge(Left, r);
        EdgesBorderWritesTwo(Left, Left, r);
        assert KeyEdges(edge) == [Left];
      case _ =>
        assert KeyEdges(edge) == [];
    }

    /** `applyRadius` (lines 173-179) */
    method ApplyRadius(radius: Option<string>)
      modifies this
      ensures props == Radius(old(props), radius)
    {
      if radius.None? || radius.value == "" {
        return;
      }
      var token := RadiusToken(radius.value);
      props := props[BorderRadius := if token.Some? then token.value else radius.value];
    }

    /** Lines 205-211 of `buildBoxStyles` */
    method ApplyDecorations(node: BoxNode, theme: Theme)
      requires props == map[]
      modifies this
      ensures props == Decorations(node, theme)
    {
      if SpacingTruthy(node.padding) { ApplyEdgeSpacing(Padding, node.padding); }
      assert props == PaddingStep(node);
      if SpacingTruthy(node.margin) { ApplyEdgeSpacing(Margin, node.margin); }
      if BackgroundTruthy(node.background) {
        props := props[BackgroundColor := ResolveColor(node.background, theme).value];
      }
      assert props == BackgroundStep(MarginStep(PaddingStep(node), node), node, theme);
      if node.radius.Some? && node.radius.value != "" { ApplyRadius(node.radius); }
      if BorderTruthy(node.border) { ApplyBorder(node.border, theme); }
    }

    /** Lines 213-238 of `buildBoxStyles` */
    method ApplySizes(node: BoxNode)
      modifies this
      ensures props == Sizes(old(props), node)
    {
      props := SetDimension(props, Height, node.height);
      props := SetDimension(props, Width, node.width);
      props := SetDimension(props, MinHeight, node.minHeight);
      props := SetDimension(props, MinWidth, node.minWidth);
      props := SetDimension(props, MaxHeight, node.maxHeight);
      props := SetDimension(props, MaxWidth, node.maxWidth);
      props := SetDimension(SetDimension(props, Width, node.size), Height, node.size);
      props := SetDimension(SetDimension(props, MinWidth, node.minSize), MinHeight, node.minSize);
      props := SetDimension(SetDimension(props, MaxWidth, node.maxSize), MaxHeight, node.maxSize);
    }
  }

  /** `buildBoxStyles` (lines 181-256): builds a fresh style object step by step. */
  method BuildBoxStyles(node: BoxNode, theme: Theme := Light) returns (style: Style)
    ensures fresh(style) && style.props == BoxStyles(node, theme)
  {
    style := new Style();
    style.ApplyDecorations(node, theme);
    style.ApplySizes(node);
    if node.flex.Some? {
      style.props := style.props[Flex := FlexValue(node.flex.value)];
    }
    if node.gap.Some? { style.props := style.props[Gap := CssValue(node.gap).value]; }
    if node.aspectRatio.Some? {
      style.props := style.props[AspectRatio := AspectRatioValue(node.aspectRatio.value)];
    }
  }
}

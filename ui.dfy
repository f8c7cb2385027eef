/** The configuration-driven renderer: `UIDrawer.draw_screen` turns one
    screen description plus live data into an ordered display list. PIL's
    rasterisation is not modelled; a drawing is the list of calls made on
    the `ImageDraw` canvas, in order. */
module Ui {
  import opened PyValues

  /** LCD_WIDTH, LCD_HEIGHT and TITLE_BAR_HEIGHT of the constants module. */
  datatype Dims = Dims(width: int, height: int, titleBar: int)

  datatype Point = Point(x: int, y: int)

  /** A loaded font; only its pixel size enters the layout. */
  datatype Font = Font(name: string, size: int)

  /** One call on the canvas: `Image.new`, `rectangle`, `polygon`, `text`. */
  datatype DrawOp =
    | NewImage(width: int, height: int, color: string)
    | Rectangle(x0: int, y0: int, x1: int, y1: int, fill: string)
    | Polygon(points: seq<Point>, fill: string)
    | Text(at: Point, text: string, font: Option<Font>, fill: string)

  /** A widget entry of a screen. Each optional key is None when the YAML
      omits it; a missing `data_source` is RefValue(NoneV). */
  datatype WidgetCfg = WidgetCfg(
    kind: Option<string>,
    position: Option<Point>,
    labelText: Option<string>,
    dataSource: DataRef,
    color: Option<string>,
    font: Option<string>,
    subFont: Option<string>,
    dataXOffset: Option<int>,
    subYOffset: Option<int>,
    subColor: Option<string>,
    template: Option<string>)

  /** A screen entry: `title`, `type`, `color`, `image_path`, `widgets`. */
  datatype ScreenCfg = ScreenCfg(
    title: Option<string>,
    kind: Option<string>,
    color: Option<string>,
    imagePath: Option<string>,
    widgets: Option<seq<WidgetCfg>>)

  /** The parsed config.yaml: `colors`, `screens`, `screen_timeout`. */
  datatype Config = Config(
    colors: map<string, string>,
    screens: seq<ScreenCfg>,
    screenTimeout: Option<real>)

  /** What `format(obj, spec)` and attribute or index access in a
      replacement field produce; Python's format-spec mini-language is a
      collaborator of the model. Given the value and the whole field text. */
  type FieldFormatter = (Value, string) -> Result<string>

  /** Everything `draw_screen` reads: the drawer's fields, the constants and
      the format-spec collaborator. */
  datatype Env = Env(
    dims: Dims,
    colors: map<string, string>,
    screens: seq<ScreenCfg>,
    fonts: map<string, Font>,
    getData: DataRef -> Result<Value>,
    fieldFormat: FieldFormatter)

  // ---------------------------------------------------------------------
  // Lookups with defaults

  /** `self.colors.get(key, default)`. */
  function ColorOr(colors: map<string, string>, key: string, default: string): string {
    if key in colors then colors[key] else default
  }

  /** `self.fonts.get(name)`. */
  function FontOf(fonts: map<string, Font>, name: string): Option<Font> {
    if name in fonts then Some(fonts[name]) else None
  }

  /** The widget colour: its own `color`, else `widget_default`, else WHITE. */
  function WidgetColor(env: Env, w: WidgetCfg): string {
    w.color.GetOr(ColorOr(env.colors, "widget_default", "WHITE"))
  }

  function WidgetFont(env: Env, w: WidgetCfg): Option<Font> {
    FontOf(env.fonts, w.font.GetOr("medium"))
  }

  /** Where the value goes: `data_x_offset` (default 140) right of the label. */
  function DataPos(w: WidgetCfg): Point
    requires w.position.Some?
  {
    Point(w.position.value.x + w.dataXOffset.GetOr(140), w.position.value.y)
  }

  // ---------------------------------------------------------------------
  // str.format with the single keyword argument `data`

  predicate BraceFree(t: string) {
    forall k :: 0 <= k < |t| ==> t[k] != '{' && t[k] != '}'
  }

  /** The index of the '}' that closes a field opened before position i,
      counting nested braces; None when the template ends first. */
  function MatchClose(t: string, i: nat, depth: nat): (r: Option<nat>)
    requires depth >= 1
    ensures r.Some? ==> i <= r.value < |t| && t[r.value] == '}'
    decreases |t| - i
  {
    if i >= |t| then None
    else if t[i] == '{' then MatchClose(t, i + 1, depth + 1)
    else if t[i] == '}' then (if depth == 1 then Some(i) else MatchClose(t, i + 1, depth - 1))
    else MatchClose(t, i + 1, depth)
  }

  /** The length of the longest prefix of s free of the stop characters. */
  function PrefixWithout(s: string, stops: set<char>): (k: nat)
    ensures k <= |s|
    ensures forall i :: 0 <= i < k ==> s[i] !in stops
    ensures k < |s| ==> s[k] in stops
    decreases |s|
  {
    if s == [] || s[0] in stops then 0 else 1 + PrefixWithout(s[1..], stops)
  }

  /** The part of a field after its name: `!c` conversion and `:spec`. */
  function ParseTail(tail: string): Result<(Option<char>, string)> {
    if tail == [] then Ok((None, ""))
    else if tail[0] == ':' then Ok((None, tail[1..]))
    else if |tail| < 2 then Err(ValueError)
    else if |tail| == 2 then Ok((Some(tail[1]), ""))
    else if tail[2] == ':' then Ok((Some(tail[1]), tail[3..]))
    else Err(ValueError)
  }

  /** One replacement field `{f}` of `template.format(data=v)`. An empty or
      numeric name is a positional index (there are none: IndexError), any
      other name than `data` a missing keyword (KeyError). */
  function ReplaceField(f: string, v: Value, ff: FieldFormatter): Result<string> {
    var nameEnd := PrefixWithout(f, {'!', ':'});
    var name := f[..nameEnd];
    if '{' in name then Err(ValueError)
    else
      var tail :- ParseTail(f[nameEnd..]);
      var argEnd := PrefixWithout(name, {'.', '['});
      var arg := name[..argEnd];
      if arg == [] || AllDigits(arg) then Err(IndexError)
      else if arg != "data" then Err(KeyError)
      else if argEnd < |name| || tail.1 != [] then ff(v, f)
      else match tail.0
        case None => Ok(Str(v))
        case Some(c) =>
          if c == 's' then Ok(Str(v))
          else if c == 'r' || c == 'a' then Ok(Render(v, true))
          else Err(ValueError)
  }

  /** `template.format(data=v)`: "{{" and "}}" are literal braces, a lone
      brace is a ValueError, every field is replaced left to right. */
  function Format(t: string, v: Value, ff: FieldFormatter): Result<string>
    decreases |t|
  {
    if t == [] then Ok("")
    else if t[0] == '{' && |t| >= 2 && t[1] == '{' then
      var rest :- Format(t[2..], v, ff);
      Ok("{" + rest)
    else if t[0] == '{' then
      match MatchClose(t, 1, 1)
      case None => Err(ValueError)
      case Some(j) =>
        var piece :- ReplaceField(t[1..j], v, ff);
        var rest :- Format(t[j + 1..], v, ff);
        Ok(piece + rest)
    else if t[0] == '}' then
      if |t| >= 2 && t[1] == '}' then
        var rest :- Format(t[2..], v, ff);
        Ok("}" + rest)
      else Err(ValueError)
    else
      var rest :- Format(t[1..], v, ff);
      Ok([t[0]] + rest)
  }

  /** Text without braces comes out of `format` unchanged. */
  lemma {:induction false} FormatBraceFree(t: string, v: Value, ff: FieldFormatter)
    requires BraceFree(t)
    ensures Format(t, v, ff) == Ok(t)
    decreases |t|
  {
    if t != [] {
      FormatBraceFree(t[1..], v, ff);
      assert [t[0]] + t[1..] == t;
    }
  }

  /** Brace-free text in front of a template is copied before it. */
  lemma {:induction false} FormatPrefix(a: string, t: string, v: Value, ff: FieldFormatter)
    requires BraceFree(a)
    ensures Format(a + t, v, ff) ==
      (if Format(t, v, ff).Ok? then Ok(a + Format(t, v, ff).value) else Format(t, v, ff))
    decreases |a|
  {
    if a != [] {
      assert (a + t)[1..] == a[1..] + t;
      assert (a + t)[0] == a[0];
      FormatPrefix(a[1..], t, v, ff);
      if Format(t, v, ff).Ok? {
        assert [a[0]] + (a[1..] + Format(t, v, ff).value) == a + Format(t, v, ff).value;
      }
    } else {
      assert a + t == t;
      if Format(t, v, ff).Ok? {
        assert a + Format(t, v, ff).value == Format(t, v, ff).value;
      }
    }
  }

  lemma {:induction false} MatchCloseFlat(t: string, i: nat, j: nat)
    requires i <= j < |t| && t[j] == '}'
    requires forall k :: i <= k < j ==> t[k] != '{' && t[k] != '}'
    ensures MatchClose(t, i, 1) == Some(j)
    decreases j - i
  {
    if i < j {
      MatchCloseFlat(t, i + 1, j);
    }
  }

  lemma {:induction false} PrefixWithoutNone(s: string, stops: set<char>)
    requires forall k :: 0 <= k < |s| ==> s[k] !in stops
    ensures PrefixWithout(s, stops) == |s|
    decreases |s|
  {
    if s != [] {
      PrefixWithoutNone(s[1..], stops);
    }
  }

  /** A field without braces inside is replaced, then the rest formatted. */
  lemma FieldThen(name: string, b: string, v: Value, ff: FieldFormatter)
    requires BraceFree(name)
    ensures var r := ReplaceField(name, v, ff);
      Format("{" + name + "}" + b, v, ff) ==
        if r.Err? then r
        else if Format(b, v, ff).Err? then Format(b, v, ff)
        else Ok(r.value + Format(b, v, ff).value)
  {
    var t := "{" + name + "}" + b;
    assert t[0] == '{' && t[|name| + 1] == '}';
    assert |name| > 0 ==> t[1] == name[0];
    MatchCloseFlat(t, 1, |name| + 1);
    assert t[1..|name| + 1] == name;
    assert t[|name| + 2..] == b;
  }

  /** A name with no conversion, format spec, attribute or index. */
  predicate PlainName(name: string) {
    BraceFree(name) && forall k :: 0 <= k < |name| ==> name[k] !in {'!', ':', '.', '['}
  }

  lemma ReplacePlainField(name: string, v: Value, ff: FieldFormatter)
    requires PlainName(name)
    ensures ReplaceField(name, v, ff) ==
      if AllDigits(name) then Err(IndexError)
      else if name != "data" then Err(KeyError)
      else Ok(Str(v))
  {
    PrefixWithoutNone(name, {'!', ':'});
    PrefixWithoutNone(name, {'.', '['});
    assert name[..|name|] == name;
    assert name[|name|..] == "";
  }

  /** `{data}` in front of plain text. */
  lemma FormatDataField(b: string, v: Value, ff: FieldFormatter)
    requires BraceFree(b)
    ensures Format("{data}" + b, v, ff) == Ok(Str(v) + b)
  {
    assert "{" + "data" + "}" == "{data}";
    assert !AllDigits("data") by { assert !IsDigit("data"[0]); }
    ReplacePlainField("data", v, ff);
    assert ReplaceField("data", v, ff) == Ok(Str(v));
    FormatBraceFree(b, v, ff);
    FieldThen("data", b, v, ff);
  }

  /** `{data}` between plain text is replaced by `str(data)`. */
  lemma FormatData(a: string, b: string, v: Value, ff: FieldFormatter)
    requires BraceFree(a) && BraceFree(b)
    ensures Format(a + "{data}" + b, v, ff) == Ok(a + Str(v) + b)
  {
    FormatDataField(b, v, ff);
    FormatPrefix(a, "{data}" + b, v, ff);
    assert a + "{data}" + b == a + ("{data}" + b);
    assert a + (Str(v) + b) == a + Str(v) + b;
  }

  /** The default template `{data}` renders `str(data)`. */
  lemma DefaultTemplate(v: Value, ff: FieldFormatter)
    ensures Format("{data}", v, ff) == Ok(Str(v))
  {
    FormatData("", "", v, ff);
    assert "" + "{data}" + "" == "{data}";
    assert "" + Str(v) + "" == Str(v);
  }

  /** Doubled braces are literal braces, not a field. */
  lemma FormatEscapes(a: string, v: Value, ff: FieldFormatter)
    requires BraceFree(a)
    ensures Format("{{" + a + "}}", v, ff) == Ok("{" + a + "}")
  {
    var t := "{{" + a + "}}";
    assert t[2..] == a + "}}";
    assert "}}"[2..] == "";
    assert Format("", v, ff) == Ok("");
    assert "}" + "" == "}";
    assert Format("}}", v, ff) == Ok("}");
    FormatPrefix(a, "}}", v, ff);
    assert "{" + (a + "}") == "{" + a + "}";
  }

  lemma {:induction false} MatchCloseNone(t: string, i: nat, depth: nat)
    requires depth >= 1
    requires forall k :: i <= k < |t| ==> t[k] != '{' && t[k] != '}'
    ensures MatchClose(t, i, depth) == None
    decreases |t| - i
  {
    if i < |t| {
      MatchCloseNone(t, i + 1, depth);
    }
  }

  /** A lone brace after plain text is a ValueError: a `}` not doubled, or a
      `{` that no `}` closes. */
  lemma FormatLoneBrace(a: string, b: string, v: Value, ff: FieldFormatter)
    requires BraceFree(a)
    ensures (b == [] || b[0] != '}') ==> Format(a + "}" + b, v, ff) == Err(ValueError)
    ensures BraceFree(b) ==> Format(a + "{" + b, v, ff) == Err(ValueError)
  {
    var close := "}" + b;
    assert close[0] == '}' && close[1..] == b;
    FormatPrefix(a, close, v, ff);
    assert a + "}" + b == a + close;
    var open := "{" + b;
    assert open[0] == '{' && open[1..] == b;
    if BraceFree(b) {
      MatchCloseNone(open, 1, 1);
    }
    FormatPrefix(a, open, v, ff);
    assert a + "{" + b == a + open;
  }

  /** A field naming another keyword raises KeyError, an empty or numeric
      one IndexError: `data` is the only argument. */
  lemma FormatOtherField(name: string, b: string, v: Value, ff: FieldFormatter)
    requires PlainName(name) && name != "data"
    ensures Format("{" + name + "}" + b, v, ff) == if AllDigits(name) then Err(IndexError) else Err(KeyError)
  {
    ReplacePlainField(name, v, ff);
    FieldThen(name, b, v, ff);
  }

  // ---------------------------------------------------------------------
  // The widget handlers

  /** `_draw_widget_line_item`: the label at the position and `str(value)`
      `data_x_offset` to its right, both in the widget colour. */
  function LineItemOps(env: Env, w: WidgetCfg): Result<seq<DrawOp>> {
    var value :- env.getData(w.dataSource);
    if w.position.None? then Err(KeyError)
    else
      var font := WidgetFont(env, w);
      var color := WidgetColor(env, w);
      Ok([Text(w.position.value, w.labelText.GetOr(""), font, color),
          Text(DataPos(w), Str(value), font, color)])
  }

  /** `main_val, sub_val = value or ("N/A", "N/A")`: a falsy value gives the
      placeholders; a truthy one must unpack into exactly two items. */
  function Unpack2(v: Value): (r: Result<(Value, Value)>)
    ensures r.Ok? <==> Falsy(v) || (v.StrV? && |v.s| == 2) || ((v.ListV? || v.TupleV?) && |v.items| == 2)
    ensures Falsy(v) ==> r == Ok((StrV("N/A"), StrV("N/A")))
    ensures (v.ListV? || v.TupleV?) && |v.items| == 2 ==> r == Ok((v.items[0], v.items[1]))
  {
    if Falsy(v) then Ok((StrV("N/A"), StrV("N/A")))
    else match v
      case StrV(s) => if |s| == 2 then Ok((StrV([s[0]]), StrV([s[1]]))) else Err(ValueError)
      case ListV(xs) => if |xs| == 2 then Ok((xs[0], xs[1])) else Err(ValueError)
      case TupleV(xs) => if |xs| == 2 then Ok((xs[0], xs[1])) else Err(ValueError)
      case _ => Err(TypeError)
  }

  /** `_draw_widget_line_item_with_sub`: label, main value, and
      "(" + sub + ")" `sub_y_offset` (default 20) below the main value in
      `sub_color` (default GRAY) with `sub_font` (default small). */
  function WithSubOps(env: Env, w: WidgetCfg): Result<seq<DrawOp>> {
    var value :- env.getData(w.dataSource);
    var pair :- Unpack2(value);
    if w.position.None? then Err(KeyError)
    else
      var font := WidgetFont(env, w);
      var subFont := FontOf(env.fonts, w.subFont.GetOr("small"));
      var color := WidgetColor(env, w);
      var dataPos := DataPos(w);
      Ok([Text(w.position.value, w.labelText.GetOr(""), font, color),
          Text(dataPos, Str(pair.0), font, color),
          Text(Point(dataPos.x, dataPos.y + w.subYOffset.GetOr(20)), "(" + Str(pair.1) + ")",
               subFont, w.subColor.GetOr("GRAY"))])
  }

  /** `_draw_widget_dynamic_text`: the template (default `{data}`) filled
      with the value. */
  function DynamicTextOps(env: Env, w: WidgetCfg): Result<seq<DrawOp>> {
    var value :- env.getData(w.dataSource);
    var text :- Format(w.template.GetOr("{data}"), value, env.fieldFormat);
    if w.position.None? then Err(KeyError)
    else Ok([Text(w.position.value, text, WidgetFont(env, w), WidgetColor(env, w))])
  }

  /** `_draw_widget_static_text`: `str(value)` alone, no label. */
  function StaticTextOps(env: Env, w: WidgetCfg): Result<seq<DrawOp>> {
    var value :- env.getData(w.dataSource);
    if w.position.None? then Err(KeyError)
    else Ok([Text(w.position.value, Str(value), WidgetFont(env, w), WidgetColor(env, w))])
  }

  /** The widget's `type`, default 'unknown'. */
  function KindOf(w: WidgetCfg): string {
    w.kind.GetOr("unknown")
  }

  /** The tags for which a `_draw_widget_<type>` handler that draws exists. */
  predicate KnownKind(w: WidgetCfg) {
    KindOf(w) in {"line_item", "line_item_with_sub", "dynamic_text", "static_text"}
  }

  /** `getattr(self, "_draw_widget_" + type, self._draw_widget_unknown)`
      applied to the widget; the unknown handler only logs. */
  function WidgetOps(env: Env, w: WidgetCfg): Result<seq<DrawOp>> {
    match KindOf(w)
    case "line_item" => LineItemOps(env, w)
    case "line_item_with_sub" => WithSubOps(env, w)
    case "dynamic_text" => DynamicTextOps(env, w)
    case "static_text" => StaticTextOps(env, w)
    case _ => Ok([])
  }

  /** The widgets drawn in declared order; the first handler that raises
      ends the drawing. */
  function WidgetsOps(env: Env, ws: seq<WidgetCfg>): Result<seq<DrawOp>>
    decreases |ws|
  {
    if ws == [] then Ok([])
    else
      var before :- WidgetsOps(env, ws[..|ws| - 1]);
      var last :- WidgetOps(env, ws[|ws| - 1]);
      Ok(before + last)
  }

  // ---------------------------------------------------------------------
  // The screen

  /** One navigation arrow: the tip at `tipX`, the base `dx` further
      (negative for the right arrow), 8 above and below the bar's middle. */
  function Arrow(tipX: int, dx: int, midY: int, fill: string): DrawOp {
    Polygon([Point(tipX, midY), Point(tipX + dx, midY - 8), Point(tipX + dx, midY + 8)], fill)
  }

  /** `_draw_base_ui`: left arrow then right arrow in `nav_buttons` colour. */
  function BaseUiOps(env: Env): seq<DrawOp> {
    var nav := ColorOr(env.colors, "nav_buttons", "WHITE");
    var mid := env.dims.titleBar / 2;
    [Arrow(10, 16, mid, nav), Arrow(env.dims.width - 10, -16, mid, nav)]
  }

  /** The background, the title bar and the arrows, painted before anything
      else. */
  function FrameOps(env: Env): seq<DrawOp> {
    [NewImage(env.dims.width, env.dims.height, ColorOr(env.colors, "content_background", "BLACK")),
     Rectangle(0, 0, env.dims.width, env.dims.titleBar, ColorOr(env.colors, "title_background", "BLACK"))]
    + BaseUiOps(env)
  }

  const NO_SCREENS: string := "Error: No screens in config.yaml"

  /** `self.screens_config[index]` as Python indexes a list. */
  function ScreenAt(screens: seq<ScreenCfg>, index: int): Result<ScreenCfg> {
    if -|screens| <= index < 0 then Ok(screens[index + |screens|])
    else if 0 <= index < |screens| then Ok(screens[index])
    else Err(IndexError)
  }

  /** The title at x 40, centred vertically in the bar by the large font's
      size, in the screen's colour, else `title_text`, else WHITE. */
  function TitleOp(env: Env, sc: ScreenCfg, large: Font): DrawOp {
    Text(Point(40, (env.dims.titleBar - large.size) / 2), sc.title.GetOr(""), Some(large),
         sc.color.GetOr(ColorOr(env.colors, "title_text", "WHITE")))
  }

  /** `draw_screen(index)`: the display list of the image it returns. */
  function DrawScreenSpec(env: Env, index: int): Result<seq<DrawOp>> {
    if env.screens == [] then
      Ok(FrameOps(env) + [Text(Point(10, 10), NO_SCREENS, FontOf(env.fonts, "medium"), "RED")])
    else
      var sc :- ScreenAt(env.screens, index);
      if "large" !in env.fonts then Err(AttributeError)
      else
        var widgets :- WidgetsOps(env, sc.widgets.GetOr([]));
        Ok(FrameOps(env) + [TitleOp(env, sc, env.fonts["large"])] + widgets)
  }

  // ---------------------------------------------------------------------
  // Properties of the renderer

  /** The two arrows mirror each other about the vertical centre line. */
  lemma ArrowsMirror(env: Env)
    ensures var ops := BaseUiOps(env);
      |ops| == 2 && ops[0].Polygon? && ops[1].Polygon? &&
      |ops[0].points| == 3 && |ops[1].points| == 3 &&
      ops[0].fill == ops[1].fill &&
      forall k :: 0 <= k < 3 ==>
        ops[0].points[k].x + ops[1].points[k].x == env.dims.width &&
        ops[0].points[k].y == ops[1].points[k].y
  {
  }

  /** With no screens the image is the frame and one RED diagnostic at
      (10, 10), whatever the index: the list is never indexed. */
  lemma EmptyConfig(env: Env, index: int)
    requires env.screens == []
    ensures var r := DrawScreenSpec(env, index);
      r.Ok? && |r.value| == 5 && r.value[..4] == FrameOps(env) &&
      r.value[4] == Text(Point(10, 10), NO_SCREENS, FontOf(env.fonts, "medium"), "RED")
  {
  }

  /** Paint order: background, title bar, left arrow, right arrow, title,
      then the widgets in declared order. Drawing fails exactly when the
      index is out of range, the large font is missing or a widget raises. */
  lemma PaintOrder(env: Env, index: int)
    requires env.screens != []
    ensures var r := DrawScreenSpec(env, index);
      r.Ok? <==>
        (-|env.screens| <= index < |env.screens| && "large" in env.fonts &&
         WidgetsOps(env, ScreenAt(env.screens, index).value.widgets.GetOr([])).Ok?)
    ensures var r := DrawScreenSpec(env, index);
      r.Ok? ==>
        var sc := ScreenAt(env.screens, index).value;
        |r.value| >= 5 &&
        r.value[0].NewImage? && r.value[1].Rectangle? &&
        r.value[2] == BaseUiOps(env)[0] && r.value[3] == BaseUiOps(env)[1] &&
        r.value[4] == TitleOp(env, sc, env.fonts["large"]) &&
        r.value[5..] == WidgetsOps(env, sc.widgets.GetOr([])).value
  {
  }

  /** A negative index counts from the end, as Python does. */
  lemma NegativeIndex(screens: seq<ScreenCfg>, index: int)
    requires 0 < -index <= |screens|
    ensures ScreenAt(screens, index) == ScreenAt(screens, index + |screens|)
  {
  }

  /** Widgets append: drawing a list drawing its two halves in turn. */
  lemma {:induction false} WidgetsOpsAppend(env: Env, a: seq<WidgetCfg>, b: seq<WidgetCfg>)
    ensures WidgetsOps(env, a + b) ==
      if WidgetsOps(env, a).Err? then WidgetsOps(env, a)
      else if WidgetsOps(env, b).Err? then WidgetsOps(env, b)
      else Ok(WidgetsOps(env, a).value + WidgetsOps(env, b).value)
    decreases |b|
  {
    if b == [] {
      assert a + b == a;
      if WidgetsOps(env, a).Ok? {
        assert WidgetsOps(env, a).value + [] == WidgetsOps(env, a).value;
      }
    } else {
      var b' := b[..|b| - 1];
      var last := b[|b| - 1];
      assert (a + b)[..|a + b| - 1] == a + b';
      assert (a + b)[|a + b| - 1] == last;
      WidgetsOpsAppend(env, a, b');
      var ra, rb', rl := WidgetsOps(env, a), WidgetsOps(env, b'), WidgetOps(env, last);
      if ra.Ok? && rb'.Ok? && rl.Ok? {
        assert (ra.value + rb'.value) + rl.value == ra.value + (rb'.value + rl.value);
      }
    }
  }

  /** Once a widget raises, the rest of the list is not drawn: the error of
      a prefix is the error of the whole list. */
  lemma {:induction false} WidgetsOpsErrorPrefix(env: Env, ws: seq<WidgetCfg>, j: nat)
    requires j <= |ws| && WidgetsOps(env, ws[..j]).Err?
    ensures WidgetsOps(env, ws) == WidgetsOps(env, ws[..j])
    decreases |ws|
  {
    if j < |ws| {
      var init := ws[..|ws| - 1];
      assert init[..j] == ws[..j];
      WidgetsOpsErrorPrefix(env, init, j);
    } else {
      assert ws[..j] == ws;
    }
  }

  function KnownOnly(ws: seq<WidgetCfg>): (r: seq<WidgetCfg>)
    ensures forall k :: 0 <= k < |r| ==> KnownKind(r[k])
    decreases |ws|
  {
    if ws == [] then []
    else if KnownKind(ws[|ws| - 1]) then KnownOnly(ws[..|ws| - 1]) + [ws[|ws| - 1]]
    else KnownOnly(ws[..|ws| - 1])
  }

  /** A widget of an unknown type draws nothing and does not stop the
      widgets after it: the screen is drawn as if it were not there. */
  lemma {:induction false} UnknownWidgetsIgnored(env: Env, ws: seq<WidgetCfg>)
    ensures WidgetsOps(env, ws) == WidgetsOps(env, KnownOnly(ws))
    decreases |ws|
  {
    if ws != [] {
      var init := ws[..|ws| - 1];
      var w := ws[|ws| - 1];
      UnknownWidgetsIgnored(env, init);
      if KnownKind(w) {
        var r := KnownOnly(init) + [w];
        assert r[..|r| - 1] == KnownOnly(init);
      } else {
        assert WidgetOps(env, w) == Ok([]);
        if WidgetsOps(env, init).Ok? {
          assert WidgetsOps(env, init).value + [] == WidgetsOps(env, init).value;
        }
      }
    }
  }

  /** Label and value share a row and a colour; the value is `str(value)`
      `data_x_offset` (default 140) to the right of the label. */
  lemma LineItemLayout(env: Env, w: WidgetCfg)
    requires w.position.Some? && env.getData(w.dataSource).Ok?
    ensures var r := LineItemOps(env, w);
      var p := w.position.value;
      r.Ok? && |r.value| == 2 && r.value[0].Text? && r.value[1].Text? &&
      r.value[0].at == p && r.value[0].text == w.labelText.GetOr("") &&
      r.value[1].at.y == p.y && r.value[1].at.x - p.x == w.dataXOffset.GetOr(140) &&
      r.value[1].text == Str(env.getData(w.dataSource).value) &&
      r.value[0].fill == r.value[1].fill == WidgetColor(env, w)
  {
  }

  /** A falsy value shows "N/A" with the sub-line "(N/A)", 20 below by
      default. */
  lemma WithSubFalsy(env: Env, w: WidgetCfg)
    requires w.position.Some? && env.getData(w.dataSource).Ok?
    requires Falsy(env.getData(w.dataSource).value)
    ensures var r := WithSubOps(env, w);
      r.Ok? && |r.value| == 3 &&
      r.value[1].Text? && r.value[1].text == "N/A" &&
      r.value[2].Text? && r.value[2].text == "(N/A)" &&
      r.value[2].at == Point(DataPos(w).x, DataPos(w).y + w.subYOffset.GetOr(20)) &&
      r.value[2].fill == w.subColor.GetOr("GRAY")
  {
  }

  /** A sentinel string such as "Error" or "Call Error" cannot be unpacked
      into two values: the sub-value widget raises ValueError. */
  lemma WithSubSentinel(env: Env, w: WidgetCfg, sentinel: string)
    requires sentinel in {"Error", "Call Error", "Not Found"}
    requires env.getData(w.dataSource) == Ok(StrV(sentinel))
    ensures WithSubOps(env, w) == Err(ValueError)
  {
  }

  /** A dynamic text widget with the default template draws what a static
      text widget draws. */
  lemma DynamicDefaultIsStatic(env: Env, w: WidgetCfg)
    requires w.template.None?
    ensures DynamicTextOps(env, w) == StaticTextOps(env, w)
  {
    var v := env.getData(w.dataSource);
    if v.Ok? {
      DefaultTemplate(v.value, env.fieldFormat);
    }
  }

  // ---------------------------------------------------------------------
  // The drawer, as the source builds it: a canvas the handlers draw on

  /** The `ImageDraw` canvas over a new image: the calls made on it so far. */
  class Canvas {
    var ops: seq<DrawOp>

    /** `Image.new("RGB", (width, height), color)` and `ImageDraw.Draw`. */
    constructor (width: int, height: int, color: string)
      ensures ops == [NewImage(width, height, color)]
    {
      ops := [NewImage(width, height, color)];
    }

    method Rectangle(x0: int, y0: int, x1: int, y1: int, fill: string)
      modifies this
      ensures ops == old(ops) + [DrawOp.Rectangle(x0, y0, x1, y1, fill)]
    {
      ops := ops + [DrawOp.Rectangle(x0, y0, x1, y1, fill)];
    }

    method Polygon(points: seq<Point>, fill: string)
      modifies this
      ensures ops == old(ops) + [DrawOp.Polygon(points, fill)]
    {
      ops := ops + [DrawOp.Polygon(points, fill)];
    }

    method Text(at: Point, text: string, font: Option<Font>, fill: string)
      modifies this
      ensures ops == old(ops) + [DrawOp.Text(at, text, font, fill)]
    {
      ops := ops + [DrawOp.Text(at, text, font, fill)];
    }
  }

  lemma AppendAssoc<T>(a: seq<T>, b: seq<T>, c: seq<T>)
    ensures a + b + c == a + (b + c)
  {
  }

  /** What a handler leaves on the canvas and raises: its operations on
      success, nothing and the exception on failure. */
  function Outcome(r: Result<seq<DrawOp>>, before: seq<DrawOp>): (Option<PyError>, seq<DrawOp>) {
    if r.Ok? then (None, before + r.value) else (Some(r.error), before)
  }

  class UIDrawer {
    const colors: map<string, string>
    const screensConfig: seq<ScreenCfg>
    const fonts: map<string, Font>
    const getData: DataRef -> Result<Value>
    const dims: Dims
    const fieldFormat: FieldFormatter

    function Environment(): Env {
      Env(dims, colors, screensConfig, fonts, getData, fieldFormat)
    }

    /** `UIDrawer(config, fonts, get_data)`; the constants and the
        format-spec collaborator complete the environment. */
    constructor (config: Config, fonts: map<string, Font>, getData: DataRef -> Result<Value>,
                 dims: Dims, fieldFormat: FieldFormatter)
      ensures Environment() == Env(dims, config.colors, config.screens, fonts, getData, fieldFormat)
    {
      this.colors := config.colors;
      this.screensConfig := config.screens;
      this.fonts := fonts;
      this.getData := getData;
      this.dims := dims;
      this.fieldFormat := fieldFormat;
    }

    method DrawWidgetLineItem(draw: Canvas, config: WidgetCfg) returns (err: Option<PyError>)
      modifies draw
      ensures (err, draw.ops) == Outcome(LineItemOps(Environment(), config), old(draw.ops))
    {
      var color := WidgetColor(Environment(), config);
      var value := getData(config.dataSource);
      if value.Err? {
        return Some(value.error);
      }
      var font := WidgetFont(Environment(), config);
      if config.position.None? {
        return Some(KeyError);
      }
      draw.Text(config.position.value, config.labelText.GetOr(""), font, color);
      draw.Text(DataPos(config), Str(value.value), font, color);
      assert draw.ops == old(draw.ops) + LineItemOps(Environment(), config).value;
      err := None;
    }

    method DrawWidgetLineItemWithSub(draw: Canvas, config: WidgetCfg) returns (err: Option<PyError>)
      modifies draw
      ensures (err, draw.ops) == Outcome(WithSubOps(Environment(), config), old(draw.ops))
    {
      var color := WidgetColor(Environment(), config);
      var value := getData(config.dataSource);
      if value.Err? {
        return Some(value.error);
      }
      var pair := Unpack2(value.value);
      if pair.Err? {
        return Some(pair.error);
      }
      var font := WidgetFont(Environment(), config);
      var subFont := FontOf(fonts, config.subFont.GetOr("small"));
      if config.position.None? {
        return Some(KeyError);
      }
      draw.Text(config.position.value, config.labelText.GetOr(""), font, color);
      var dataPos := DataPos(config);
      draw.Text(dataPos, Str(pair.value.0), font, color);
      var subPos := Point(dataPos.x, dataPos.y + config.subYOffset.GetOr(20));
      draw.Text(subPos, "(" + Str(pair.value.1) + ")", subFont, config.subColor.GetOr("GRAY"));
      assert draw.ops == old(draw.ops) + WithSubOps(Environment(), config).value;
      err := None;
    }

    method DrawWidgetDynamicText(draw: Canvas, config: WidgetCfg) returns (err: Option<PyError>)
      modifies draw
      ensures (err, draw.ops) == Outcome(DynamicTextOps(Environment(), config), old(draw.ops))
    {
      var color := WidgetColor(Environment(), config);
      var value := getData(config.dataSource);
      if value.Err? {
        return Some(value.error);
      }
      var text := Format(config.template.GetOr("{data}"), value.value, fieldFormat);
      if text.Err? {
        return Some(text.error);
      }
      if config.position.None? {
        return Some(KeyError);
      }
      draw.Text(config.position.value, text.value, WidgetFont(Environment(), config), color);
      err := None;
    }

    method DrawWidgetStaticText(draw: Canvas, config: WidgetCfg) returns (err: Option<PyError>)
      modifies draw
      ensures (err, draw.ops) == Outcome(StaticTextOps(Environment(), config), old(draw.ops))
    {
      var color := WidgetColor(Environment(), config);
      var value := getData(config.dataSource);
      if value.Err? {
        return Some(value.error);
      }
      if config.position.None? {
        return Some(KeyError);
      }
      draw.Text(config.position.value, Str(value.value), WidgetFont(Environment(), config), color);
      err := None;
    }

    /** `_draw_widget_unknown` only logs the type; the canvas is untouched. */
    method DrawWidgetUnknown(draw: Canvas, config: WidgetCfg) returns (err: Option<PyError>)
      ensures (err, draw.ops) == Outcome(WidgetOps(Environment(), config.(kind := Some("unknown"))), draw.ops)
    {
      err := None;
      assert draw.ops + [] == draw.ops;
    }

    /** The `getattr` dispatch on `"_draw_widget_" + type`. */
    method DrawWidget(draw: Canvas, config: WidgetCfg) returns (err: Option<PyError>)
      modifies draw
      ensures (err, draw.ops) == Outcome(WidgetOps(Environment(), config), old(draw.ops))
    {
      match KindOf(config)
      case "line_item" => err := DrawWidgetLineItem(draw, config);
      case "line_item_with_sub" => err := DrawWidgetLineItemWithSub(draw, config);
      case "dynamic_text" => err := DrawWidgetDynamicText(draw, config);
      case "static_text" => err := DrawWidgetStaticText(draw, config);
      case _ =>
        err := DrawWidgetUnknown(draw, config);
        assert draw.ops == old(draw.ops) + [];
    }

    method DrawBaseUi(draw: Canvas)
      modifies draw
      ensures draw.ops == old(draw.ops) + BaseUiOps(Environment())
    {
      var navColor := ColorOr(colors, "nav_buttons", "WHITE");
      var arrowYCenter := dims.titleBar / 2;
      var arrowHalfHeight := 8;
      var arrowWidth := 16;
      var leftTipX := 10;
      draw.Polygon([Point(leftTipX, arrowYCenter),
                    Point(leftTipX + arrowWidth, arrowYCenter - arrowHalfHeight),
                    Point(leftTipX + arrowWidth, arrowYCenter + arrowHalfHeight)], navColor);
      var rightTipX := dims.width - 10;
      draw.Polygon([Point(rightTipX, arrowYCenter),
                    Point(rightTipX - arrowWidth, arrowYCenter - arrowHalfHeight),
                    Point(rightTipX - arrowWidth, arrowYCenter + arrowHalfHeight)], navColor);
    }

    /** The loop of `draw_screen` over the screen's widgets. When a handler
        raises, the canvas keeps what the widgets before it drew; the
        exception discards the image. */
    method DrawWidgets(draw: Canvas, widgets: seq<WidgetCfg>) returns (err: Option<PyError>)
      modifies draw
      ensures var r := WidgetsOps(Environment(), widgets);
        (r.Ok? ==> err.None? && draw.ops == old(draw.ops) + r.value) &&
        (r.Err? ==> err == Some(r.error))
    {
      var i := 0;
      while i < |widgets|
        invariant 0 <= i <= |widgets|
        invariant WidgetsOps(Environment(), widgets[..i]).Ok?
        invariant draw.ops == old(draw.ops) + WidgetsOps(Environment(), widgets[..i]).value
      {
        err := DrawWidget(draw, widgets[i]);
        assert widgets[..i + 1][..i] == widgets[..i];
        assert widgets[..i + 1][i] == widgets[i];
        if err.Some? {
          WidgetsOpsErrorPrefix(Environment(), widgets, i + 1);
          return;
        }
        AppendAssoc(old(draw.ops), WidgetsOps(Environment(), widgets[..i]).value, WidgetOps(Environment(), widgets[i]).value);
        i := i + 1;
      }
      assert widgets[..i] == widgets;
      err := None;
    }

    /** `draw_screen`: the display list of the returned image, or the
        exception it raises. */
    method DrawScreen(currentScreenIndex: int) returns (r: Result<seq<DrawOp>>)
      ensures r == DrawScreenSpec(Environment(), currentScreenIndex)
    {
      var contentBg := ColorOr(colors, "content_background", "BLACK");
      var titleBg := ColorOr(colors, "title_background", "BLACK");
      var draw := new Canvas(dims.width, dims.height, contentBg);
      draw.Rectangle(0, 0, dims.width, dims.titleBar, titleBg);
      DrawBaseUi(draw);
      assert draw.ops == FrameOps(Environment());

      if screensConfig == [] {
        draw.Text(Point(10, 10), NO_SCREENS, FontOf(fonts, "medium"), "RED");
        return Ok(draw.ops);
      }

      var screenConfig := ScreenAt(screensConfig, currentScreenIndex);
      if screenConfig.Err? {
        return Err(screenConfig.error);
      }
      if "large" !in fonts {
        return Err(AttributeError);
      }
      draw.Text(Point(40, (dims.titleBar - fonts["large"].size) / 2), screenConfig.value.title.GetOr(""),
                Some(fonts["large"]), screenConfig.value.color.GetOr(ColorOr(colors, "title_text", "WHITE")));
      ghost var head := draw.ops;
      assert head == FrameOps(Environment()) + [TitleOp(Environment(), screenConfig.value, fonts["large"])];
      var err := DrawWidgets(draw, screenConfig.value.widgets.GetOr([]));
      if err.Some? {
        return Err(err.value);
      }
      return Ok(draw.ops);
    }
  }
}

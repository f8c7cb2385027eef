/** The developer tool that renders every configured screen to a PNG: its
    own data fetcher and the file name it derives for each screen. */
module Screenshots {
  import opened PyValues
  import opened Ui
  import Monitor

  // ---------------------------------------------------------------------
  // The data fetcher of the tool

  /** `get_data` of the tool: None for a falsy source; a string is the
      name, a dictionary's `name` entry the name (with its `args`, default
      []), any other value has no `.get` (AttributeError); a name that is
      not a string makes `getattr` raise TypeError; a name that is not a
      callable gives "Not Found", a raising call "Call Error". */
  function GetDataGen(ref: DataRef, registry: Registry): Result<Value> {
    if RefFalsy(ref) then Ok(NoneV)
    else
      var name :- match ref
        case RefValue(StrV(s)) => Ok(StrV(s))
        case RefDict(e) => Ok(if "name" in e then e["name"] else NoneV)
        case RefValue(_) => Err(AttributeError);
      var args := if ref.RefDict? && "args" in ref.entries then ref.entries["args"] else ListV([]);
      if !name.StrV? then Err(TypeError)
      else if name.s !in registry || registry[name.s].NotCallable? then Ok(StrV("Not Found"))
      else match Invoke(registry[name.s].call, args)
        case None => Ok(StrV("Call Error"))
        case Some(v) => Ok(v)
  }

  /** The cases of the tool's `get_data` for a data source given by name:
      None when falsy, "Not Found" when the name is not a callable of
      system_info, "Call Error" when the call raises, else its result. */
  lemma GetDataGenCases(ref: DataRef, registry: Registry)
    ensures RefFalsy(ref) ==> GetDataGen(ref, registry) == Ok(NoneV)
    ensures forall name :: ref == RefValue(StrV(name)) && name != "" && (name !in registry || registry[name].NotCallable?) ==>
              GetDataGen(ref, registry) == Ok(StrV("Not Found"))
    ensures forall name :: ref == RefValue(StrV(name)) && name != "" && name in registry && registry[name].Callable? ==>
              GetDataGen(ref, registry) ==
                (match registry[name].call([]) case Raised => Ok(StrV("Call Error")) case Returned(v) => Ok(v))
  {
    forall name | ref == RefValue(StrV(name)) && name != "" && name in registry && registry[name].Callable?
      ensures GetDataGen(ref, registry) ==
                (match registry[name].call([]) case Raised => Ok(StrV("Call Error")) case Returned(v) => Ok(v))
    {
      assert Spread(ListV([])) == Some([]);
    }
  }

  /** How the tool's fetcher relates to the monitor's: the same for a falsy
      source and whenever a callable is found; "Not Found" where the
      monitor says "Error" for a named but missing function; and it raises
      where the monitor reports "Error" for a source without a name. */
  lemma GetDataAgreement(ref: DataRef, registry: Registry)
    ensures RefFalsy(ref) ==> GetDataGen(ref, registry) == Monitor.GetData(ref, registry) == Ok(NoneV)
    ensures forall name :: ref == RefValue(StrV(name)) && name != "" ==>
      if name in registry && registry[name].Callable? then
        GetDataGen(ref, registry) == Monitor.GetData(ref, registry)
      else
        GetDataGen(ref, registry) == Ok(StrV("Not Found")) && Monitor.GetData(ref, registry) == Ok(StrV("Error"))
    ensures ref.RefDict? && "name" in ref.entries && ref.entries["name"].StrV? && ref.entries["name"].s != "" ==>
      var name := ref.entries["name"].s;
      if name in registry && registry[name].Callable? then
        GetDataGen(ref, registry) == Monitor.GetData(ref, registry)
      else
        GetDataGen(ref, registry) == Ok(StrV("Not Found")) && Monitor.GetData(ref, registry) == Ok(StrV("Error"))
    ensures ref.RefDict? && ref.entries != map[] && "name" !in ref.entries ==>
      GetDataGen(ref, registry) == Err(TypeError) && Monitor.GetData(ref, registry) == Ok(StrV("Error"))
    ensures ref.RefValue? && !ref.v.StrV? && !Falsy(ref.v) ==>
      GetDataGen(ref, registry) == Err(AttributeError) && Monitor.GetData(ref, registry) == Ok(StrV("Error"))
  {
    if ref.RefDict? && "name" in ref.entries {
      assert !RefFalsy(ref);
    }
  }

  // ---------------------------------------------------------------------
  // File names

  /** The index of the last occurrence of c in s, -1 when there is none
      (`str.rfind`). */
  function LastIndexOf(s: string, c: char): (r: int)
    ensures -1 <= r < |s|
    ensures r >= 0 ==> s[r] == c
    ensures forall j :: r < j < |s| ==> s[j] != c
    decreases |s|
  {
    if s == [] then -1
    else if s[|s| - 1] == c then |s| - 1
    else LastIndexOf(s[..|s| - 1], c)
  }

  /** `PurePosixPath(p).name`: the last component, ignoring empty and "."
      components. */
  function PathName(p: string): string
    decreases |p|
  {
    var k := LastIndexOf(p, '/');
    var last := p[k + 1..];
    if last != "" && last != "." then last
    else if k < 0 then ""
    else PathName(p[..k])
  }

  /** `PurePath.stem`: the name without its final suffix; a leading dot or
      a trailing dot is not a suffix. */
  function Stem(name: string): string {
    var i := LastIndexOf(name, '.');
    if 0 < i < |name| - 1 then name[..i] else name
  }

  function LowerAscii(c: char): char {
    if 'A' <= c <= 'Z' then (c as int - 'A' as int + 'a' as int) as char else c
  }

  /** `title.replace(' ', '_').lower()`. */
  function Slug(title: string): (r: string)
    ensures |r| == |title|
  {
    seq(|title|, k requires 0 <= k < |title| => LowerAscii(if title[k] == ' ' then '_' else title[k]))
  }

  /** The base name of screen i's PNG: a hero screen is named after its
      image (default "hero_<i>"), any other after its title (default
      "screen_<i>"). */
  function ScreenLabel(i: nat, sc: ScreenCfg): string {
    if sc.kind.GetOr("standard") == "hero" then Stem(PathName(sc.imagePath.GetOr("hero_" + NatToString(i))))
    else Slug(sc.title.GetOr("screen_" + NatToString(i)))
  }

  /** `f"screen_{i}_{name}.png"`. */
  function ScreenFilename(i: nat, sc: ScreenCfg): string {
    "screen_" + NatToString(i) + "_" + ScreenLabel(i, sc) + ".png"
  }

  /** The name of a path whose last component is a plain file name is
      that file name, whatever directory precedes it. */
  lemma PathNameOfFile(dir: string, file: string)
    requires '/' !in file && file != "" && file != "."
    ensures PathName(dir + "/" + file) == file
  {
    var p := dir + "/" + file;
    assert p[|dir|] == '/';
    assert forall j :: |dir| < j < |p| ==> p[j] == file[j - |dir| - 1];
    assert LastIndexOf(p, '/') == |dir|;
    assert p[|dir| + 1..] == file;
  }

  /** The stem of "base.ext" is base when ext is a single nonempty suffix. */
  lemma StemOfFile(base: string, ext: string)
    requires base != "" && '.' !in ext && ext != ""
    ensures Stem(base + "." + ext) == base
  {
    var file := base + "." + ext;
    assert file[|base|] == '.';
    assert forall j :: |base| < j < |file| ==> file[j] == ext[j - |base| - 1];
    assert LastIndexOf(file, '.') == |base|;
    assert file[..|base|] == base;
  }

  /** A hero screen whose image lies at dir/base.ext is saved as
      screen_<i>_base.png. */
  lemma HeroFilename(i: nat, sc: ScreenCfg, dir: string, base: string, ext: string)
    requires sc.kind == Some("hero") && sc.imagePath == Some(dir + "/" + (base + "." + ext))
    requires base != "" && '/' !in base && '/' !in ext && '.' !in ext && ext != ""
    ensures ScreenFilename(i, sc) == "screen_" + NatToString(i) + "_" + base + ".png"
  {
    var file := base + "." + ext;
    assert file[|base|] == '.';
    assert '/' !in file by {
      forall k | 0 <= k < |file| ensures file[k] != '/' {
        if k > |base| { assert file[k] == ext[k - |base| - 1]; }
      }
    }
    PathNameOfFile(dir, file);
    StemOfFile(base, ext);
  }

  /** A title becomes a file name with no spaces and no capital letters,
      one character per character. */
  lemma SlugFacts(title: string)
    ensures forall k :: 0 <= k < |title| ==>
      Slug(title)[k] != ' ' && !('A' <= Slug(title)[k] <= 'Z') &&
      (title[k] == ' ' ==> Slug(title)[k] == '_') &&
      ('a' <= title[k] <= 'z' || IsDigit(title[k]) ==> Slug(title)[k] == title[k])
  {
  }

  /** A screen without `type`, `title` or `image_path` is a standard
      screen named "screen_<i>"; a hero screen without an image is named
      "hero_<i>". */
  lemma DefaultFilenames(i: nat, sc: ScreenCfg)
    requires sc.title.None? && sc.imagePath.None?
    ensures sc.kind.None? ==>
      ScreenFilename(i, sc) == "screen_" + NatToString(i) + "_" + ("screen_" + NatToString(i)) + ".png"
    ensures sc.kind == Some("hero") ==>
      ScreenFilename(i, sc) == "screen_" + NatToString(i) + "_" + ("hero_" + NatToString(i)) + ".png"
  {
    var d := NatToString(i);
    var title := "screen_" + d;
    forall k | 0 <= k < |title| ensures Slug(title)[k] == title[k] {
      if k >= 7 { assert title[k] == d[k - 7]; }
    }
    assert Slug(title) == title;
    var hero := "hero_" + d;
    forall k | 0 <= k < |hero| ensures hero[k] != '/' && hero[k] != '.' {
      if k >= 5 { assert hero[k] == d[k - 5]; }
    }
    assert LastIndexOf(hero, '/') == -1;
    assert hero[0..] == hero;
    assert PathName(hero) == hero;
    assert LastIndexOf(hero, '.') == -1;
  }

  /** A name "screen_<d>_<label>.png" determines its digits d. */
  lemma NamesDiffer(d1: string, d2: string, l1: string, l2: string)
    requires AllDigits(d1) && AllDigits(d2) && d1 != d2
    ensures "screen_" + d1 + "_" + l1 + ".png" != "screen_" + d2 + "_" + l2 + ".png"
  {
    var s1, s2 := "screen_" + d1 + "_" + l1 + ".png", "screen_" + d2 + "_" + l2 + ".png";
    assert forall k :: 0 <= k < |d1| ==> s1[7 + k] == d1[k];
    assert forall k :: 0 <= k < |d2| ==> s2[7 + k] == d2[k];
    assert s1[7 + |d1|] == '_' && s2[7 + |d2|] == '_';
    if |d1| < |d2| {
      assert s2[7 + |d1|] == d2[|d1|];
    } else if |d2| < |d1| {
      assert s1[7 + |d2|] == d1[|d2|];
    } else {
      var k :| 0 <= k < |d1| && d1[k] != d2[k];
      assert s1[7 + k] != s2[7 + k];
    }
  }

  /** Two different screens never write the same file: the index is part
      of the name and can be read back from it, as the digits between
      "screen_" and the next underscore. */
  lemma FilenamesDistinct(i: nat, j: nat, a: ScreenCfg, b: ScreenCfg)
    requires i != j
    ensures ScreenFilename(i, a) != ScreenFilename(j, b)
  {
    if NatToString(i) == NatToString(j) {
      NatToStringInjective(i, j);
    }
    NamesDiffer(NatToString(i), NatToString(j), ScreenLabel(i, a), ScreenLabel(j, b));
  }

  // ---------------------------------------------------------------------
  // The generation loop

  /** The tool's fetcher as the drawer calls it. */
  function Fetcher(registry: Registry): DataRef -> Result<Value> {
    r => GetDataGen(r, registry)
  }

  /** `generate()` after the configuration and fonts are loaded: one image
      per screen, in index order, each under its file name. The returned
      pairs are the files written; drawing a screen can raise, which ends
      the run. */
  method Generate(config: Config, fonts: map<string, Font>, registry: Registry, dims: Dims,
                  fieldFormat: FieldFormatter)
    returns (saved: seq<(string, seq<DrawOp>)>, err: Option<PyError>)
    ensures var env := Env(dims, config.colors, config.screens, fonts, Fetcher(registry), fieldFormat);
      |saved| <= |config.screens| &&
      (forall k :: 0 <= k < |saved| ==>
         DrawScreenSpec(env, k).Ok? && saved[k] == (ScreenFilename(k, config.screens[k]), DrawScreenSpec(env, k).value)) &&
      (err.None? ==> |saved| == |config.screens|) &&
      (err.Some? ==> |saved| < |config.screens| && DrawScreenSpec(env, |saved|) == Err(err.value))
  {
    var uiDrawer := new UIDrawer(config, fonts, Fetcher(registry), dims, fieldFormat);
    var screensConfig := config.screens;
    saved := [];
    var i := 0;
    while i < |screensConfig|
      invariant 0 <= i <= |screensConfig| && |saved| == i
      invariant forall k :: 0 <= k < i ==>
        DrawScreenSpec(uiDrawer.Environment(), k).Ok? &&
        saved[k] == (ScreenFilename(k, screensConfig[k]), DrawScreenSpec(uiDrawer.Environment(), k).value)
    {
      var filename := ScreenFilename(i, screensConfig[i]);
      var image := uiDrawer.DrawScreen(i);
      if image.Err? {
        return saved, Some(image.error);
      }
      saved := saved + [(filename, image.value)];
      i := i + 1;
    }
    err := None;
  }
}

/**
 * `extract_brand_data` of the Brandfetch script: copies the colours, picks the
 * title and body fonts, chooses one source per logo variant (SVG over PNG) and
 * lists the industry names.
 */
module Brandfetch {
  import opened Wrappers

  // ---------------------------------------------------------------- input

  datatype ColorEntry = ColorEntry(hex: Option<string>, kind: Option<string>, brightness: Option<int>)
  datatype Font = Font(kind: Option<string>, name: Option<string>)
  datatype Format = Format(format: Option<string>, src: Option<string>)
  datatype Logo = Logo(kind: Field, theme: Field, formats: seq<Format>)
  datatype IndustryIn = IndustryIn(name: Option<string>)
  /** The `company` object; an absent one reads as `{}`. */
  datatype Company = Company(foundedYear: Option<int>, numberOfEmployees: Option<int>,
                             industries: seq<IndustryIn>)

  /** A Brandfetch response; absent lists are empty. */
  datatype Response = Response(
    colors: seq<ColorEntry>,
    fonts: seq<Font>,
    logos: seq<Logo>,
    description: Option<string>,
    company: Company,
    qualityScore: Option<real>)

  // ---------------------------------------------------------------- output

  datatype BrandRecord = BrandRecord(
    colors: seq<ColorEntry>,
    fontTitle: Option<string>,
    fontBody: Option<string>,
    logos: map<string, Option<string>>,
    description: Option<string>,
    founded: Option<int>,
    employees: Option<int>,
    location: Option<string>,
    industries: seq<Option<string>>,
    qualityScore: Option<real>)

  // ---------------------------------------------------------------- fonts

  /**
   * The name of the last font of the given type, or `None` when there is none
   * (a matching font without a name also gives `None`).
   */
  function LastFontName(fonts: seq<Font>, kind: string): (r: Option<string>)
    ensures (forall i :: 0 <= i < |fonts| ==> fonts[i].kind != Some(kind)) ==> r == None
    ensures forall i :: 0 <= i < |fonts| && fonts[i].kind == Some(kind)
                     && (forall j :: i < j < |fonts| ==> fonts[j].kind != Some(kind))
                     ==> r == fonts[i].name
  {
    if fonts == [] then None
    else if fonts[|fonts| - 1].kind == Some(kind) then fonts[|fonts| - 1].name
    else
      var init := fonts[..|fonts| - 1];
      assert forall i :: 0 <= i < |init| ==> init[i] == fonts[i];
      LastFontName(init, kind)
  }

  // ---------------------------------------------------------------- logos

  /** `f"{type}_{theme}"` with defaults "logo" and "light": the type, an underscore, then the theme. */
  function LogoKey(l: Logo): (k: string)
    ensures l.theme.Absent? ==> k == l.kind.Show("logo") + "_light"
    ensures l.theme.Str? ==> k == l.kind.Show("logo") + "_" + l.theme.value
  {
    l.kind.Show("logo") + "_" + l.theme.Show("light")
  }

  predicate IsFormat(f: Format, name: string) {
    f.format == Some(name)
  }

  /**
   * What the format loop leaves for one logo: the first SVG's `src` if there
   * is an SVG, otherwise the last PNG's `src`, otherwise nothing is written.
   */
  function ChosenSource(fs: seq<Format>): (r: Option<Option<string>>)
    ensures r.Some? ==> exists i :: 0 <= i < |fs| && (IsFormat(fs[i], "svg") || IsFormat(fs[i], "png")) && r.value == fs[i].src
  {
    var svg := FirstOf(fs, "svg");
    if svg.Some? then svg else LastOf(fs, "png")
  }

  /** The `src` of the first format with the given name. */
  function FirstOf(fs: seq<Format>, name: string): (r: Option<Option<string>>)
    ensures r.Some? ==> exists i :: 0 <= i < |fs| && IsFormat(fs[i], name) && r.value == fs[i].src
  {
    if fs == [] then None
    else if IsFormat(fs[0], name) then Some(fs[0].src)
    else FirstOf(fs[1..], name)
  }

  /** The `src` of the last format with the given name. */
  function LastOf(fs: seq<Format>, name: string): (r: Option<Option<string>>)
    ensures r.Some? ==> exists i :: 0 <= i < |fs| && IsFormat(fs[i], name) && r.value == fs[i].src
  {
    if fs == [] then None
    else if IsFormat(fs[|fs| - 1], name) then Some(fs[|fs| - 1].src)
    else LastOf(fs[..|fs| - 1], name)
  }

  /** `FirstOf` finds nothing exactly when no format has the name. */
  lemma {:induction false} FirstOfNone(fs: seq<Format>, name: string)
    ensures FirstOf(fs, name) == None <==> forall i :: 0 <= i < |fs| ==> !IsFormat(fs[i], name)
  {
    if fs != [] {
      FirstOfNone(fs[1..], name);
      assert forall i :: 1 <= i < |fs| ==> fs[1..][i - 1] == fs[i];
    }
  }

  /** `FirstOf` returns the `src` of the first format with the name. */
  lemma {:induction false} FirstOfFirst(fs: seq<Format>, name: string, i: nat)
    requires i < |fs| && IsFormat(fs[i], name)
    requires forall j :: 0 <= j < i ==> !IsFormat(fs[j], name)
    ensures FirstOf(fs, name) == Some(fs[i].src)
  {
    if i > 0 {
      assert !IsFormat(fs[0], name);
      assert forall j :: 0 <= j < i - 1 ==> fs[1..][j] == fs[j + 1];
      FirstOfFirst(fs[1..], name, i - 1);
    }
  }

  /** `LastOf` finds nothing exactly when no format has the name. */
  lemma {:induction false} LastOfNone(fs: seq<Format>, name: string)
    ensures LastOf(fs, name) == None <==> forall i :: 0 <= i < |fs| ==> !IsFormat(fs[i], name)
  {
    if fs != [] {
      var init := fs[..|fs| - 1];
      LastOfNone(init, name);
      assert forall i :: 0 <= i < |init| ==> init[i] == fs[i];
    }
  }

  /** `LastOf` returns the `src` of the last format with the name. */
  lemma {:induction false} LastOfLast(fs: seq<Format>, name: string, i: nat)
    requires i < |fs| && IsFormat(fs[i], name)
    requires forall j :: i < j < |fs| ==> !IsFormat(fs[j], name)
    ensures LastOf(fs, name) == Some(fs[i].src)
  {
    if i < |fs| - 1 {
      var init := fs[..|fs| - 1];
      assert !IsFormat(fs[|fs| - 1], name);
      assert forall j :: i < j < |init| ==> init[j] == fs[j];
      LastOfLast(init, name, i);
    }
  }

  /** An SVG wins: the first one's `src` is chosen. */
  lemma ChosenSvg(fs: seq<Format>, i: nat)
    requires i < |fs| && IsFormat(fs[i], "svg")
    requires forall j :: 0 <= j < i ==> !IsFormat(fs[j], "svg")
    ensures ChosenSource(fs) == Some(fs[i].src)
  {
    FirstOfFirst(fs, "svg", i);
  }

  /** With no SVG, the last PNG's `src` is chosen. */
  lemma ChosenPng(fs: seq<Format>, i: nat)
    requires forall j :: 0 <= j < |fs| ==> !IsFormat(fs[j], "svg")
    requires i < |fs| && IsFormat(fs[i], "png")
    requires forall j :: i < j < |fs| ==> !IsFormat(fs[j], "png")
    ensures ChosenSource(fs) == Some(fs[i].src)
  {
    FirstOfNone(fs, "svg");
    LastOfLast(fs, "png", i);
  }

  /** Nothing is chosen exactly when the logo has neither an SVG nor a PNG. */
  lemma ChosenNone(fs: seq<Format>)
    ensures ChosenSource(fs) == None <==> forall i :: 0 <= i < |fs| ==> !IsFormat(fs[i], "svg") && !IsFormat(fs[i], "png")
  {
    FirstOfNone(fs, "svg");
    LastOfNone(fs, "png");
  }

  /** The `logos` dict after the loop over logos; a logo with no usable format writes nothing. */
  function LogoMap(ls: seq<Logo>): (m: map<string, Option<string>>)
    ensures |m| <= |ls|
  {
    if ls == [] then map[]
    else
      var prev := LogoMap(ls[..|ls| - 1]);
      var last := ls[|ls| - 1];
      match ChosenSource(last.formats)
      case Some(src) => prev[LogoKey(last) := src]
      case None => prev
  }

  /** A key is present exactly when some logo with that key has an SVG or a PNG. */
  lemma {:induction false} LogoMapKeys(ls: seq<Logo>, k: string)
    ensures k in LogoMap(ls) <==>
      exists i :: 0 <= i < |ls| && LogoKey(ls[i]) == k && ChosenSource(ls[i].formats).Some?
  {
    if ls != [] {
      var init := ls[..|ls| - 1];
      LogoMapKeys(init, k);
      assert forall i :: 0 <= i < |init| ==> init[i] == ls[i];
    }
  }

  /** The last logo with a usable format wins its key; later logos without one do not erase it. */
  lemma {:induction false} LogoMapLastWins(ls: seq<Logo>, i: nat)
    requires i < |ls| && ChosenSource(ls[i].formats).Some?
    requires forall j :: i < j < |ls| && LogoKey(ls[j]) == LogoKey(ls[i]) ==>
      ChosenSource(ls[j].formats) == None
    ensures LogoKey(ls[i]) in LogoMap(ls)
    ensures LogoMap(ls)[LogoKey(ls[i])] == ChosenSource(ls[i].formats).value
  {
    if i < |ls| - 1 {
      var init := ls[..|ls| - 1];
      assert init[i] == ls[i];
      LogoMapLastWins(init, i);
    }
  }

  // ---------------------------------------------------------------- industries

  function IndustryNames(inds: seq<IndustryIn>): (r: seq<Option<string>>)
    ensures |r| == |inds| && forall i :: 0 <= i < |inds| ==> r[i] == inds[i].name
  {
    seq(|inds|, i requires 0 <= i < |inds| => inds[i].name)
  }

  // ---------------------------------------------------------------- the loops

  /** The append loop copying `hex`, `type` and `brightness` of each colour. */
  method CopyColors(cs: seq<ColorEntry>) returns (colors: seq<ColorEntry>)
    ensures |colors| == |cs|
    ensures forall i :: 0 <= i < |cs| ==> colors[i] == ColorEntry(cs[i].hex, cs[i].kind, cs[i].brightness)
  {
    colors := [];
    var i := 0;
    while i < |cs|
      invariant 0 <= i <= |cs|
      invariant colors == cs[..i]
    {
      var c := cs[i];
      colors := colors + [ColorEntry(c.hex, c.kind, c.brightness)];
      i := i + 1;
    }
  }

  /** The font loop: each matching font overwrites the previous choice. */
  method PickFonts(fonts: seq<Font>) returns (fontTitle: Option<string>, fontBody: Option<string>)
    ensures fontTitle == LastFontName(fonts, "title")
    ensures fontBody == LastFontName(fonts, "body")
  {
    fontTitle, fontBody := None, None;
    var i := 0;
    while i < |fonts|
      invariant 0 <= i <= |fonts|
      invariant fontTitle == LastFontName(fonts[..i], "title")
      invariant fontBody == LastFontName(fonts[..i], "body")
    {
      var font := fonts[i];
      if font.kind == Some("title") {
        fontTitle := font.name;
      } else if font.kind == Some("body") {
        fontBody := font.name;
      }
      i := i + 1;
      assert fonts[..i][..i - 1] == fonts[..i - 1];
    }
    assert fonts[..i] == fonts;
  }

  /** The inner loop over one logo's formats, with its early exit on SVG. */
  method ApplyFormats(logos: map<string, Option<string>>, key: string, fs: seq<Format>)
    returns (out: map<string, Option<string>>)
    ensures out == match ChosenSource(fs) case Some(src) => logos[key := src] case None => logos
  {
    out := logos;
    var i := 0;
    while i < |fs|
      invariant 0 <= i <= |fs|
      invariant forall j :: 0 <= j < i ==> !IsFormat(fs[j], "svg")
      invariant out == match LastOf(fs[..i], "png") case Some(src) => logos[key := src] case None => logos
    {
      var fmt := fs[i];
      if fmt.format == Some("svg") {
        out := out[key := fmt.src];
        ChosenSvg(fs, i);
        return;
      } else if fmt.format == Some("png") {
        out := out[key := fmt.src];
      }
      i := i + 1;
      assert fs[..i][..i - 1] == fs[..i - 1];
    }
    assert fs[..i] == fs;
    FirstOfNone(fs, "svg");
  }

  /** The loop over logos. */
  method BuildLogos(ls: seq<Logo>) returns (logos: map<string, Option<string>>)
    ensures logos == LogoMap(ls)
  {
    logos := map[];
    var i := 0;
    while i < |ls|
      invariant 0 <= i <= |ls|
      invariant logos == LogoMap(ls[..i])
    {
      var logo := ls[i];
      var key := logo.kind.Show("logo") + "_" + logo.theme.Show("light");
      logos := ApplyFormats(logos, key, logo.formats);
      i := i + 1;
      assert ls[..i][..i - 1] == ls[..i - 1];
    }
    assert ls[..i] == ls;
  }

  method ExtractBrandData(resp: Response) returns (r: BrandRecord)
    ensures r.colors == resp.colors
    ensures r.fontTitle == LastFontName(resp.fonts, "title")
    ensures r.fontBody == LastFontName(resp.fonts, "body")
    ensures r.logos == LogoMap(resp.logos)
    ensures r.industries == IndustryNames(resp.company.industries)
    ensures r.description == resp.description && r.founded == resp.company.foundedYear
    ensures r.employees == resp.company.numberOfEmployees
    ensures r.location == None && r.qualityScore == resp.qualityScore
  {
    var colors := CopyColors(resp.colors);
    var fontTitle, fontBody := PickFonts(resp.fonts);
    var logos := BuildLogos(resp.logos);
    r := BrandRecord(colors, fontTitle, fontBody, logos, resp.description,
                     resp.company.foundedYear, resp.company.numberOfEmployees, None,
                     IndustryNames(resp.company.industries), resp.qualityScore);
  }
}

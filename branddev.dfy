/**
 * `extract_brand_data` of the Brand.dev script: normalises one Brand.dev
 * response into the provider-neutral brand record (colours sorted by brightness
 * and relabelled, logos keyed by type and mode, the first backdrop as banner,
 * industries, and a completeness score).
 */
module BrandDev {
  import opened Wrappers
  import opened Strings
  import opened Brightness

  // ---------------------------------------------------------------- input

  datatype ColorIn = ColorIn(hex: Field, name: Option<string>)
  datatype LogoIn = LogoIn(kind: Field, mode: Field, url: Option<string>)
  datatype BackdropIn = BackdropIn(url: Option<string>)
  datatype EicIn = EicIn(industry: Option<string>)
  /** The `industries` value: a dict (an absent key reads as `{}`) or some other JSON value. */
  datatype IndustryData = IndustryDict(eic: seq<EicIn>) | NotADict
  datatype Address = Address(city: Option<string>, country: Option<string>)

  /** The `brand` object of a response; absent lists are empty, an absent address has no fields. */
  datatype Brand = Brand(
    colors: seq<ColorIn>,
    logos: seq<LogoIn>,
    backdrops: seq<BackdropIn>,
    description: Option<string>,
    address: Address,
    industries: IndustryData)

  // ---------------------------------------------------------------- output

  datatype Color = Color(hex: string, kind: string, brightness: int)

  /** The normalised record; `qualityCount` is the numerator of the score, out of 6. */
  datatype BrandRecord = BrandRecord(
    colors: seq<Color>,
    fontTitle: Option<string>,
    fontBody: Option<string>,
    logos: map<string, Option<string>>,
    banners: map<string, Option<string>>,
    description: Option<string>,
    founded: Option<int>,
    employees: Option<int>,
    city: Option<string>,
    country: Option<string>,
    companyKind: Option<string>,
    industries: seq<string>,
    qualityCount: nat)

  const DefaultHex := "#888888"

  // ---------------------------------------------------------------- colours

  /**
   * `color.get('hex', '#888888')`. A `null` hex shows as "None", which is not
   * well formed: the source fails on it, as it does on any malformed string.
   */
  function HexOf(c: ColorIn): string {
    c.hex.Show(DefaultHex)
  }

  /** What the source needs of its input colours: every hex string can be read. */
  predicate ColorsWellFormed(cs: seq<ColorIn>) {
    forall i :: 0 <= i < |cs| ==> WellFormedHex(HexOf(cs[i]))
  }

  /**
   * One colour as the append loop builds it: the hex string as given (or the
   * default), its brightness, and a role that fits the brightness band.
   */
  function NormalizeColor(c: ColorIn): (r: Color)
    requires WellFormedHex(HexOf(c))
    ensures Carries(r, c) && 0 <= r.brightness <= 255
    ensures r.kind == "dark" || r.kind == "light" || r.kind == "brand" || r.kind == "accent"
    ensures r.brightness < 50 ==> r.kind == "dark"
    ensures r.kind == "light" <==> r.brightness > 200
  {
    var b := CalculateBrightness(HexOf(c));
    Color(HexOf(c), InferColorType(c.name, b), b)
  }

  /** The list the append loop produces, one record per input colour, in input order. */
  function NormalizeColors(cs: seq<ColorIn>): (r: seq<Color>)
    requires ColorsWellFormed(cs)
    ensures |r| == |cs|
    ensures forall i :: 0 <= i < |cs| ==> r[i] == NormalizeColor(cs[i])
  {
    seq(|cs|, i requires 0 <= i < |cs| => NormalizeColor(cs[i]))
  }

  predicate SortedByBrightness(s: seq<Color>) {
    forall i, j :: 0 <= i < j < |s| ==> s[i].brightness <= s[j].brightness
  }

  /** `x` placed before the first element of `t` that is at least as bright. */
  function Insert(x: Color, t: seq<Color>): (r: seq<Color>)
    requires SortedByBrightness(t)
    ensures |r| == |t| + 1
    ensures r[0] == x || (t != [] && r[0] == t[0])
    ensures SortedByBrightness(r)
  {
    if t == [] || x.brightness <= t[0].brightness then [x] + t
    else
      var rest := Insert(x, t[1..]);
      assert t == [t[0]] + t[1..];
      [t[0]] + rest
  }

  /** Insertion adds exactly `x` to the colours of `t`. */
  lemma {:induction false} InsertPermutes(x: Color, t: seq<Color>)
    requires SortedByBrightness(t)
    ensures multiset(Insert(x, t)) == multiset(t) + multiset{x}
  {
    if t != [] && x.brightness > t[0].brightness {
      InsertPermutes(x, t[1..]);
      assert t == [t[0]] + t[1..];
    }
  }

  /**
   * Python's stable `list.sort(key=brightness)`: each colour goes before the
   * later colours of equal brightness.
   */
  function SortByBrightness(s: seq<Color>): (r: seq<Color>)
    ensures |r| == |s|
    ensures multiset(r) == multiset(s)
    ensures SortedByBrightness(r)
  {
    if s == [] then []
    else
      assert s == [s[0]] + s[1..];
      InsertPermutes(s[0], SortByBrightness(s[1..]));
      Insert(s[0], SortByBrightness(s[1..]))
  }

  /** The colours of one given brightness, in list order. */
  function WithBrightness(s: seq<Color>, b: int): seq<Color> {
    if s == [] then []
    else (if s[0].brightness == b then [s[0]] else []) + WithBrightness(s[1..], b)
  }

  lemma {:induction false} WithBrightnessAppend(s: seq<Color>, t: seq<Color>, b: int)
    ensures WithBrightness(s + t, b) == WithBrightness(s, b) + WithBrightness(t, b)
  {
    if s != [] {
      assert (s + t)[0] == s[0];
      assert (s + t)[1..] == s[1..] + t;
      WithBrightnessAppend(s[1..], t, b);
    } else {
      assert s + t == t;
    }
  }

  lemma {:induction false} InsertKeepsTies(x: Color, t: seq<Color>, b: int)
    requires SortedByBrightness(t)
    ensures WithBrightness(Insert(x, t), b)
         == (if x.brightness == b then [x] else []) + WithBrightness(t, b)
  {
    if t == [] || x.brightness <= t[0].brightness {
      assert Insert(x, t) == [x] + t;
      WithBrightnessAppend([x], t, b);
    } else {
      InsertKeepsTies(x, t[1..], b);
      assert Insert(x, t) == [t[0]] + Insert(x, t[1..]);
      WithBrightnessAppend([t[0]], Insert(x, t[1..]), b);
      WithBrightnessAppend([t[0]], t[1..], b);
      assert t == [t[0]] + t[1..];
      // t[0] is dimmer than x, so if it has brightness b then x does not
    }
  }

  /** The sort is stable: colours of equal brightness keep their input order. */
  lemma {:induction false} SortIsStable(s: seq<Color>, b: int)
    ensures WithBrightness(SortByBrightness(s), b) == WithBrightness(s, b)
  {
    if s != [] {
      SortIsStable(s[1..], b);
      InsertKeepsTies(s[0], SortByBrightness(s[1..]), b);
    }
  }

  /**
   * The relabelling after the sort: the first colour becomes "dark", the last
   * "light" (two or more colours), the second "accent" (three or more).
   */
  function Relabelled(s: seq<Color>): (r: seq<Color>)
    ensures |r| == |s|
    ensures forall i :: 0 <= i < |s| ==> r[i].hex == s[i].hex && r[i].brightness == s[i].brightness
    ensures |s| >= 1 ==> r[0].kind == "dark"
    ensures |s| >= 2 ==> r[|s| - 1].kind == "light"
    ensures |s| >= 3 ==> r[1].kind == "accent"
    ensures forall i :: 0 < i < |s| - 1 && !(i == 1 && |s| >= 3) ==> r[i].kind == s[i].kind
  {
    if s == [] then s
    else
      var s1 := s[0 := s[0].(kind := "dark")];
      var s2 := if |s| > 1 then s1[|s| - 1 := s1[|s| - 1].(kind := "light")] else s1;
      if |s| > 2 then s2[1 := s2[1].(kind := "accent")] else s2
  }

  /**
   * The colour list the script returns: one entry per input colour, sorted by
   * brightness, the darkest labelled dark, the brightest light and the second
   * darkest accent.
   */
  function FinalColors(cs: seq<ColorIn>): (r: seq<Color>)
    requires ColorsWellFormed(cs)
    ensures |r| == |cs| && SortedByBrightness(r)
    ensures |r| >= 1 ==> r[0].kind == "dark"
    ensures |r| >= 2 ==> r[|r| - 1].kind == "light"
    ensures |r| >= 3 ==> r[1].kind == "accent"
  {
    Relabelled(SortByBrightness(NormalizeColors(cs)))
  }

  /** `c` has the hex string of `x` and the brightness computed from it. */
  predicate Carries(c: Color, x: ColorIn) {
    c.hex == HexOf(x) && WellFormedHex(HexOf(x)) && c.brightness == CalculateBrightness(HexOf(x))
  }

  /**
   * The returned list has one entry per input colour, sorted by brightness,
   * and each entry carries the hex string and brightness of some input colour.
   */
  lemma FinalColorsFaithful(cs: seq<ColorIn>)
    requires ColorsWellFormed(cs)
    ensures |FinalColors(cs)| == |cs|
    ensures SortedByBrightness(FinalColors(cs))
    ensures forall k :: 0 <= k < |cs| ==> exists i :: 0 <= i < |cs| && Carries(FinalColors(cs)[k], cs[i])
  {
    forall k | 0 <= k < |cs| ensures exists i :: 0 <= i < |cs| && Carries(FinalColors(cs)[k], cs[i]) {
      FinalEntryCarries(cs, k);
    }
  }

  lemma FinalEntryCarries(cs: seq<ColorIn>, k: nat)
    requires ColorsWellFormed(cs) && k < |cs|
    ensures exists i :: 0 <= i < |cs| && Carries(FinalColors(cs)[k], cs[i])
  {
    var n := NormalizeColors(cs);
    var s := SortByBrightness(n);
    assert s[k] in multiset(s);
    assert s[k] in multiset(n);
    var i :| 0 <= i < |n| && n[i] == s[k];
    assert FinalColors(cs)[k].hex == s[k].hex && FinalColors(cs)[k].brightness == s[k].brightness;
    assert Carries(FinalColors(cs)[k], cs[i]);
  }

  /** The hex string and brightness of each colour, its role left out. */
  function HexBrightness(s: seq<Color>): (r: seq<(string, int)>)
    ensures |r| == |s| && forall i :: 0 <= i < |s| ==> r[i] == (s[i].hex, s[i].brightness)
  {
    seq(|s|, i requires 0 <= i < |s| => (s[i].hex, s[i].brightness))
  }

  lemma HexBrightnessCons(c: Color, t: seq<Color>)
    ensures HexBrightness([c] + t) == [(c.hex, c.brightness)] + HexBrightness(t)
  {
  }

  lemma HexBrightnessHead(s: seq<Color>)
    requires s != []
    ensures HexBrightness(s) == [(s[0].hex, s[0].brightness)] + HexBrightness(s[1..])
  {
    assert s == [s[0]] + s[1..];
    HexBrightnessCons(s[0], s[1..]);
  }

  lemma {:induction false} InsertPermutesPairs(x: Color, t: seq<Color>)
    requires SortedByBrightness(t)
    ensures multiset(HexBrightness(Insert(x, t))) == multiset(HexBrightness(t)) + multiset{(x.hex, x.brightness)}
  {
    if t == [] || x.brightness <= t[0].brightness {
      assert Insert(x, t) == [x] + t;
      HexBrightnessCons(x, t);
    } else {
      var rest := Insert(x, t[1..]);
      assert Insert(x, t) == [t[0]] + rest;
      assert t == [t[0]] + t[1..];
      InsertPermutesPairs(x, t[1..]);
      HexBrightnessCons(t[0], rest);
      HexBrightnessCons(t[0], t[1..]);
    }
  }

  lemma {:induction false} SortPermutesPairs(s: seq<Color>)
    ensures multiset(HexBrightness(SortByBrightness(s))) == multiset(HexBrightness(s))
  {
    if s != [] {
      var rest := SortByBrightness(s[1..]);
      assert SortByBrightness(s) == Insert(s[0], rest);
      SortPermutesPairs(s[1..]);
      InsertPermutesPairs(s[0], rest);
      HexBrightnessHead(s);
      assert multiset(HexBrightness(s)) == multiset{(s[0].hex, s[0].brightness)} + multiset(HexBrightness(s[1..]));
    }
  }

  /** The hex string of each input colour with the brightness computed from it. */
  function InputHexBrightness(cs: seq<ColorIn>): (r: seq<(string, int)>)
    requires ColorsWellFormed(cs)
    ensures |r| == |cs|
    ensures forall i :: 0 <= i < |cs| ==> r[i] == (HexOf(cs[i]), CalculateBrightness(HexOf(cs[i])))
  {
    seq(|cs|, i requires 0 <= i < |cs| => (HexOf(cs[i]), CalculateBrightness(HexOf(cs[i]))))
  }

  lemma NormalizedHexBrightness(cs: seq<ColorIn>)
    requires ColorsWellFormed(cs)
    ensures HexBrightness(NormalizeColors(cs)) == InputHexBrightness(cs)
  {
  }

  lemma RelabelledHexBrightness(s: seq<Color>)
    ensures HexBrightness(Relabelled(s)) == HexBrightness(s)
  {
  }

  /**
   * The returned list is a permutation of the input colours' hex strings and
   * brightnesses: each input colour is carried by exactly one returned entry.
   */
  lemma FinalColorsPermutation(cs: seq<ColorIn>)
    requires ColorsWellFormed(cs)
    ensures multiset(HexBrightness(FinalColors(cs))) == multiset(InputHexBrightness(cs))
  {
    var n := NormalizeColors(cs);
    SortPermutesPairs(n);
    RelabelledHexBrightness(SortByBrightness(n));
    NormalizedHexBrightness(cs);
  }

  // ---------------------------------------------------------------- logos

  /** `"dark" if mode == "has_opaque_background" else mode`. */
  function NormalizeMode(mode: string): (m: string)
    ensures m != "has_opaque_background"
    ensures m == "dark" <==> mode == "dark" || mode == "has_opaque_background"
    ensures mode != "has_opaque_background" ==> m == mode
  {
    if mode == "has_opaque_background" then "dark" else mode
  }

  /**
   * `f"{type}_{mode}"` with defaults "logo" and "dark": the type, an underscore,
   * then the mode; a missing mode and an opaque background are both filed as dark.
   */
  function LogoKey(l: LogoIn): (k: string)
    ensures l.mode.Absent? || l.mode == Str("has_opaque_background") ==> k == l.kind.Show("logo") + "_dark"
    ensures l.mode.Str? && l.mode.value != "has_opaque_background" ==> k == l.kind.Show("logo") + "_" + l.mode.value
  {
    l.kind.Show("logo") + "_" + NormalizeMode(l.mode.Show("dark"))
  }

  /** The `logos` dict after the loop: each logo written under its key, in order. */
  function LogoMap(ls: seq<LogoIn>): (m: map<string, Option<string>>)
    ensures |m| <= |ls|
    ensures ls != [] ==> |m| > 0
  {
    if ls == [] then map[]
    else LogoMap(ls[..|ls| - 1])[LogoKey(ls[|ls| - 1]) := ls[|ls| - 1].url]
  }

  /** Exactly the keys of the input logos are present. */
  lemma {:induction false} LogoMapKeys(ls: seq<LogoIn>, k: string)
    ensures k in LogoMap(ls) <==> exists i :: 0 <= i < |ls| && LogoKey(ls[i]) == k
  {
    if ls != [] {
      var init := ls[..|ls| - 1];
      LogoMapKeys(init, k);
      assert forall i :: 0 <= i < |init| ==> init[i] == ls[i];
    }
  }

  /** The last logo with a given key wins. */
  lemma {:induction false} LogoMapLastWins(ls: seq<LogoIn>, i: nat)
    requires i < |ls|
    requires forall j :: i < j < |ls| ==> LogoKey(ls[j]) != LogoKey(ls[i])
    ensures LogoKey(ls[i]) in LogoMap(ls) && LogoMap(ls)[LogoKey(ls[i])] == ls[i].url
  {
    if i < |ls| - 1 {
      var init := ls[..|ls| - 1];
      assert init[i] == ls[i];
      LogoMapLastWins(init, i);
    }
  }

  // ---------------------------------------------------------------- banners

  function Banners(backdrops: seq<BackdropIn>): (m: map<string, Option<string>>)
    ensures "banner" in m <==> |backdrops| > 0
    ensures m.Keys <= {"banner"}
    ensures |backdrops| > 0 ==> m["banner"] == backdrops[0].url
  {
    if |backdrops| > 0 then map["banner" := backdrops[0].url] else map[]
  }

  // ---------------------------------------------------------------- industries

  predicate NonEmpty(o: Option<string>) {
    o.Some? && o.value != ""
  }

  /** The truthy `industry` values of the `eic` entries, in input order. */
  function FilterIndustries(eic: seq<EicIn>): (r: seq<string>)
    ensures |r| <= |eic|
    ensures forall x :: x in r <==> exists i :: 0 <= i < |eic| && eic[i].industry == Some(x) && x != ""
  {
    if eic == [] then []
    else
      var init := FilterIndustries(eic[..|eic| - 1]);
      assert forall i :: 0 <= i < |eic| - 1 ==> eic[..|eic| - 1][i] == eic[i];
      var last := eic[|eic| - 1].industry;
      if NonEmpty(last) then init + [last.value] else init
  }

  /** Filtering commutes with concatenation, so input order is kept. */
  lemma {:induction false} FilterIndustriesAppend(a: seq<EicIn>, b: seq<EicIn>)
    ensures FilterIndustries(a + b) == FilterIndustries(a) + FilterIndustries(b)
    decreases |b|
  {
    if b != [] {
      var b' := b[..|b| - 1];
      assert (a + b)[..|a + b| - 1] == a + b';
      FilterIndustriesAppend(a, b');
    } else {
      assert a + b == a;
    }
  }

  /** The industries list: the non-empty `eic` industries of a dict, nothing otherwise. */
  function Industries(data: IndustryData): (r: seq<string>)
    ensures data.NotADict? ==> r == []
    ensures forall x :: x in r ==> x != ""
    ensures data.IndustryDict? ==>
      forall x :: x in r <==> exists i :: 0 <= i < |data.eic| && data.eic[i].industry == Some(x) && x != ""
  {
    match data
    case IndustryDict(eic) => FilterIndustries(eic)
    case NotADict => []
  }

  // ---------------------------------------------------------------- quality

  /** The number of `true` entries. */
  function CountTrue(fs: seq<bool>): (n: nat)
    ensures n <= |fs|
    ensures n == |fs| <==> forall i :: 0 <= i < |fs| ==> fs[i]
    ensures n == 0 <==> forall i :: 0 <= i < |fs| ==> !fs[i]
  {
    if fs == [] then 0
    else
      var rest := CountTrue(fs[1..]);
      assert forall i :: 1 <= i < |fs| ==> fs[1..][i - 1] == fs[i];
      (if fs[0] then 1 else 0) + rest
  }

  /** The six completeness factors, in the source's order. */
  function QualityFactors(colors: seq<Color>, logos: map<string, Option<string>>,
                          banners: map<string, Option<string>>, description: Option<string>,
                          city: Option<string>, industries: seq<string>): seq<bool>
  {
    [|colors| > 0, |logos| > 0, |banners| > 0, NonEmpty(description), NonEmpty(city), |industries| > 0]
  }

  /** The `logos` dict is empty exactly when there are no logos. */
  lemma LogoMapEmpty(ls: seq<LogoIn>)
    ensures |LogoMap(ls)| == 0 <==> ls == []
  {
  }

  /** The six factors read off the input brand. */
  lemma QualityFromInput(brand: Brand)
    requires ColorsWellFormed(brand.colors)
    ensures QualityFactors(FinalColors(brand.colors), LogoMap(brand.logos), Banners(brand.backdrops),
                           brand.description, brand.address.city, Industries(brand.industries))
         == [|brand.colors| > 0, |brand.logos| > 0, |brand.backdrops| > 0,
             NonEmpty(brand.description), NonEmpty(brand.address.city), |Industries(brand.industries)| > 0]
  {
    assert |FinalColors(brand.colors)| == |brand.colors|;
    LogoMapEmpty(brand.logos);
  }

  // ---------------------------------------------------------------- the record

  /**
   * The record `extract_brand_data` returns: Brand.dev has no fonts, founding
   * year, employee count or company type, so those stay empty.
   */
  function BrandRecordOf(brand: Brand): (r: BrandRecord)
    requires ColorsWellFormed(brand.colors)
    ensures r.qualityCount <= 6
    ensures |r.colors| == |brand.colors| && SortedByBrightness(r.colors)
    ensures r.fontTitle == None && r.fontBody == None && r.founded == None
    ensures r.employees == None && r.companyKind == None
  {
    var colors := FinalColors(brand.colors);
    FinalColorsFaithful(brand.colors);
    var logos := LogoMap(brand.logos);
    var banners := Banners(brand.backdrops);
    var industries := Industries(brand.industries);
    BrandRecord(colors, None, None, logos, banners, brand.description, None, None,
                brand.address.city, brand.address.country, None, industries,
                CountTrue(QualityFactors(colors, logos, banners, brand.description, brand.address.city, industries)))
  }

  /**
   * The score counts what the input provides: colours, logos, backdrops, a
   * non-empty description and city, and at least one named industry.
   */
  lemma QualityOfBrand(brand: Brand)
    requires ColorsWellFormed(brand.colors)
    ensures BrandRecordOf(brand).qualityCount
         == CountTrue([|brand.colors| > 0, |brand.logos| > 0, |brand.backdrops| > 0,
                       NonEmpty(brand.description), NonEmpty(brand.address.city),
                       |Industries(brand.industries)| > 0])
  {
    QualityFromInput(brand);
  }

  // ---------------------------------------------------------------- the extractor

  /** The append loop over the input colours. */
  method BuildColors(cs: seq<ColorIn>) returns (colors: seq<Color>)
    requires ColorsWellFormed(cs)
    ensures colors == NormalizeColors(cs)
  {
    colors := [];
    var i := 0;
    while i < |cs|
      invariant 0 <= i <= |cs|
      invariant |colors| == i
      invariant forall k :: 0 <= k < i ==> colors[k] == NormalizeColor(cs[k])
    {
      var c := cs[i];
      var hex := c.hex.Show(DefaultHex);
      var b := CalculateBrightness(hex);
      colors := colors + [Color(hex, InferColorType(c.name, b), b)];
      i := i + 1;
    }
  }

  /** The colour list: built, sorted, then its first, last and second entries relabelled. */
  method ExtractColors(cs: seq<ColorIn>) returns (colors: seq<Color>)
    requires ColorsWellFormed(cs)
    ensures colors == FinalColors(cs)
  {
    colors := BuildColors(cs);
    colors := SortByBrightness(colors);
    if |colors| > 0 {
      colors := colors[0 := colors[0].(kind := "dark")];
      if |colors| > 1 {
        colors := colors[|colors| - 1 := colors[|colors| - 1].(kind := "light")];
      }
      if |colors| > 2 {
        colors := colors[1 := colors[1].(kind := "accent")];
      }
    }
  }

  /** The loop filling the `logos` dict. */
  method BuildLogos(ls: seq<LogoIn>) returns (logos: map<string, Option<string>>)
    ensures logos == LogoMap(ls)
  {
    logos := map[];
    var i := 0;
    while i < |ls|
      invariant 0 <= i <= |ls|
      invariant logos == LogoMap(ls[..i])
    {
      var logo := ls[i];
      var mode := logo.mode.Show("dark");
      if mode == "has_opaque_background" {
        mode := "dark";
      }
      var key := logo.kind.Show("logo") + "_" + mode;
      logos := logos[key := logo.url];
      i := i + 1;
      assert ls[..i][..i - 1] == ls[..i - 1];
    }
    assert ls[..i] == ls;
  }

  /** The loop collecting industries from a dict's `eic` list. */
  method BuildIndustries(data: IndustryData) returns (industries: seq<string>)
    ensures industries == Industries(data)
  {
    industries := [];
    if data.IndustryDict? {
      var eic := data.eic;
      var i := 0;
      while i < |eic|
        invariant 0 <= i <= |eic|
        invariant industries == FilterIndustries(eic[..i])
      {
        if NonEmpty(eic[i].industry) {
          industries := industries + [eic[i].industry.value];
        }
        i := i + 1;
        assert eic[..i][..i - 1] == eic[..i - 1];
      }
      assert eic[..i] == eic;
    }
  }

  method ExtractBrandData(brand: Brand) returns (r: BrandRecord)
    requires ColorsWellFormed(brand.colors)
    ensures r == BrandRecordOf(brand)
  {
    var colors := ExtractColors(brand.colors);
    var logos := BuildLogos(brand.logos);
    var banners: map<string, Option<string>> := map[];
    if |brand.backdrops| > 0 {
      banners := banners["banner" := brand.backdrops[0].url];
    }
    var industries := BuildIndustries(brand.industries);
    var factors := QualityFactors(colors, logos, banners, brand.description,
                                  brand.address.city, industries);
    r := BrandRecord(colors, None, None, logos, banners, brand.description, None, None,
                     brand.address.city, brand.address.country, None, industries, CountTrue(factors));
  }
}

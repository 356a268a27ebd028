/** The lightweight page extraction (api/scraper.ts): fetch a page, then shape
    what the regular expressions found in it into a bounded summary. The
    regular-expression matches are inputs, in page order; the three `while`
    loops over them are methods. */
module Scraper {
  import opened Common

  const MaxText := 10000
  const MaxImages := 10
  const MaxColors := 20
  const MaxFonts := 10
  const ScrapeError := "Failed to scrape website"

  /** The summary handed to identity generation. */
  datatype ScrapedData = ScrapedData(
    url: string,
    title: string,
    textContent: string,
    imageUrls: seq<string>,
    cssColors: seq<string>,
    fontFamilies: seq<string>,
    metaDescription: string)

  /** What the regular expressions find in the page: the `<title>` capture, the
      meta-description capture, the text left once scripts, styles and tags are
      removed and white-space runs collapsed, and, in page order, every
      `<img src>` capture, every colour match and every `font-family:` capture. */
  datatype PageMatches = PageMatches(
    titleCapture: Option<string>,
    metaCapture: Option<string>,
    strippedText: string,
    imageSources: seq<string>,
    colorMatches: seq<string>,
    fontDeclarations: seq<string>)

  /** The outcome of fetching the page: the fetch threw, the response was not
      ok, or the page's matches. */
  datatype PageFetch =
    | FetchFailed(message: string)
    | HttpNotOk(statusText: string)
    | Fetched(page: PageMatches)

  /** The invariants of a summary: bounded, de-duplicated collections without
      empty font names, and a bounded text excerpt. */
  predicate WithinBounds(d: ScrapedData)
  {
    && |d.textContent| <= MaxText
    && |d.imageUrls| <= MaxImages
    && |d.cssColors| <= MaxColors && NoDuplicates(d.cssColors)
    && |d.fontFamilies| <= MaxFonts && NoDuplicates(d.fontFamilies)
    && (forall k :: 0 <= k < |d.fontFamilies| ==> d.fontFamilies[k] != "")
  }

  /** `match ? match[1].trim() : ''`: the trimmed capture, or empty without a match. */
  function CaptureText(capture: Option<string>): (r: string)
    ensures capture.None? ==> r == ""
    ensures capture.Some? ==>
              exists i, j :: 0 <= i <= j <= |capture.value| && r == capture.value[i..j]
                && (forall k :: 0 <= k < i ==> IsJsSpace(capture.value[k]))
                && (forall k :: j <= k < |capture.value| ==> IsJsSpace(capture.value[k]))
    ensures r == [] || (!IsJsSpace(r[0]) && !IsJsSpace(r[|r| - 1]))
  {
    match capture
    case None => ""
    case Some(c) =>
      TrimIsSlice(c);
      TrimCuts(c);
      Trim(c)
  }

  /** `.trim().slice(0, 10000)` of the stripped page text. */
  function Excerpt(strippedText: string): (r: string)
    ensures |r| <= MaxText && |r| <= |Trim(strippedText)|
    ensures r == Trim(strippedText)[..|r|]
    ensures |Trim(strippedText)| <= MaxText ==> r == Trim(strippedText)
    ensures |Trim(strippedText)| > MaxText ==> |r| == MaxText
  {
    Take(Trim(strippedText), MaxText)
  }

  /** One `<img src>` capture made absolute: "//host/p" gets the https scheme,
      a URL that starts with "http" is kept, "/p" is resolved against the page's
      origin, and anything else is dropped. */
  function NormalizeImageUrl(src: string, origin: string): (r: Option<string>)
    ensures r.Some? <==> StartsWith(src, "http") || StartsWith(src, "/")
    ensures r.Some? ==> |src| <= |r.value| && r.value[|r.value| - |src|..] == src
  {
    assert StartsWith(src, "//") ==> StartsWith(src, "/") by {
      if StartsWith(src, "//") {
        assert src[..1] == src[..2][..1];
      }
    }
    if StartsWith(src, "http") || StartsWith(src, "//") then
      Some(if StartsWith(src, "//") then "https:" + src else src)
    else if StartsWith(src, "/") then Some(origin + src)
    else None
  }

  /** The four cases of the normalisation, the "//" case taking precedence over the "/" case. */
  lemma NormalizeImageUrlCases(src: string, origin: string)
    ensures StartsWith(src, "//") ==> NormalizeImageUrl(src, origin) == Some("https:" + src)
    ensures StartsWith(src, "http") ==> NormalizeImageUrl(src, origin) == Some(src)
    ensures StartsWith(src, "/") && !StartsWith(src, "//") ==> NormalizeImageUrl(src, origin) == Some(origin + src)
    ensures !StartsWith(src, "/") && !StartsWith(src, "http") ==> NormalizeImageUrl(src, origin) == None
  {
    StartsWithHead(src, "/");
    StartsWithHead(src, "http");
    if StartsWith(src, "//") {
      assert src[..1] == src[..2][..1];
    }
  }

  /** Every kept URL is absolute: it starts with "http", or with the origin and a slash. */
  lemma NormalizedIsAbsolute(src: string, origin: string)
    ensures NormalizeImageUrl(src, origin).Some? ==>
              StartsWith(NormalizeImageUrl(src, origin).value, "http")
              || StartsWith(NormalizeImageUrl(src, origin).value, origin + "/")
  {
    if StartsWith(src, "//") {
      assert ("https:" + src)[..4] == "http";
    } else if !StartsWith(src, "http") && StartsWith(src, "/") {
      assert (origin + src)[..|origin| + 1] == origin + src[..1];
    }
  }

  /** Every page image made absolute, in page order, with nothing dropped for space. */
  function Normalized(srcs: seq<string>, origin: string): seq<string>
  {
    if srcs == [] then []
    else
      var rest := Normalized(srcs[..|srcs| - 1], origin);
      match NormalizeImageUrl(srcs[|srcs| - 1], origin)
      case Some(u) => rest + [u]
      case None => rest
  }

  /** Looking at fewer image captures gives a prefix of the list. */
  lemma {:induction false} NormalizedPrefix(srcs: seq<string>, origin: string, i: nat)
    requires i <= |srcs|
    ensures Normalized(srcs[..i], origin) <= Normalized(srcs, origin)
    decreases |srcs|
  {
    if i < |srcs| {
      var init := srcs[..|srcs| - 1];
      assert init[..i] == srcs[..i];
      NormalizedPrefix(init, origin, i);
    } else {
      assert srcs[..i] == srcs;
    }
  }

  /** Every listed URL is the normalisation of some page image. */
  lemma {:induction false} NormalizedFromSources(srcs: seq<string>, origin: string)
    ensures forall k :: 0 <= k < |Normalized(srcs, origin)| ==>
              exists m :: 0 <= m < |srcs| && NormalizeImageUrl(srcs[m], origin) == Some(Normalized(srcs, origin)[k])
    decreases |srcs|
  {
    if srcs != [] {
      var init := srcs[..|srcs| - 1];
      NormalizedFromSources(init, origin);
      var n, ni := Normalized(srcs, origin), Normalized(init, origin);
      var last := |srcs| - 1;
      assert n == ni || n == ni + [NormalizeImageUrl(srcs[last], origin).value];
      forall k | 0 <= k < |n|
        ensures exists m :: 0 <= m < |srcs| && NormalizeImageUrl(srcs[m], origin) == Some(n[k])
      {
        if k < |ni| {
          var m :| 0 <= m < |init| && NormalizeImageUrl(init[m], origin) == Some(ni[k]);
          assert srcs[m] == init[m] && n[k] == ni[k];
        } else {
          assert NormalizeImageUrl(srcs[last], origin) == Some(n[k]);
        }
      }
    } else {
      assert Normalized(srcs, origin) == [];
    }
  }

  /** The image loop: walk the captures, pushing each normalised URL, until
      there are no more captures or ten URLs are kept. */
  method CollectImageUrls(srcs: seq<string>, origin: string) returns (urls: seq<string>)
    ensures urls == Take(Normalized(srcs, origin), MaxImages)
    ensures |urls| <= MaxImages
  {
    urls := [];
    var i := 0;
    while i < |srcs| && |urls| < MaxImages
      invariant 0 <= i <= |srcs|
      invariant urls == Normalized(srcs[..i], origin)
      invariant |urls| <= MaxImages
    {
      var src := srcs[i];
      assert srcs[..i + 1][..i] == srcs[..i];
      if StartsWith(src, "http") || StartsWith(src, "//") {
        urls := urls + [if StartsWith(src, "//") then "https:" + src else src];
      } else if StartsWith(src, "/") {
        urls := urls + [origin + src];
      }
      i := i + 1;
    }
    NormalizedPrefix(srcs, origin, i);
    if i == |srcs| {
      assert srcs[..i] == srcs;
    }
  }

  /** The elements of `xs` in order of first occurrence: what a JavaScript `Set`
      filled from `xs` holds, in its iteration order. */
  function Distinct(xs: seq<string>): seq<string>
  {
    if xs == [] then []
    else
      var d := Distinct(xs[..|xs| - 1]);
      if xs[|xs| - 1] in d then d else d + [xs[|xs| - 1]]
  }

  /** One more value added to a Set. */
  lemma DistinctStep(xs: seq<string>, i: nat)
    requires i < |xs|
    ensures Distinct(xs[..i + 1]) == if xs[i] in Distinct(xs[..i]) then Distinct(xs[..i]) else Distinct(xs[..i]) + [xs[i]]
  {
    assert xs[..i + 1][..i] == xs[..i];
  }

  /** Adding to a Set in a longer run extends what a shorter run held. */
  lemma {:induction false} DistinctPrefix(xs: seq<string>, i: nat)
    requires i <= |xs|
    ensures Distinct(xs[..i]) <= Distinct(xs)
    decreases |xs|
  {
    if i < |xs| {
      var init := xs[..|xs| - 1];
      assert init[..i] == xs[..i];
      DistinctPrefix(init, i);
    } else {
      assert xs[..i] == xs;
    }
  }

  /** A Set holds each value once, and exactly the values added to it. */
  lemma {:induction false} DistinctIsSet(xs: seq<string>)
    ensures NoDuplicates(Distinct(xs))
    ensures forall x :: x in Distinct(xs) <==> x in xs
    decreases |xs|
  {
    if xs != [] {
      var init := xs[..|xs| - 1];
      DistinctIsSet(init);
      assert xs == init + [xs[|xs| - 1]];
    }
  }

  /** The first `n` values of a Set are distinct values that were added to it. */
  lemma TakeDistinct(xs: seq<string>, n: nat)
    ensures NoDuplicates(Take(Distinct(xs), n))
    ensures forall x :: x in Take(Distinct(xs), n) ==> x in xs
  {
    DistinctIsSet(xs);
    var d := Distinct(xs);
    var t := Take(d, n);
    forall x | x in t ensures x in xs {
      var k :| 0 <= k < |t| && t[k] == x;
      assert d[k] == x;
    }
  }

  /** The colour loop: add each match to a Set while it holds fewer than twenty. */
  method CollectColors(matches: seq<string>) returns (colors: seq<string>)
    ensures colors == Take(Distinct(matches), MaxColors)
    ensures |colors| <= MaxColors && NoDuplicates(colors)
    ensures forall k :: 0 <= k < |colors| ==> colors[k] in matches
  {
    colors := [];
    var i := 0;
    while i < |matches| && |colors| < MaxColors
      invariant 0 <= i <= |matches|
      invariant colors == Distinct(matches[..i])
      invariant |colors| <= MaxColors
    {
      DistinctStep(matches, i);
      if matches[i] !in colors {
        colors := colors + [matches[i]];
      }
      i := i + 1;
    }
    DistinctPrefix(matches, i);
    if i == |matches| {
      assert matches[..i] == matches;
    }
    TakeDistinct(matches, MaxColors);
  }

  /** `s.split(',')[0]`: everything before the first comma. */
  function FirstSegment(s: string): (r: string)
    ensures |r| <= |s| && r == s[..|r|]
    ensures forall k :: 0 <= k < |r| ==> r[k] != ','
    ensures |r| < |s| ==> s[|r|] == ','
  {
    if s == [] || s[0] == ',' then [] else [s[0]] + FirstSegment(s[1..])
  }

  predicate IsQuote(c: char)
  {
    c == '"' || c == '\''
  }

  /** `s.replace(/["']/g, '')`. */
  function RemoveQuotes(s: string): (r: string)
    ensures |r| <= |s|
    ensures forall k :: 0 <= k < |r| ==> !IsQuote(r[k]) && r[k] in s
    ensures (forall k :: 0 <= k < |s| ==> !IsQuote(s[k])) ==> r == s
  {
    if s == [] then []
    else (if IsQuote(s[0]) then [] else [s[0]]) + RemoveQuotes(s[1..])
  }

  /** Quote removal works character by character: it distributes over
      concatenation, and a lone quote vanishes. */
  lemma {:induction false} RemoveQuotesConcat(a: string, b: string)
    ensures RemoveQuotes(a + b) == RemoveQuotes(a) + RemoveQuotes(b)
    decreases |a|
  {
    if a == [] {
      assert a + b == b;
    } else {
      assert (a + b)[0] == a[0];
      assert (a + b)[1..] == a[1..] + b;
      RemoveQuotesConcat(a[1..], b);
    }
  }

  /** The family named by one `font-family:` capture: the first comma-separated
      entry of the trimmed capture, without quotes. */
  function FontFamilyOf(declaration: string): (r: string)
    ensures forall k :: 0 <= k < |r| ==> r[k] != ',' && !IsQuote(r[k])
  {
    RemoveQuotes(FirstSegment(Trim(declaration)))
  }

  /** Splitting at commas stops at the first comma. */
  lemma FirstSegmentAtComma(entry: string, t: string)
    requires |entry| < |t| && t[..|entry|] == entry && t[|entry|] == ','
    requires forall k :: 0 <= k < |entry| ==> entry[k] != ','
    ensures FirstSegment(t) == entry
  {
  }

  /** Trimming a list that starts with an entry and its comma keeps them. */
  lemma TrimKeepsFirstEntry(core: string, entry: string)
    requires |entry| < |core| && core[..|entry|] == entry && core[|entry|] == ','
    requires entry != [] && !IsJsSpace(entry[0])
    requires forall k :: 0 <= k < |entry| ==> entry[k] != ','
    ensures FirstSegment(Trim(core)) == entry
  {
    assert TrimStart(core) == core;
    var t := TrimEnd(core);
    assert |entry| < |t|;
    assert t[..|entry|] == core[..|entry|];
    FirstSegmentAtComma(entry, t);
  }

  /** The first entry of a list behind leading white space, up to its comma,
      is what trimming and splitting at commas give. */
  lemma FirstEntry(pad: string, entry: string, rest: string)
    requires forall k :: 0 <= k < |pad| ==> IsJsSpace(pad[k])
    requires entry != [] && !IsJsSpace(entry[0])
    requires forall k :: 0 <= k < |entry| ==> entry[k] != ','
    ensures FirstSegment(Trim(pad + entry + "," + rest)) == entry
  {
    var core := entry + "," + rest;
    assert pad + entry + "," + rest == pad + core;
    TrimStartPadded(pad, core);
    assert core[..|entry|] == entry;
    TrimKeepsFirstEntry(core, entry);
  }

  /** A plain family name listed first is that family: `Arial, sans-serif` gives `Arial`. */
  lemma FamilyOfPlainName(pad: string, name: string, rest: string)
    requires forall k :: 0 <= k < |pad| ==> IsJsSpace(pad[k])
    requires name != [] && !IsJsSpace(name[0])
    requires forall k :: 0 <= k < |name| ==> name[k] != ',' && !IsQuote(name[k])
    ensures FontFamilyOf(pad + name + "," + rest) == name
  {
    FirstEntry(pad, name, rest);
  }

  /** Trimming keeps text free of quotes. */
  lemma QuoteFreeTrim(s: string)
    requires forall k :: 0 <= k < |s| ==> !IsQuote(s[k])
    ensures forall k :: 0 <= k < |Trim(s)| ==> !IsQuote(Trim(s)[k])
  {
    var u := TrimStart(s);
    var e := TrimEnd(u);
    assert Trim(s) == e;
    forall k | 0 <= k < |e| ensures !IsQuote(e[k]) {
      assert e[k] == u[k] == s[|s| - |u| + k];
    }
  }

  /** Splitting at commas keeps text free of quotes. */
  lemma QuoteFreeFirstSegment(s: string)
    requires forall k :: 0 <= k < |s| ==> !IsQuote(s[k])
    ensures forall k :: 0 <= k < |FirstSegment(s)| ==> !IsQuote(FirstSegment(s)[k])
  {
    var f := FirstSegment(s);
    forall k | 0 <= k < |f| ensures !IsQuote(f[k]) {
      assert f[k] == s[k];
    }
  }

  /** A capture of `([^;}"']+)` holds no quote, so quote removal leaves the
      first segment of the trimmed capture as it is. */
  lemma FamilyOfCapture(capture: string)
    requires forall k :: 0 <= k < |capture| ==> !IsQuote(capture[k])
    ensures FontFamilyOf(capture) == FirstSegment(Trim(capture))
  {
    QuoteFreeTrim(capture);
    QuoteFreeFirstSegment(Trim(capture));
  }

  /** A capture of white space only, such as the `" "` in front of a quoted
      name (`font-family: "Open Sans"`), gives the empty family. */
  lemma BlankCaptureFamily(capture: string)
    requires forall k :: 0 <= k < |capture| ==> IsJsSpace(capture[k])
    ensures FontFamilyOf(capture) == ""
  {
    BlankIffAllSpace(capture);
    assert FirstSegment([]) == [];
  }

  /** Filtering out the empty name shortens a list that holds it. */
  lemma {:induction false} NonEmptyOnlyDropsBlank(xs: seq<string>)
    requires "" in xs
    ensures |NonEmptyOnly(xs)| < |xs|
    decreases |xs|
  {
    if xs[0] != "" {
      assert "" in xs[1..];
      NonEmptyOnlyDropsBlank(xs[1..]);
    }
  }

  /** A Set whose first value is the empty name keeps it in its first slot. */
  lemma BlankFirstInSet(all: seq<string>)
    requires all != [] && all[0] == ""
    ensures Take(Distinct(all), MaxFonts) != [] && Take(Distinct(all), MaxFonts)[0] == ""
  {
    assert Distinct(all[..1]) == [""] by {
      assert all[..1][..0] == [];
    }
    DistinctPrefix(all, 1);
  }

  /** A blank first capture takes a slot of the ten-name Set as the empty
      family, and the filter then drops it: fewer than ten names are reported. */
  lemma BlankCaptureTakesSlot(capture: string, rest: seq<string>)
    requires forall k :: 0 <= k < |capture| ==> IsJsSpace(capture[k])
    ensures Take(Distinct(Families([capture] + rest)), MaxFonts) != []
    ensures Take(Distinct(Families([capture] + rest)), MaxFonts)[0] == ""
    ensures "" !in NonEmptyOnly(Take(Distinct(Families([capture] + rest)), MaxFonts))
    ensures |NonEmptyOnly(Take(Distinct(Families([capture] + rest)), MaxFonts))| < MaxFonts
  {
    var all := Families([capture] + rest);
    BlankCaptureFamily(capture);
    assert all[0] == FontFamilyOf(capture);
    BlankFirstInSet(all);
    NonEmptyOnlyDropsBlank(Take(Distinct(all), MaxFonts));
  }

  /** The family of each `font-family:` capture, in page order. */
  function Families(declarations: seq<string>): seq<string>
  {
    seq(|declarations|, k requires 0 <= k < |declarations| => FontFamilyOf(declarations[k]))
  }

  /** `.filter(f => f.length > 0)`. */
  function NonEmptyOnly(xs: seq<string>): (r: seq<string>)
    ensures |r| <= |xs|
    ensures forall x :: x in r <==> x in xs && x != ""
    ensures NoDuplicates(xs) ==> NoDuplicates(r)
  {
    if xs == [] then []
    else
      var rest := NonEmptyOnly(xs[1..]);
      assert NoDuplicates(xs) ==> xs[0] !in xs[1..] && NoDuplicates(xs[1..]);
      if xs[0] != "" then [xs[0]] + rest else rest
  }

  /** The font loop: add the family of each capture to a Set while it holds
      fewer than ten. */
  method CollectFontSet(declarations: seq<string>) returns (fonts: seq<string>)
    ensures fonts == Take(Distinct(Families(declarations)), MaxFonts)
  {
    fonts := [];
    var i := 0;
    ghost var all := Families(declarations);
    while i < |declarations| && |fonts| < MaxFonts
      invariant 0 <= i <= |declarations|
      invariant fonts == Distinct(all[..i])
      invariant |fonts| <= MaxFonts
    {
      var family := FontFamilyOf(declarations[i]);
      DistinctStep(all, i);
      if family !in fonts {
        fonts := fonts + [family];
      }
      i := i + 1;
    }
    DistinctPrefix(all, i);
    if i == |declarations| {
      assert all[..i] == all;
    }
  }

  /** The font families of the summary: the Set's contents without the empty name. */
  method CollectFonts(declarations: seq<string>) returns (families: seq<string>)
    ensures families == NonEmptyOnly(Take(Distinct(Families(declarations)), MaxFonts))
    ensures |families| <= MaxFonts && NoDuplicates(families)
    ensures forall k :: 0 <= k < |families| ==> families[k] != "" && families[k] in Families(declarations)
  {
    var fonts := CollectFontSet(declarations);
    TakeDistinct(Families(declarations), MaxFonts);
    families := NonEmptyOnly(fonts);
    forall k | 0 <= k < |families| ensures families[k] != "" && families[k] in Families(declarations) {
      assert families[k] in families;
    }
  }

  /** scrapeWebsite: on a fetched page, the summary built from its matches;
      on any failure, the single error 'Failed to scrape website'. */
  method ScrapeWebsite(url: string, origin: string, fetched: PageFetch) returns (r: Outcome<ScrapedData>)
    ensures r.Err? <==> !fetched.Fetched?
    ensures r.Err? ==> r.message == ScrapeError
    ensures r.Ok? ==> WithinBounds(r.value)
    ensures r.Ok? ==>
              && r.value.url == url
              && r.value.title == CaptureText(fetched.page.titleCapture)
              && r.value.metaDescription == CaptureText(fetched.page.metaCapture)
              && r.value.textContent == Excerpt(fetched.page.strippedText)
              && r.value.imageUrls == Take(Normalized(fetched.page.imageSources, origin), MaxImages)
              && r.value.cssColors == Take(Distinct(fetched.page.colorMatches), MaxColors)
              && r.value.fontFamilies == NonEmptyOnly(Take(Distinct(Families(fetched.page.fontDeclarations)), MaxFonts))
  {
    match fetched
    case FetchFailed(_) =>
      r := Err(ScrapeError);
    case HttpNotOk(_) =>
      r := Err(ScrapeError);
    case Fetched(page) =>
      var title := CaptureText(page.titleCapture);
      var metaDescription := CaptureText(page.metaCapture);
      var textContent := Excerpt(page.strippedText);
      var imageUrls := CollectImageUrls(page.imageSources, origin);
      var cssColors := CollectColors(page.colorMatches);
      var fontFamilies := CollectFonts(page.fontDeclarations);
      r := Ok(ScrapedData(url, title, textContent, imageUrls, cssColors, fontFamilies, metaDescription));
  }
}

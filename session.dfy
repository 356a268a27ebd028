/** The data both frontend flows work on (frontend/src/App.tsx and
    frontend/src/components/BrandAnalyzer.tsx): the brand analysis and carousel
    plan received from the backend, the replies of the backend as the frontend
    reads them, the requests it sends, and the two shared manipulations of a
    plan: finding a slide by number, and merging per-slide image results into
    the image map. */
module Session {
  import opened Common

  datatype Palette = Palette(primary: string, secondary: string, accent: string, background: string)
  datatype Fonts = Fonts(heading: string, body: string)
  datatype BrandIdentity = BrandIdentity(colors: Palette, fonts: Fonts, tone: string, audience: string, industry: string)
  datatype Design = Design(style: string, description: string)

  /** `data.analysis`: a brand identity and a design recommendation. */
  datatype Analysis = Analysis(brandIdentity: BrandIdentity, design: Design)

  /** One carousel slide; an empty `imagePrompt` is a missing `image_generation_prompt`. */
  datatype Slide = Slide(
    slideNumber: int,
    kind: string,
    title: string,
    body: string,
    visualDescription: string,
    imagePrompt: string)

  /** `data.content`: a titled sequence of slides. */
  datatype Plan = Plan(carouselTitle: string, slides: seq<Slide>)

  /** How the frontend reads one backend call: the parsed body has a truthy
      `success` and the payload; or it arrived without `success`, with its
      `error` field ("" when absent); or `fetch` or `response.json()` threw,
      with the Error's message. */
  datatype Reply<+T> = Success(value: T) | Declined(error: string) | Threw(message: string)

  /** The requests the frontend sends, with their JSON bodies' fields. */
  datatype Request =
    | AnalyzeRequest(url: string)
    | RefineIdentityRequest(currentIdentity: Analysis, feedback: string)
    | GenerateContentRequest(brandIdentity: BrandIdentity, topic: string)
    | RefinePlanRequest(currentPlan: Plan, feedback: string)
    | RefineImagePromptRequest(slide: Slide, feedback: string, identity: BrandIdentity)
    | GenerateImageRequest(prompt: string, aspectRatio: string)

  const SquareAspect := "1:1"

  /** `slides.find(s => s.slide_number === n)`: the first slide with that number. */
  function FindSlide(slides: seq<Slide>, n: int): (r: Option<Slide>)
    ensures r.Some? <==> exists i :: 0 <= i < |slides| && slides[i].slideNumber == n
    ensures r.Some? ==> exists i :: 0 <= i < |slides| && slides[i] == r.value && r.value.slideNumber == n
                          && forall j :: 0 <= j < i ==> slides[j].slideNumber != n
  {
    if slides == [] then None
    else if slides[0].slideNumber == n then Some(slides[0])
    else
      var r := FindSlide(slides[1..], n);
      assert forall i :: 1 <= i < |slides| ==> slides[i] == slides[1..][i - 1];
      if r.Some? then
        assert exists i :: 1 <= i < |slides| && slides[i] == r.value && r.value.slideNumber == n
                 && forall j :: 0 <= j < i ==> slides[j].slideNumber != n by {
          var i :| 0 <= i < |slides[1..]| && slides[1..][i] == r.value && r.value.slideNumber == n
                   && forall j :: 0 <= j < i ==> slides[1..][j].slideNumber != n;
          assert slides[i + 1] == r.value;
          assert forall j :: 1 <= j < i + 1 ==> slides[j] == slides[1..][j - 1];
        }
        r
      else r
  }

  /** `slides.map(s => s.slide_number === n ? { ...s, image_generation_prompt: p } : s)`. */
  function WithPrompt(slides: seq<Slide>, n: int, p: string): (r: seq<Slide>)
    ensures |r| == |slides|
    ensures forall i :: 0 <= i < |r| ==> r[i].slideNumber == slides[i].slideNumber
    ensures forall i :: 0 <= i < |r| && slides[i].slideNumber == n ==> r[i].imagePrompt == p
    ensures forall i :: 0 <= i < |r| && slides[i].slideNumber != n ==> r[i] == slides[i]
  {
    seq(|slides|, i requires 0 <= i < |slides| => if slides[i].slideNumber == n then slides[i].(imagePrompt := p) else slides[i])
  }

  /** Setting a slide's prompt touches that one field of the slides with that
      number and nothing else: the order, the numbers and every other field
      stay as they were. */
  lemma WithPromptChangesOnlyThePrompt(slides: seq<Slide>, n: int, p: string)
    ensures |WithPrompt(slides, n, p)| == |slides|
    ensures forall i :: 0 <= i < |slides| ==>
              var s, t := slides[i], WithPrompt(slides, n, p)[i];
              && t.slideNumber == s.slideNumber && t.kind == s.kind && t.title == s.title
              && t.body == s.body && t.visualDescription == s.visualDescription
              && t.imagePrompt == (if s.slideNumber == n then p else s.imagePrompt)
  {
  }

  /** After the update, looking the slide up finds the same slide with the new
      prompt, and every other number still finds what it found before. */
  lemma {:induction false} FindAfterWithPrompt(slides: seq<Slide>, n: int, p: string, m: int)
    ensures FindSlide(slides, n).Some? ==> FindSlide(WithPrompt(slides, n, p), n) == Some(FindSlide(slides, n).value.(imagePrompt := p))
    ensures FindSlide(slides, n).None? ==> FindSlide(WithPrompt(slides, n, p), n).None?
    ensures m != n ==> FindSlide(WithPrompt(slides, n, p), m) == FindSlide(slides, m)
    decreases |slides|
  {
    if slides != [] {
      var w := WithPrompt(slides, n, p);
      assert w[1..] == WithPrompt(slides[1..], n, p);
      FindAfterWithPrompt(slides[1..], n, p, m);
    }
  }

  /** `Promise.all` rejects as soon as one slide's call throws, so the merge needs every call to have answered. */
  predicate AnyThrew<T>(replies: seq<Reply<T>>)
  {
    exists i :: 0 <= i < |replies| && replies[i].Threw?
  }

  /** The `{ slide_number, image }` a successful slide contributes. */
  datatype SlideImage = SlideImage(slideNumber: int, image: string)

  /** `newImages` after the `forEach` over the first results: each successful
      slide writes its image under its number, later writes winning. */
  function Collected(results: seq<Option<SlideImage>>): map<int, string>
  {
    if results == [] then map[]
    else
      var m := Collected(results[..|results| - 1]);
      match results[|results| - 1]
      case Some(r) => m[r.slideNumber := r.image]
      case None => m
  }

  /** Exactly the numbers of successful slides are written. */
  lemma {:induction false} CollectedKeys(results: seq<Option<SlideImage>>)
    ensures forall k :: k in Collected(results) <==>
              exists i :: 0 <= i < |results| && results[i].Some? && results[i].value.slideNumber == k
    decreases |results|
  {
    if results != [] {
      var init := results[..|results| - 1];
      CollectedKeys(init);
      forall k | k in Collected(results)
        ensures exists i :: 0 <= i < |results| && results[i].Some? && results[i].value.slideNumber == k
      {
        if k in Collected(init) {
          var i :| 0 <= i < |init| && init[i].Some? && init[i].value.slideNumber == k;
          assert results[i] == init[i];
        }
      }
      forall k, i | 0 <= i < |results| && results[i].Some? && results[i].value.slideNumber == k
        ensures k in Collected(results)
      {
        if i < |init| {
          assert init[i] == results[i];
        }
      }
    }
  }

  /** The image under a number is that of the last successful slide with that number. */
  lemma {:induction false} CollectedLastWins(results: seq<Option<SlideImage>>, i: int)
    requires 0 <= i < |results| && results[i].Some?
    requires forall j :: i < j < |results| && results[j].Some? ==> results[j].value.slideNumber != results[i].value.slideNumber
    ensures results[i].value.slideNumber in Collected(results)
    ensures Collected(results)[results[i].value.slideNumber] == results[i].value.image
    decreases |results|
  {
    if i < |results| - 1 {
      var init := results[..|results| - 1];
      assert init[i] == results[i];
      CollectedLastWins(init, i);
    }
  }

  /** The `forEach` that fills `newImages` from the per-slide results. */
  method CollectNewImages(results: seq<Option<SlideImage>>) returns (newImages: map<int, string>)
    ensures newImages == Collected(results)
  {
    newImages := map[];
    for i := 0 to |results|
      invariant newImages == Collected(results[..i])
    {
      assert results[..i + 1][..i] == results[..i];
      match results[i]
      case Some(r) =>
        newImages := newImages[r.slideNumber := r.image];
      case None =>
    }
    assert results[..|results|] == results;
  }

  /** `{ ...prev, ...newImages }`: the old map overlaid with the successful
      slides; a number no successful slide carries keeps its old entry, or stays
      absent. */
  lemma MergeKeepsUnwritten(prev: map<int, string>, results: seq<Option<SlideImage>>, k: int)
    ensures k in prev + Collected(results) <==>
              k in prev || exists i :: 0 <= i < |results| && results[i].Some? && results[i].value.slideNumber == k
    ensures (forall i :: 0 <= i < |results| && results[i].Some? ==> results[i].value.slideNumber != k) ==>
              (k in prev <==> k in prev + Collected(results))
              && (k in prev ==> (prev + Collected(results))[k] == prev[k])
  {
    CollectedKeys(results);
  }
}

/** The single-page flow of frontend/src/components/BrandAnalyzer.tsx: one
    screen holding the URL and topic inputs, the analysis, the generated
    carousel, the slide images, an error line and three busy flags. Each handler
    takes the backend's replies as parameters and returns the requests it sent. */
module SinglePage {
  import opened Common
  import opened Session

  const AnalysisFailed := "Analysis failed"
  const ContentFailed := "Content generation failed"
  const ImagesFailedPrefix := "Failed to generate images: "

  /** The error line after a call: cleared on success; the backend's `error`,
      or the handler's default, when the reply lacks `success`; the thrown
      Error's message otherwise. */
  function ErrorAfter<T>(reply: Reply<T>, fallback: string): (r: string)
    ensures reply.Success? ==> r == ""
    ensures reply.Declined? ==> r == (if reply.error != "" then reply.error else fallback)
    ensures reply.Threw? ==> r == reply.message
    ensures reply.Declined? && fallback != "" ==> r != ""
  {
    match reply
    case Success(_) => ""
    case Declined(e) => if e != "" then e else fallback
    case Threw(m) => m
  }

  /** The message `Promise.all` rejects with: that of the first slide whose call threw. */
  function FirstThrown<T>(replies: seq<Reply<T>>): (m: string)
    requires AnyThrew(replies)
    ensures exists i :: 0 <= i < |replies| && replies[i].Threw? && replies[i].message == m
                          && forall j :: 0 <= j < i ==> !replies[j].Threw?
  {
    if replies[0].Threw? then replies[0].message
    else
      assert AnyThrew(replies[1..]) by {
        var i :| 0 <= i < |replies| && replies[i].Threw?;
        assert replies[1..][i - 1] == replies[i];
      }
      var m := FirstThrown(replies[1..]);
      assert exists i :: 1 <= i < |replies| && replies[i].Threw? && replies[i].message == m
                         && forall j :: 0 <= j < i ==> !replies[j].Threw? by {
        var i :| 0 <= i < |replies[1..]| && replies[1..][i].Threw? && replies[1..][i].message == m
                 && forall j :: 0 <= j < i ==> !replies[1..][j].Threw?;
        assert replies[i + 1] == replies[1..][i];
        assert forall j :: 1 <= j < i + 1 ==> replies[j] == replies[1..][j - 1];
      }
      m
  }

  /** The line break and indentation before each line of the template literal. */
  const Indent := "\n                        "
  /** The line break and indentation before the closing backtick. */
  const Closing := "\n                    "

  /** The template's first line and the start of its second. */
  const Opening := "Instagram carousel slide background. " + Indent + "Visual concept: "
  /** The end of the second line and the start of the third. */
  const StyleLabel := ". " + Indent + "Style: "
  /** The end of the third line. */
  const StyleEnd := "." + Indent

  /** The template's lines up to the "Overlay Text" line. */
  function TemplateFront(visual: string, style: string): string
  {
    Opening + visual + StyleLabel + style + StyleEnd
  }

  /** The "Overlay Text" line: the title in double quotes. */
  function OverlayLine(title: string): string
  {
    "Overlay Text: \"" + title + "\""
  }

  /** The template's lines after the title. */
  const TemplateBack := "." + Indent + "Typography: Modern, bold, sans-serif." + Indent
                        + "High quality, photorealistic or premium vector art." + Indent
                        + "Do not include any other text, color codes, or UI elements."

  /** The template's text between its opening and closing indentation. */
  function TemplateBody(visual: string, style: string, title: string): string
  {
    TemplateFront(visual, style) + OverlayLine(title) + TemplateBack
  }

  /** The fallback prompt literal before `.trim()`: seven indented lines, the
      fourth of which puts the title in double quotes after "Overlay Text: ". */
  function RawTemplate(visual: string, style: string, title: string): string
  {
    Indent + TemplateBody(visual, style, title) + Closing
  }

  /** The template's text neither starts nor ends with white space. */
  lemma BodyEnds(visual: string, style: string, title: string)
    ensures var b := TemplateBody(visual, style, title); b != [] && !IsJsSpace(b[0]) && !IsJsSpace(b[|b| - 1])
  {
    var b := TemplateBody(visual, style, title);
    assert Opening[0] == 'I';
    assert b[0] == Opening[0];
    assert TemplateBack[|TemplateBack| - 1] == '.';
    assert b[|b| - 1] == TemplateBack[|TemplateBack| - 1];
  }

  lemma IndentIsSpace()
    ensures forall k :: 0 <= k < |Indent| ==> IsJsSpace(Indent[k])
    ensures forall k :: 0 <= k < |Closing| ==> IsJsSpace(Closing[k])
  {
  }

  /** The fallback prompt of a slide without one: the trimmed template, whose
      "Overlay Text" line carries the title in double quotes, and which carries
      the visual description and the style. */
  function TemplatePrompt(visual: string, style: string, title: string): (r: string)
    ensures r == TemplateBody(visual, style, title)
    ensures Contains(r, OverlayLine(title))
    ensures Contains(r, visual) && Contains(r, style)
  {
    var front := TemplateFront(visual, style);
    var body := TemplateBody(visual, style, title);
    IndentIsSpace();
    BodyEnds(visual, style, title);
    TrimPadded(Indent, body, Closing);
    ContainsTwo(Opening, visual, StyleLabel, style, StyleEnd);
    ContainsMiddle(front, OverlayLine(title), TemplateBack);
    ContainsInConcat(front, OverlayLine(title), visual);
    ContainsInConcat(front + OverlayLine(title), TemplateBack, visual);
    ContainsInConcat(front, OverlayLine(title), style);
    ContainsInConcat(front + OverlayLine(title), TemplateBack, style);
    Trim(RawTemplate(visual, style, title))
  }

  /** The prompt of one slide: its own image prompt when it has one, the trimmed template otherwise. */
  function SlidePrompt(slide: Slide, style: string): (r: string)
    ensures slide.imagePrompt != "" ==> r == slide.imagePrompt
    ensures slide.imagePrompt == "" ==> r == TemplatePrompt(slide.visualDescription, style, slide.title)
    ensures slide.imagePrompt == "" ==> Contains(r, OverlayLine(slide.title))
  {
    if slide.imagePrompt != "" then slide.imagePrompt else TemplatePrompt(slide.visualDescription, style, slide.title)
  }

  /** What each slide's async callback resolves to: `{ slide_number, image }`
      when the reply has `success` and a non-empty image, `null` otherwise. */
  function SlideResults(slides: seq<Slide>, replies: seq<Reply<string>>): seq<Option<SlideImage>>
    requires |replies| == |slides|
  {
    seq(|slides|, i requires 0 <= i < |slides| =>
      if replies[i].Success? && replies[i].value != "" then Some(SlideImage(slides[i].slideNumber, replies[i].value)) else None)
  }

  /** A slide number that no slide with a successful non-empty image carries
      keeps its previous image, or stays without one: an empty image never
      overwrites. */
  lemma MergeKeepsSlidesWithoutImage(prev: map<int, string>, slides: seq<Slide>, replies: seq<Reply<string>>, k: int)
    requires |replies| == |slides|
    ensures (forall i :: 0 <= i < |slides| && slides[i].slideNumber == k ==> !(replies[i].Success? && replies[i].value != "")) ==>
              (k in prev + Collected(SlideResults(slides, replies)) <==> k in prev)
              && (k in prev ==> (prev + Collected(SlideResults(slides, replies)))[k] == prev[k])
  {
    MergeKeepsUnwritten(prev, SlideResults(slides, replies), k);
  }

  /** Every image the merge writes is a non-empty image some slide received under its number. */
  lemma MergedImagesAreNonEmpty(prev: map<int, string>, slides: seq<Slide>, replies: seq<Reply<string>>, k: int)
    requires |replies| == |slides|
    ensures k in Collected(SlideResults(slides, replies)) ==>
              (prev + Collected(SlideResults(slides, replies)))[k] != ""
  {
    var results := SlideResults(slides, replies);
    if k in Collected(results) {
      CollectedKeys(results);
      var i :| 0 <= i < |results| && results[i].Some? && results[i].value.slideNumber == k;
      var last := LastWriterExists(results, k, i);
      CollectedLastWins(results, last);
    }
  }

  /** The last position at or after `i` whose result carries number `k`. */
  lemma {:induction false} LastWriterExists(results: seq<Option<SlideImage>>, k: int, i: int)
    returns (last: int)
    requires 0 <= i < |results| && results[i].Some? && results[i].value.slideNumber == k
    ensures i <= last < |results| && results[last].Some? && results[last].value.slideNumber == k
    ensures forall j :: last < j < |results| && results[j].Some? ==> results[j].value.slideNumber != k
    decreases |results| - i
  {
    if j :| i < j < |results| && results[j].Some? && results[j].value.slideNumber == k {
      last := LastWriterExists(results, k, j);
    } else {
      last := i;
    }
  }

  /** The screen's state. */
  class BrandAnalyzer {
    var url: string
    var topic: string
    var analyzing: bool
    var generating: bool
    var generatingImages: bool
    var result: Option<Analysis>
    var content: Option<Plan>
    var error: string
    var images: map<int, string>

    constructor()
      ensures url == "" && topic == "" && !analyzing && !generating && !generatingImages
      ensures result == None && content == None && error == "" && images == map[]
    {
      url, topic := "", "";
      analyzing, generating, generatingImages := false, false, false;
      result, content := None, None;
      error := "";
      images := map[];
    }

    /** The URL input's `onChange`. */
    method SetUrl(u: string)
      modifies this
      ensures url == u
      ensures topic == old(topic) && result == old(result) && content == old(content)
      ensures error == old(error) && images == old(images)
      ensures analyzing == old(analyzing) && generating == old(generating) && generatingImages == old(generatingImages)
    {
      url := u;
    }

    /** The topic input's `onChange`. */
    method SetTopic(t: string)
      modifies this
      ensures topic == t
      ensures url == old(url) && result == old(result) && content == old(content)
      ensures error == old(error) && images == old(images)
      ensures analyzing == old(analyzing) && generating == old(generating) && generatingImages == old(generatingImages)
    {
      topic := t;
    }

    /** handleAnalyze: nothing without a URL; otherwise clears the error, the
      carousel and the images, sends the URL, and stores the analysis on
      success or the error message otherwise, keeping the previous analysis. */
    method Analyze(reply: Reply<Analysis>) returns (calls: seq<Request>)
      modifies this
      ensures old(url) == "" ==> calls == [] && result == old(result) && content == old(content)
                                 && error == old(error) && images == old(images) && analyzing == old(analyzing)
      ensures old(url) != "" ==>
                && calls == [AnalyzeRequest(old(url))]
                && content == None && images == map[]
                && result == (if reply.Success? then Some(reply.value) else old(result))
                && error == ErrorAfter(reply, AnalysisFailed)
                && !analyzing
      ensures url == old(url) && topic == old(topic)
      ensures generating == old(generating) && generatingImages == old(generatingImages)
    {
      calls := [];
      if url == "" {
        return;
      }
      analyzing := true;
      error := "";
      content := None;
      images := map[];
      calls := [AnalyzeRequest(url)];
      match reply {
        case Success(analysis) =>
          result := Some(analysis);
        case Declined(e) =>
          error := if e != "" then e else AnalysisFailed;
        case Threw(m) =>
          error := m;
      }
      analyzing := false;
    }

    /** handleGenerateContent: nothing without an analysis; otherwise clears
      the error and the images (not the carousel), sends the brand identity
      and the topic, and stores the carousel on success. */
    method GenerateContent(reply: Reply<Plan>) returns (calls: seq<Request>)
      modifies this
      ensures old(result).None? ==> calls == [] && content == old(content)
                                    && error == old(error) && images == old(images) && generating == old(generating)
      ensures old(result).Some? ==>
                && calls == [GenerateContentRequest(old(result).value.brandIdentity, old(topic))]
                && images == map[]
                && content == (if reply.Success? then Some(reply.value) else old(content))
                && error == ErrorAfter(reply, ContentFailed)
                && !generating
      ensures url == old(url) && topic == old(topic) && result == old(result)
      ensures analyzing == old(analyzing) && generatingImages == old(generatingImages)
    {
      calls := [];
      if result.None? {
        return;
      }
      generating := true;
      error := "";
      images := map[];
      calls := [GenerateContentRequest(result.value.brandIdentity, topic)];
      match reply {
        case Success(plan) =>
          content := Some(plan);
        case Declined(e) =>
          error := if e != "" then e else ContentFailed;
        case Threw(m) =>
          error := m;
      }
      generating := false;
    }

    /** handleGenerateImages: nothing without both a carousel and an analysis;
      otherwise one image request per slide; when no call throws, the slides
      with a non-empty image are laid over the previous map; when one throws,
      the map is kept and the error line names the failure. */
    method GenerateImages(replies: seq<Reply<string>>) returns (calls: seq<Request>)
      requires content.Some? ==> |replies| == |content.value.slides|
      modifies this
      ensures old(content).None? || old(result).None? ==>
                calls == [] && images == old(images) && error == old(error) && generatingImages == old(generatingImages)
      ensures old(content).Some? && old(result).Some? ==>
                && |calls| == |old(content).value.slides|
                && (forall i :: 0 <= i < |calls| ==>
                      calls[i] == GenerateImageRequest(SlidePrompt(old(content).value.slides[i], old(result).value.design.style), SquareAspect))
                && (AnyThrew(replies) ==> images == old(images) && error == ImagesFailedPrefix + FirstThrown(replies))
                && (!AnyThrew(replies) ==> images == old(images) + Collected(SlideResults(old(content).value.slides, replies)) && error == "")
                && !generatingImages
      ensures url == old(url) && topic == old(topic) && result == old(result) && content == old(content)
      ensures analyzing == old(analyzing) && generating == old(generating)
    {
      calls := [];
      if content.None? || result.None? {
        return;
      }
      generatingImages := true;
      error := "";
      var slides := content.value.slides;
      var style := result.value.design.style;
      calls := seq(|slides|, i requires 0 <= i < |slides| => GenerateImageRequest(SlidePrompt(slides[i], style), SquareAspect));
      if AnyThrew(replies) {
        error := ImagesFailedPrefix + FirstThrown(replies);
      } else {
        var newImages := CollectNewImages(SlideResults(slides, replies));
        images := images + newImages;
      }
      generatingImages := false;
    }
  }
}

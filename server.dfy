/** The HTTP handlers of backend/src/index.ts: each endpoint checks the
    required fields of the request body, calls its service once, and shapes the
    reply. A missing field gives status 400 with `{ error }` and no service
    call; a service that throws gives status 500 with `{ success: false, error }`;
    otherwise status 200 with `{ success: true, ... }`. The services (scraping,
    the Gemini calls) are parameters of the handlers: functions from their
    arguments to an outcome, an `Err` being a thrown error and its message. */
module Server {
  import opened Common
  import opened Json
  import Scraper
  import Gemini

  /** What a handler sends: a status code and a JSON body. */
  datatype Response = Response(status: int, body: Json)

  const ImageAspectDefault := "4:5"
  const DataUrlPrefix := "data:image/png;base64,"

  /** `res.status(400).json({ error })`. */
  function Missing(error: string): Response
  {
    Response(400, Obj(map["error" := Str(error)]))
  }

  /** `res.status(500).json({ success: false, error })`. */
  function Failure(error: Json): Response
  {
    Response(500, Obj(map["success" := Bool(false), "error" := error]))
  }

  /** `res.json({ success: true, ... })`; Express answers 200. */
  function Succeeded(fields: map<string, Json>): Response
  {
    Response(200, Obj(fields["success" := Bool(true)]))
  }

  /** The shape every handler's reply has: one of the three statuses, a body
      whose `success` is truthy exactly on 200, and a text `error` otherwise. */
  predicate Shaped(r: Response)
  {
    && (r.status == 200 || r.status == 400 || r.status == 500)
    && (Truthy(Get(r.body, "success")) <==> r.status == 200)
    && (r.status != 200 ==> Get(r.body, "error").Str?)
  }

  /** The three constructors give shaped replies. */
  lemma ConstructorsShaped(error: string, message: string, fields: map<string, Json>)
    ensures Shaped(Missing(error))
    ensures Shaped(Failure(Str(message)))
    ensures Shaped(Succeeded(fields))
  {
    assert Get(Succeeded(fields).body, "success") == Bool(true);
  }

  /** The counts `/api/analyze` reports about the scraped page. */
  function ScrapeSummary(d: Scraper.ScrapedData): Json
  {
    Obj(map[
      "title" := Str(d.title),
      "images_count" := Num(|d.imageUrls|),
      "colors_count" := Num(|d.cssColors|)])
  }

  /** `/api/analyze`: needs `url`; scrapes it, analyses the result with the
      optional `description`, and reports the page summary and the analysis. */
  function Analyze(body: Json, scrape: Json -> Outcome<Scraper.ScrapedData>,
                   analyzeBrand: (Scraper.ScrapedData, Json) -> Outcome<Json>): (r: Response)
    ensures Shaped(r)
    ensures r.status == 400 <==> !Truthy(Get(body, "url"))
    ensures r.status == 400 ==> r == Missing("URL is required")
    ensures r.status == 200 <==>
              && Truthy(Get(body, "url"))
              && scrape(Get(body, "url")).Ok?
              && analyzeBrand(scrape(Get(body, "url")).value, Get(body, "description")).Ok?
    ensures r.status == 200 ==>
              var d := scrape(Get(body, "url")).value;
              && Get(r.body, "scraped_data") == ScrapeSummary(d)
              && Get(Get(r.body, "scraped_data"), "images_count") == Num(|d.imageUrls|)
              && Get(Get(r.body, "scraped_data"), "colors_count") == Num(|d.cssColors|)
              && Get(r.body, "analysis") == analyzeBrand(d, Get(body, "description")).value
    ensures Truthy(Get(body, "url")) && scrape(Get(body, "url")).Err? ==>
              r == Failure(Str(MessageOr(scrape(Get(body, "url")).message, "Analysis failed")))
    ensures Truthy(Get(body, "url")) && scrape(Get(body, "url")).Ok?
            && analyzeBrand(scrape(Get(body, "url")).value, Get(body, "description")).Err? ==>
              r == Failure(Str(MessageOr(analyzeBrand(scrape(Get(body, "url")).value, Get(body, "description")).message,
                                         "Analysis failed")))
  {
    var url := Get(body, "url");
    if !Truthy(url) then Missing("URL is required")
    else
      match scrape(url)
      case Err(m) => Failure(Str(MessageOr(m, "Analysis failed")))
      case Ok(scrapedData) =>
        match analyzeBrand(scrapedData, Get(body, "description"))
        case Err(m) => Failure(Str(MessageOr(m, "Analysis failed")))
        case Ok(analysis) =>
          Succeeded(map["scraped_data" := ScrapeSummary(scrapedData), "analysis" := analysis])
  }

  /** Without a `url` no service is consulted: the reply is the same whatever
      scraping and analysis would have done. */
  lemma AnalyzeWithoutUrlCallsNothing(body: Json,
                                      scrape1: Json -> Outcome<Scraper.ScrapedData>, scrape2: Json -> Outcome<Scraper.ScrapedData>,
                                      analyze1: (Scraper.ScrapedData, Json) -> Outcome<Json>,
                                      analyze2: (Scraper.ScrapedData, Json) -> Outcome<Json>)
    requires !Truthy(Get(body, "url"))
    ensures Analyze(body, scrape1, analyze1) == Analyze(body, scrape2, analyze2)
    ensures Get(Analyze(body, scrape1, analyze1).body, "error") == Str("URL is required")
  {
  }

  /** `/api/generate-content`: needs `brand_identity`; passes it and `topic` on. */
  function GenerateContent(body: Json, generateCarouselContent: (Json, Json) -> Outcome<Json>): (r: Response)
    ensures Shaped(r)
    ensures r.status == 400 <==> !Truthy(Get(body, "brand_identity"))
    ensures r.status == 400 ==> r == Missing("Brand identity is required")
    ensures r.status == 200 <==>
              Truthy(Get(body, "brand_identity")) && generateCarouselContent(Get(body, "brand_identity"), Get(body, "topic")).Ok?
    ensures r.status == 200 ==>
              Get(r.body, "content") == generateCarouselContent(Get(body, "brand_identity"), Get(body, "topic")).value
    ensures r.status == 500 ==>
              r == Failure(Str(MessageOr(generateCarouselContent(Get(body, "brand_identity"), Get(body, "topic")).message,
                                         "Content generation failed")))
  {
    var identity := Get(body, "brand_identity");
    if !Truthy(identity) then Missing("Brand identity is required")
    else
      match generateCarouselContent(identity, Get(body, "topic"))
      case Err(m) => Failure(Str(MessageOr(m, "Content generation failed")))
      case Ok(content) => Succeeded(map["content" := content])
  }

  /** `/api/generate-image`: needs `prompt`; the aspect ratio defaults to 4:5
      and the encoded image comes back as a PNG data URL. */
  function GenerateImage(body: Json, generateImage: (Json, Json) -> Outcome<Json>): (r: Response)
    ensures Shaped(r)
    ensures r.status == 400 <==> !Truthy(Get(body, "prompt"))
    ensures r.status == 400 ==> r == Missing("Prompt is required")
    ensures r.status == 200 <==>
              Truthy(Get(body, "prompt")) && generateImage(Get(body, "prompt"), Or(Get(body, "aspect_ratio"), Str(ImageAspectDefault))).Ok?
    ensures r.status == 200 ==>
              && Get(r.body, "image").Str?
              && StartsWith(Get(r.body, "image").s, DataUrlPrefix)
              && Get(r.body, "image").s[|DataUrlPrefix|..]
                 == Text(generateImage(Get(body, "prompt"), Or(Get(body, "aspect_ratio"), Str(ImageAspectDefault))).value)
    ensures r.status == 500 ==>
              r == Failure(Str(MessageOr(generateImage(Get(body, "prompt"), Or(Get(body, "aspect_ratio"), Str(ImageAspectDefault))).message,
                                         "Image generation failed")))
  {
    var prompt := Get(body, "prompt");
    if !Truthy(prompt) then Missing("Prompt is required")
    else
      match generateImage(prompt, Or(Get(body, "aspect_ratio"), Str(ImageAspectDefault)))
      case Err(m) => Failure(Str(MessageOr(m, "Image generation failed")))
      case Ok(imageBase64) =>
        var image := DataUrlPrefix + Text(imageBase64);
        assert image[..|DataUrlPrefix|] == DataUrlPrefix;
        Succeeded(map["image" := Str(image)])
  }

  /** An image request without an aspect ratio asks the service for 4:5. */
  lemma ImageAspectDefaults(prompt: Json, generateImage: (Json, Json) -> Outcome<Json>)
    requires Truthy(prompt) && generateImage(prompt, Str(ImageAspectDefault)).Ok?
    ensures GenerateImage(Obj(map["prompt" := prompt]), generateImage)
            == Succeeded(map["image" := Str(DataUrlPrefix + Text(generateImage(prompt, Str(ImageAspectDefault)).value))])
  {
    var body := Obj(map["prompt" := prompt]);
    assert Get(body, "aspect_ratio") == Undefined;
  }

  /** With the image service of gemini.ts and no API key configured, a valid
      image request fails with status 500 and the service's own message. */
  lemma ImageWithoutApiKey(body: Json, reply: Gemini.ImagenReply)
    requires Truthy(Get(body, "prompt"))
    ensures GenerateImage(body, (p: Json, a: Json) => Gemini.GenerateImage("", reply)) == Failure(Str("API Key is missing"))
  {
  }

  /** With a configured key and an answer carrying the encoded image, the
      endpoint returns that image as a data URL. */
  lemma ImageFromService(body: Json, apiKey: string, data: Json)
    requires Truthy(Get(body, "prompt")) && apiKey != ""
    requires Truthy(Gemini.ImageField(data))
    ensures GenerateImage(body, (p: Json, a: Json) => Gemini.GenerateImage(apiKey, Gemini.Answered(data)))
            == Succeeded(map["image" := Str(DataUrlPrefix + Text(Gemini.ImageField(data)))])
  {
  }

  /** With a configured key and a `null` answer body, the endpoint reports the
      TypeError of reading `predictions` from it. */
  lemma ImageFromNullBody(body: Json, apiKey: string)
    requires Truthy(Get(body, "prompt")) && apiKey != ""
    ensures GenerateImage(body, (p: Json, a: Json) => Gemini.GenerateImage(apiKey, Gemini.Answered(Null)))
            == Failure(Str("Cannot read properties of null (reading 'predictions')"))
  {
    var message := PropertyReadError(Null, "predictions");
    assert message == "Cannot read properties of null (reading 'predictions')";
    assert Gemini.GenerateImage(apiKey, Gemini.Answered(Null)) == Err(message);
  }

  /** `/api/refine-identity`: needs `current_identity` and `feedback`; a failure
      reports the error's message as it is. */
  function RefineIdentity(body: Json, refineBrandIdentity: (Json, Json) -> Outcome<Json>): (r: Response)
    ensures Shaped(r)
    ensures r.status == 400 <==> !Truthy(Get(body, "current_identity")) || !Truthy(Get(body, "feedback"))
    ensures r.status == 400 ==> r == Missing("Identity and feedback are required")
    ensures r.status == 200 <==>
              && Truthy(Get(body, "current_identity")) && Truthy(Get(body, "feedback"))
              && refineBrandIdentity(Get(body, "current_identity"), Get(body, "feedback")).Ok?
    ensures r.status == 200 ==>
              Get(r.body, "refined_identity") == refineBrandIdentity(Get(body, "current_identity"), Get(body, "feedback")).value
    ensures r.status == 500 ==>
              r == Failure(Str(refineBrandIdentity(Get(body, "current_identity"), Get(body, "feedback")).message))
  {
    var identity, feedback := Get(body, "current_identity"), Get(body, "feedback");
    if !Truthy(identity) || !Truthy(feedback) then Missing("Identity and feedback are required")
    else
      match refineBrandIdentity(identity, feedback)
      case Err(m) => Failure(Str(m))
      case Ok(refined) => Succeeded(map["refined_identity" := refined])
  }

  /** `/api/refine-plan`: needs `current_plan` and `feedback`. */
  function RefinePlan(body: Json, refineCarouselContent: (Json, Json) -> Outcome<Json>): (r: Response)
    ensures Shaped(r)
    ensures r.status == 400 <==> !Truthy(Get(body, "current_plan")) || !Truthy(Get(body, "feedback"))
    ensures r.status == 400 ==> r == Missing("Plan and feedback are required")
    ensures r.status == 200 <==>
              && Truthy(Get(body, "current_plan")) && Truthy(Get(body, "feedback"))
              && refineCarouselContent(Get(body, "current_plan"), Get(body, "feedback")).Ok?
    ensures r.status == 200 ==>
              Get(r.body, "refined_plan") == refineCarouselContent(Get(body, "current_plan"), Get(body, "feedback")).value
    ensures r.status == 500 ==>
              r == Failure(Str(refineCarouselContent(Get(body, "current_plan"), Get(body, "feedback")).message))
  {
    var plan, feedback := Get(body, "current_plan"), Get(body, "feedback");
    if !Truthy(plan) || !Truthy(feedback) then Missing("Plan and feedback are required")
    else
      match refineCarouselContent(plan, feedback)
      case Err(m) => Failure(Str(m))
      case Ok(refined) => Succeeded(map["refined_plan" := refined])
  }

  /** `/api/refine-image-prompt`: needs `slide`, `feedback` and `brand_identity`;
      replies with the service result's `new_image_generation_prompt`. Reading
      that field of a `null` result throws, which also ends in status 500. */
  function RefineImagePrompt(body: Json, refineImagePrompt: (Json, Json, Json) -> Outcome<Json>): (r: Response)
    ensures Shaped(r)
    ensures r.status == 400 <==>
              !Truthy(Get(body, "slide")) || !Truthy(Get(body, "feedback")) || !Truthy(Get(body, "brand_identity"))
    ensures r.status == 400 ==> r == Missing("Slide, feedback, and brand identity are required")
    ensures r.status == 200 <==>
              && Truthy(Get(body, "slide")) && Truthy(Get(body, "feedback")) && Truthy(Get(body, "brand_identity"))
              && refineImagePrompt(Get(body, "slide"), Get(body, "feedback"), Get(body, "brand_identity")).Ok?
              && !refineImagePrompt(Get(body, "slide"), Get(body, "feedback"), Get(body, "brand_identity")).value.Null?
              && !refineImagePrompt(Get(body, "slide"), Get(body, "feedback"), Get(body, "brand_identity")).value.Undefined?
    ensures r.status == 200 ==>
              Get(r.body, "new_prompt")
              == Get(refineImagePrompt(Get(body, "slide"), Get(body, "feedback"), Get(body, "brand_identity")).value,
                     "new_image_generation_prompt")
    ensures r.status != 400 && refineImagePrompt(Get(body, "slide"), Get(body, "feedback"), Get(body, "brand_identity")).Err? ==>
              r == Failure(Str(refineImagePrompt(Get(body, "slide"), Get(body, "feedback"), Get(body, "brand_identity")).message))
    ensures r.status != 400 && refineImagePrompt(Get(body, "slide"), Get(body, "feedback"), Get(body, "brand_identity")).Ok? ==>
              var result := refineImagePrompt(Get(body, "slide"), Get(body, "feedback"), Get(body, "brand_identity")).value;
              (result.Null? || result.Undefined?) ==> r == Failure(Str(PropertyReadError(result, "new_image_generation_prompt")))
  {
    var slide, feedback, identity := Get(body, "slide"), Get(body, "feedback"), Get(body, "brand_identity");
    if !Truthy(slide) || !Truthy(feedback) || !Truthy(identity) then
      Missing("Slide, feedback, and brand identity are required")
    else
      match refineImagePrompt(slide, feedback, identity)
      case Err(m) => Failure(Str(m))
      case Ok(result) =>
        if result.Null? || result.Undefined? then Failure(Str(PropertyReadError(result, "new_image_generation_prompt")))
        else Succeeded(map["new_prompt" := Get(result, "new_image_generation_prompt")])
  }

  /** A request without feedback is refused with a 400 by all three refinement
      endpoints, whatever the services would do. */
  lemma RefineNeedsFeedback(body: Json,
                              refineBrandIdentity: (Json, Json) -> Outcome<Json>,
                              refineCarouselContent: (Json, Json) -> Outcome<Json>,
                              refineImagePrompt: (Json, Json, Json) -> Outcome<Json>)
    requires !Truthy(Get(body, "feedback"))
    ensures RefineIdentity(body, refineBrandIdentity).status == 400
    ensures RefinePlan(body, refineCarouselContent).status == 400
    ensures RefineImagePrompt(body, refineImagePrompt).status == 400
  {
  }
}

# genie: a Dafny model of the brand-to-carousel pipeline

genie turns a website into an Instagram carousel. The backend scrapes the
page and asks Gemini for a brand identity and a slide plan. Gemini also
refines that identity, the plan and the per-slide image prompts, and Imagen
draws the slides. Two frontends drive the backend:

- a four-step wizard (`App.tsx` with its carousel editor);
- an older single-page screen (`BrandAnalyzer.tsx`).

The project models:

- **Common** (`common.dfy`): the helpers every part uses.
  - Results (`Option`, `Outcome`).
  - JavaScript's `trim` over the ECMAScript white-space set.
  - `slice(0, n)`, prefix tests, substring containment, "no duplicates".
- **Json** (`json.dfy`): JavaScript values as they appear in request and response bodies. It covers truthiness, `?.`, `||` and the text a value becomes inside a template literal.
- **Gemini** (`gemini.dfy`): the pure parts of `backend/src/services/gemini.ts`.
  - The code-fence cleanup of model answers.
  - The shared error handling.
  - The default topic, and the style and colour fallbacks.
  - `generateImage`'s key check and response extraction.
- **Scraper** (`scraper.dfy`): the lightweight scraper `api/scraper.ts`.
  - Title, meta description and text excerpt.
  - The three bounded `while` loops that collect image URLs, distinct colours and distinct font families.
  - The single failure message.
- **Server** (`server.dfy`): the Express handlers of `backend/src/index.ts`. Each one is a function from the request body and the service outcomes to a status and a JSON body.
- **Session** (`session.dfy`): the data both frontends exchange with the backend.
  - Analysis, plan and slides.
  - The requests they send, and how they read a reply.
  - Finding a slide by number and rewriting its prompt.
  - The image merge (`forEach` into `newImages`, then `{ ...prev, ...newImages }`).
- **Wizard** (`wizard.dfy`): `App.tsx` as a class `App`. Its fields are the React state. Its handlers are methods that return the requests they issued and the alert they raised. It also covers step moves, along with the runs of the wizard.
- **SinglePage** (`single_page.dfy`): `BrandAnalyzer.tsx` as a class `BrandAnalyzer`, including its trimmed fallback prompt template.
- **Editor** (`editor.dfy`): `CarouselEditor.tsx` as a class `CarouselEditor`: slide navigation, the AI edit, the edit button's enabling and the generate button's label.

Services and I/O are parameters:

- A backend handler receives each service as a function from its arguments to an `Outcome`. An `Err` is a thrown error with its message.
- A frontend method receives the backend's reply as a `Reply`: `Success` with the payload, `Declined` with the `error` field, or `Threw` with the message of a failed `fetch` or body parse.
- `Promise.all` over the slides is a sequence of per-slide replies, merged in one step. One thrown reply rejects the whole batch.

## Model

| member | source | states |
|---|---|---|
| Common.TrimStart | api/scraper.ts:31 | the result is a suffix of the input; everything dropped is ECMAScript white space; the result does not start with white space |
| Common.TrimEnd | api/scraper.ts:31 | the result is a prefix of the input; everything dropped is white space; the result does not end with white space |
| Common.TrimIsSlice | api/scraper.ts:35 | `trim` returns a contiguous slice of its input, and that slice neither starts nor ends with white space |
| Common.TrimCuts | api/scraper.ts:31 | `trim` cuts its input at two points: the result is the slice between them, and everything before the first point and from the second point on is white space |
| Common.TrimIdempotent | backend/src/services/gemini.ts:71 | trimming twice gives the same text as trimming once |
| Common.BlankIffAllSpace | frontend/src/components/steps/CarouselEditor.tsx:31 | `text.trim()` is empty exactly when every character is white space |
| Common.TrimPadded | frontend/src/components/BrandAnalyzer.tsx:121-131 | trimming text padded on both sides with white space, whose own ends are not white space, gives back that text |
| Common.Take | api/scraper.ts:44 | `slice(0, n)` is the prefix of length min(n, length): the whole input when it is short enough, exactly n elements otherwise |
| Common.MessageOr | backend/src/index.ts:47 | `error.message \|\| fallback` is the message when it is non-empty and the fallback when it is empty, so it is non-empty whenever either one is |
| Json.OrLaws | backend/src/services/gemini.ts:258-259 | `a \|\| b` is one of its operands; it is truthy exactly when either operand is; a falsy left operand gives the right one; it is associative and idempotent, so a chain of fallbacks is tried in order |
| Gemini.RemoveAllAbsent | backend/src/services/gemini.ts:71 | removing a pattern that does not occur changes nothing |
| Gemini.RemoveAllFenceLeavesNone | backend/src/services/gemini.ts:71 | after removing every "```", no "```" is left, including ones the removals bring together |
| Gemini.CleanFence | backend/src/services/gemini.ts:71 | the cleaned answer neither starts nor ends with white space |
| Gemini.CleanFenceRemovesFences | backend/src/services/gemini.ts:71 | the cleaned model answer contains no code fence |
| Gemini.CleanFenceIdempotent | backend/src/services/gemini.ts:71 | cleaning an already-cleaned answer changes nothing |
| Gemini.CleanFenceWithoutBackticks | backend/src/services/gemini.ts:71 | on text without backticks the cleanup is exactly `trim` |
| Gemini.ModelJson | backend/src/services/gemini.ts:70-77 | the operation succeeds exactly when the model answered and the cleaned answer parsed, and then returns the parse; a failed model call fails with its own message, or the operation's default when that is empty; a failed parse of the cleaned answer fails in the same way with the parse error's message; every failure carries a non-empty message |
| Gemini.EffectiveTopic | backend/src/services/gemini.ts:83 | the topic is the given one when it is truthy, otherwise "General brand awareness and value proposition"; it is always truthy |
| Gemini.DesignStyle | backend/src/services/gemini.ts:258 | the style is `design_recommendation.style`, else `style`, else 'modern and professional', each tried in order |
| Gemini.BrandColors | backend/src/services/gemini.ts:259 | the colours are `brand_identity.colors`, else `colors`, else `{}`, each tried in order |
| Gemini.DirectIdentityStyleAndColors | backend/src/services/gemini.ts:254-259 | a bare brand identity with its own colours and no style fields gets the default style and its own colours |
| Gemini.GenerateImage | backend/src/services/gemini.ts:129-194 | with no API key it fails with 'API Key is missing' before any request; it succeeds exactly when the key is set and the answer has a truthy `predictions[0].bytesBase64Encoded`, and returns that value; a thrown call fails with its message or 'Failed to generate image'; a non-ok response fails with 'Image generation failed: ' and its status text and body; a `null` or `undefined` body fails with the TypeError 'Cannot read properties of null (reading 'predictions')' (or of undefined); any other body without image bytes fails with 'No image data found in response'; every failure has a non-empty message |
| Scraper.CaptureText | api/scraper.ts:30-35 | without a match the text is empty; with one it is a contiguous slice of the capture, everything cut off at either end is white space, and the slice has no white space at either end |
| Scraper.Excerpt | api/scraper.ts:38-44 | the excerpt is at most 10000 characters, and it is the leading part of the trimmed text |
| Scraper.NormalizeImageUrl | api/scraper.ts:51-57 | a source is kept exactly when it starts with `http` or `/`, and the kept URL ends with the source |
| Scraper.NormalizeImageUrlCases | api/scraper.ts:51-57 | a source starting with `//` becomes `https:` + source; one starting with `http` is kept; one starting with `/` (not `//`) is prefixed with the page origin; anything else is skipped |
| Scraper.NormalizedIsAbsolute | api/scraper.ts:51-57 | every kept URL starts with `http`, or with the origin followed by `/` |
| Scraper.NormalizedPrefix | api/scraper.ts:49-58 | normalising a prefix of the sources gives a prefix of the normalised list, so the loop's work so far is never revised |
| Scraper.NormalizedFromSources | api/scraper.ts:49-58 | every collected image URL is the normalisation of one of the page's sources |
| Scraper.CollectImageUrls | api/scraper.ts:47-58 | the loop returns the first 10 normalised URLs in page order |
| Scraper.DistinctStep | api/scraper.ts:62-66 | adding a match to the Set appends it exactly when it is new |
| Scraper.DistinctPrefix | api/scraper.ts:62-66 | the de-duplicated prefix is a prefix of the de-duplicated whole, in insertion order |
| Scraper.DistinctIsSet | api/scraper.ts:62-66 | the de-duplicated list has no repeats and the same elements as its input |
| Scraper.TakeDistinct | api/scraper.ts:62-74 | bounding a de-duplicated list keeps it free of repeats and within its input |
| Scraper.CollectColors | api/scraper.ts:61-66 | the loop returns the first 20 distinct colour matches in page order: no repeats, each one a match |
| Scraper.FirstSegment | api/scraper.ts:73 | `split(',')[0]` is the longest comma-free prefix: it contains no comma and stops just before the first comma |
| Scraper.RemoveQuotes | api/scraper.ts:73 | the result has no quote characters and no longer length, every character it keeps comes from the input, and text without quotes is returned unchanged |
| Scraper.RemoveQuotesConcat | api/scraper.ts:73 | removing quotes from a concatenation is removing them from each part and concatenating the results |
| Scraper.FontFamilyOf | api/scraper.ts:73 | a family name contains no comma and no quote |
| Scraper.FirstEntry | api/scraper.ts:73 | for a declaration of leading white space, then an entry that starts with a non-space character and has no comma, then a comma, trimming and taking the first comma-separated segment gives exactly that entry |
| Scraper.FamilyOfPlainName | api/scraper.ts:73 | an unquoted name listed first (`Arial, sans-serif`) is the family, whatever white space comes before it and whatever follows the comma |
| Scraper.FamilyOfCapture | api/scraper.ts:69-73 | a capture of `([^;}"']+)` holds no quote, so the family is the first comma-separated segment of the trimmed capture, and quote removal changes nothing |
| Scraper.BlankCaptureFamily | api/scraper.ts:69-73 | a capture of white space only, such as the `" "` that `font-family: "Open Sans"` yields, gives the empty family |
| Scraper.BlankCaptureTakesSlot | api/scraper.ts:69-83 | a blank first capture puts the empty family in the first of the Set's ten slots; the filter then drops it, so it is not reported and fewer than ten names are |
| Scraper.NonEmptyOnly | api/scraper.ts:83 | the filter keeps exactly the non-empty names, is no longer than its input and keeps "no repeats" |
| Scraper.NonEmptyOnlyDropsBlank | api/scraper.ts:83 | a list that holds the empty name loses at least one element to the filter |
| Scraper.CollectFontSet | api/scraper.ts:69-74 | the loop returns the first 10 distinct family names in page order |
| Scraper.CollectFonts | api/scraper.ts:69-83 | the reported fonts are the 10 distinct families minus the empty ones: at most 10, no repeats, none empty, each a family found on the page |
| Scraper.ScrapeWebsite | api/scraper.ts:20-89 | it fails exactly when the fetch threw or the response was not ok, and then always with 'Failed to scrape website'; otherwise every field is built from the page matches as above, within the bounds |
| Server.ConstructorsShaped | backend/src/index.ts:27-48 | the three kinds of reply (400, 200, 500) have a truthy `success` exactly on 200, and a text `error` otherwise |
| Server.Analyze | backend/src/index.ts:23-50 | 400 'URL is required' exactly when `url` is missing; 200 exactly when scraping and analysis both succeed, reporting the title, image count and colour count of the scraped page and the analysis; a failed scrape gives 500 with the scraper's message or 'Analysis failed'; a failed analysis of a scraped page gives 500 with the analysis error's message or 'Analysis failed' |
| Server.AnalyzeWithoutUrlCallsNothing | backend/src/index.ts:26-28 | without a URL the reply does not depend on the scraper or the analysis at all |
| Server.GenerateContent | backend/src/index.ts:53-74 | 400 'Brand identity is required' exactly when `brand_identity` is missing; 200 with the generated content exactly when generation succeeds; otherwise 500 with the message or 'Content generation failed' |
| Server.GenerateImage | backend/src/index.ts:77-97 | 400 'Prompt is required' exactly when `prompt` is missing; the service is asked for the given aspect ratio, defaulting to 4:5; on success the image is `data:image/png;base64,` followed by the encoded bytes; otherwise 500 with the message or 'Image generation failed' |
| Server.ImageAspectDefaults | backend/src/index.ts:84 | a request with a prompt and no aspect ratio asks the service for 4:5 |
| Server.ImageWithoutApiKey | backend/src/index.ts:84-95 | with the image service and no API key, every valid image request gets 500 'API Key is missing' |
| Server.ImageFromService | backend/src/index.ts:84-89 | with a key and an answer carrying bytes, the endpoint returns those bytes as a PNG data URL |
| Server.ImageFromNullBody | backend/src/index.ts:84-95 | with a key and an Imagen answer whose JSON body is `null`, the endpoint answers 500 with the TypeError message 'Cannot read properties of null (reading 'predictions')' |
| Server.RefineIdentity | backend/src/index.ts:100-113 | 400 'Identity and feedback are required' exactly when either field is missing; 200 with `refined_identity` on success; otherwise 500 with the error's own message |
| Server.RefinePlan | backend/src/index.ts:116-129 | 400 'Plan and feedback are required' exactly when either field is missing; 200 with `refined_plan` on success; otherwise 500 with the error's own message |
| Server.RefineImagePrompt | backend/src/index.ts:132-145 | 400 exactly when any of `slide`, `feedback` or `brand_identity` is missing; 200 exactly when the refinement returned a non-null result, with `new_prompt` set to its `new_image_generation_prompt`; a failed refinement gives 500 with its own message; a `null` or `undefined` result gives 500 with the TypeError 'Cannot read properties of null (reading 'new_image_generation_prompt')' (or of undefined) |
| Server.RefineNeedsFeedback | backend/src/index.ts:103-136 | without feedback all three refinement endpoints answer 400, whatever the services would do |
| Session.FindSlide | frontend/src/App.tsx:99 | `find` succeeds exactly when some slide has the number, and returns the first such slide |
| Session.WithPrompt | frontend/src/App.tsx:121-126 | the `map` keeps the length and every slide number; slides with the number get the new prompt, and the others are unchanged |
| Session.WithPromptChangesOnlyThePrompt | frontend/src/App.tsx:121-126 | the `map` keeps the length, the order and every field except `image_generation_prompt`, which changes only on slides with that number |
| Session.FindAfterWithPrompt | frontend/src/App.tsx:99-127 | after the prompt update, looking up that number finds the same slide with the new prompt, and any other number finds what it found before |
| Session.CollectedKeys | frontend/src/App.tsx:199-202 | `newImages` has a key exactly for the numbers of successful slides |
| Session.CollectedLastWins | frontend/src/App.tsx:199-202 | the image under a number is that of the last successful slide with that number |
| Session.CollectNewImages | frontend/src/App.tsx:199-202 | the `forEach` loop builds exactly the map of successful slides, later writes winning |
| Session.MergeKeepsUnwritten | frontend/src/App.tsx:203 | after `{ ...prev, ...newImages }` a number has an image exactly when it had one or a slide succeeded under it; a number no slide succeeded under keeps its old image |
| Wizard.Ord | frontend/src/App.tsx:8-13 | the steps are numbered 1 to 4 |
| Wizard.StepsInOrder | frontend/src/App.tsx:8-13 | the steps are numbered in the order Input, Identity, Planning, Creative, each with its own number |
| Wizard.TraceMonotone | frontend/src/App.tsx:44-253 | along any run of the wizard the step never goes back |
| Wizard.CreativeAfterEveryStep | frontend/src/App.tsx:238-253 | a run from the input screen to the editor passes through the identity review and the planner |
| Wizard.PlanningAfterIdentity | frontend/src/App.tsx:44-238 | a run from the input screen to the planner passes through the identity review |
| Wizard.App.constructor | frontend/src/App.tsx:16-25 | the wizard starts on the input screen with nothing running, no analysis, no plan and no images, in a valid state |
| Wizard.FallbackPrompt | frontend/src/App.tsx:181-183 | the fallback prompt contains the slide's title in double quotes, its visual description and the brand style |
| Wizard.SlidePrompt | frontend/src/App.tsx:180-184 | a slide is drawn with its own prompt when it has one, otherwise with the fallback, which quotes its title; the prompt is never empty |
| Wizard.MergeKeepsFailedSlides | frontend/src/App.tsx:198-203 | a slide number with no successful call keeps its previous image, or stays without one |
| Wizard.MergeWritesSucceededSlides | frontend/src/App.tsx:198-203 | a successful slide's image is stored under its number unless a later successful slide shares that number |
| Wizard.App.Analyze | frontend/src/App.tsx:30-52 | sends only the URL; on success stores the analysis and moves to the identity review; on a thrown call alerts 'Analysis failed'; nothing else changes |
| Wizard.App.RefineIdentity | frontend/src/App.tsx:54-74 | without an analysis, does nothing; otherwise sends the analysis and feedback, replaces the analysis on success, and alerts as `RefineAlert` says |
| Wizard.App.ConfirmIdentity | frontend/src/App.tsx:238 | moves from identity review to planning, keeping the session |
| Wizard.App.GeneratePlan | frontend/src/App.tsx:152-173 | without an analysis, alerts 'Planning failed' and sends nothing; otherwise sends the brand identity and topic, and stores the plan on success |
| Wizard.App.RefinePlan | frontend/src/App.tsx:76-96 | without a plan, does nothing; otherwise sends the plan and feedback, and replaces the plan on success; images are kept |
| Wizard.App.ConfirmPlan | frontend/src/App.tsx:250-254 | moves from planning to the editor once a plan exists |
| Wizard.App.GenerateImages | frontend/src/App.tsx:175-211 | one 1:1 image request per slide with its prompt; any thrown call alerts 'Image generation failed' and keeps the images; otherwise the images are the old ones overlaid with the successful slides |
| Wizard.App.RefineImage | frontend/src/App.tsx:98-150 | with no such slide or no analysis, does nothing; otherwise refines the prompt unless asked for a plain redraw, writes a refined prompt into the slides with that number, redraws, stores the image under the number on success, and alerts on a failed refinement or a thrown call |
| SinglePage.ErrorAfter | frontend/src/components/BrandAnalyzer.tsx:64-73 | the error is cleared on success; it is the backend's `error` or the fallback on a decline, and the thrown message otherwise |
| SinglePage.FirstThrown | frontend/src/components/BrandAnalyzer.tsx:152-164 | the rejection message is the message of a slide whose call threw |
| SinglePage.BodyEnds | frontend/src/components/BrandAnalyzer.tsx:120-131 | the template's text between its indentation neither starts nor ends with white space |
| SinglePage.TemplatePrompt | frontend/src/components/BrandAnalyzer.tsx:119-131 | the trimmed template is its text without the surrounding indentation, and contains the quoted title line, the visual concept and the style |
| SinglePage.SlidePrompt | frontend/src/components/BrandAnalyzer.tsx:114-132 | a slide is drawn with its own prompt when it has one, otherwise with the trimmed template, which quotes its title |
| SinglePage.MergeKeepsSlidesWithoutImage | frontend/src/components/BrandAnalyzer.tsx:152-161 | a number with no successful non-empty image keeps its previous image, or stays without one |
| SinglePage.MergedImagesAreNonEmpty | frontend/src/components/BrandAnalyzer.tsx:146-161 | every image the merge writes is non-empty, and is what a slide with that number received |
| SinglePage.LastWriterExists | frontend/src/components/BrandAnalyzer.tsx:155-159 | for every written number there is a last slide that wrote it |
| SinglePage.BrandAnalyzer.constructor | frontend/src/components/BrandAnalyzer.tsx:38-47 | the screen starts with an empty URL, topic and error, nothing running, no analysis, no plan and no images |
| SinglePage.BrandAnalyzer.SetUrl | frontend/src/components/BrandAnalyzer.tsx:38 | sets the URL and nothing else |
| SinglePage.BrandAnalyzer.SetTopic | frontend/src/components/BrandAnalyzer.tsx:39 | sets the topic and nothing else |
| SinglePage.BrandAnalyzer.Analyze | frontend/src/components/BrandAnalyzer.tsx:49-76 | with no URL, does nothing; otherwise clears the error, the plan and the images, sends the URL, stores the analysis on success and sets the error as `ErrorAfter` says |
| SinglePage.BrandAnalyzer.GenerateContent | frontend/src/components/BrandAnalyzer.tsx:78-107 | with no analysis, does nothing; otherwise clears the images, sends the identity and topic, stores the plan on success, keeps the old plan otherwise, and sets the error ('Content generation failed' by default) |
| SinglePage.BrandAnalyzer.GenerateImages | frontend/src/components/BrandAnalyzer.tsx:109-168 | with no plan or no analysis, does nothing; otherwise one 1:1 request per slide; a thrown call sets 'Failed to generate images: ' plus the first thrown message and keeps the images; otherwise the images are overlaid with the slides that got a non-empty image |
| Editor.PrevOf | frontend/src/components/steps/CarouselEditor.tsx:22-24 | goes back one slide unless already at slide 1; never goes below 1 |
| Editor.NextOf | frontend/src/components/steps/CarouselEditor.tsx:26-28 | goes forward one slide unless already at the last; never goes past the last |
| Editor.NavigateStaysInRange | frontend/src/components/steps/CarouselEditor.tsx:19-28 | starting on a slide that exists, any sequence of previous/next presses stays within slides 1 to total |
| Editor.PrevUndoesNext | frontend/src/components/steps/CarouselEditor.tsx:22-28 | inside the range, "next" then "previous" returns to the same slide, and so does "previous" then "next" |
| Editor.GenerateLabel | frontend/src/components/steps/CarouselEditor.tsx:255 | the label is 'Regenerate All' exactly when some image exists, otherwise 'Generate Images' |
| Editor.LabelAfterMerge | frontend/src/components/steps/CarouselEditor.tsx:255 | once an image existed, or a generation succeeded for some slide, the label after the merge is 'Regenerate All' |
| Editor.CarouselEditor.constructor | frontend/src/components/steps/CarouselEditor.tsx:14-16 | the editor starts on slide 1 with an empty prompt and no edit running |
| Editor.CarouselEditor.PrevSlide | frontend/src/components/steps/CarouselEditor.tsx:22-24 | steps the slide on show back as `PrevOf` says; the prompt and the flag are unchanged |
| Editor.CarouselEditor.NextSlide | frontend/src/components/steps/CarouselEditor.tsx:26-28 | steps the slide on show forward as `NextOf` says for the carousel's length; nothing else changes |
| Editor.CarouselEditor.SelectSlide | frontend/src/components/steps/CarouselEditor.tsx:127-179 | a thumbnail or dot click shows that slide |
| Editor.CarouselEditor.SetEditPrompt | frontend/src/components/steps/CarouselEditor.tsx:214 | typing replaces the edit prompt and nothing else |
| Editor.CarouselEditor.AIEdit | frontend/src/components/steps/CarouselEditor.tsx:30-36 | a prompt of white space only does nothing; any other prompt asks for an edit of the slide on show with the prompt as feedback, then clears the prompt and the running flag |
| Editor.EditEnabledMeans | frontend/src/components/steps/CarouselEditor.tsx:228 | the edit button is enabled exactly when the prompt holds a non-space character, no edit is running and the slide on show has an image; such a prompt is one AIEdit sends |

Helper members without a row are supporting definitions or proofs:

- the `Contains`/`StartsWith` lemmas and the trim padding lemmas in Common;
- the fence-position lemmas in Gemini;
- the prefix-recursive specification functions (`Normalized`, `Distinct`, `Families`, `Collected`, `Navigate`);
- the map lemmas in Editor;
- the JavaScript value accessors `Json.Get`, `Json.First` and `Json.Or`, which the contracts above are written over;
- the per-step definitions the frontend methods' contracts are written over: `Wizard.RefineAlert`, `Wizard.SlideResults`, `Wizard.RefinedPrompt` and `SinglePage.SlideResults`;
- the steps of the font-family proofs: `Scraper.FirstSegmentAtComma`, `Scraper.TrimKeepsFirstEntry`, `Scraper.BlankFirstInSet`, `Scraper.QuoteFreeTrim` and `Scraper.QuoteFreeFirstSegment`, with `Scraper.IsQuote`, the quote test;
- `Common.Trim`, the composition of `TrimStart` and `TrimEnd`, and `Common.IsJsSpace`, the ECMAScript white-space set;
- in Gemini, `RemoveAll`, the literal global replace whose properties the fence lemmas state, and `ImageField`, the guarded `predictions[0].bytesBase64Encoded` read (gemini.ts:178-180) that `GenerateImage`'s contract is written over;
- in Session, `AnyThrew`, the test for a rejected `Promise.all`;
- in Json, `Text` with `NatText`, `IntText`, `Digit` and `JoinWithCommas`, the text of a value inside a template literal, and `PropertyReadError`, the TypeError message;
- in Server, the reply builders `Missing`, `Failure` and `Succeeded`, stated by `Server.ConstructorsShaped`, and `ScrapeSummary`, the `scraped_data` of the analyze reply;
- in SinglePage, the template pieces `TemplateFront`, `OverlayLine`, `TemplateBody` and `RawTemplate`, with `IndentIsSpace`, stated by `SinglePage.BodyEnds` and `SinglePage.TemplatePrompt`;
- in Wizard, `StepMove` and `IsTrace`, the step relation and the runs over it, stated by `Wizard.TraceMonotone`.

The predicates carry no contract of their own. `Scraper.WithinBounds`, `Server.Shaped` and `Wizard.App.Valid` are stated by the rows above. `Editor.CarouselEditor.EditEnabled`, the edit button's disabled condition (`CarouselEditor.tsx:228`), is stated by `Editor.EditEnabledMeans`.

## Left out

- Network and library code is not modelled: `fetch`, the Gemini SDK, the Imagen REST call, Express, CORS, `listen`, `dotenv` and all `console` logging. Their results are parameters (`Outcome`, `Reply`, `ImagenReply`, `PageFetch`).
- The `/health` endpoint is not modelled. It reports only the clock.
- `new Date()` is not modelled.
- Regular expressions are not modelled. The scraper takes the matches as given, in page order: title and meta captures, the tag-stripped and white-space-collapsed text, `<img src>` captures, colour matches and `font-family` captures. `new URL(url).origin` is a parameter. The `font-family` captures of `/font-family:\s*([^;}"']+)/gi` stop at the first quote, so a quoted first name (`font-family: "Open Sans"`) yields the blank capture `" "`, whose empty family takes a Set slot and is then filtered out (`Scraper.BlankCaptureTakesSlot`). `fontDeclarations` is deliberately left unrestricted, a superset of what the regex can capture; `Scraper.FamilyOfCapture` states what holds for real captures.
- `JSON.parse` is an opaque parse that can fail (the `parse` parameter of `Gemini.ModelJson`).
- `Json.Get` models reads of named keys only: the field of an object, and `undefined` for every other value. Array `length`, prototype properties and getters are not modelled. Where the source reads a property of `null` or `undefined` without `?.`, the contract states the TypeError explicitly instead. `Json.First` models `[0]` on arrays, strings and objects (where it reads the key "0").
- `JSON.stringify` of the reply bodies is not modelled.
- The prompts sent to Gemini are not modelled; only the data flowing in and out matters here.
- The prompt wording of the frontends is kept only as far as the title, visual description and style it carries.
- `backend/src/services/scraper.ts` is not part of this model. It is Puppeteer and DOM code. The analyze handler takes its result as a parameter of the same `ScrapedData` shape.
- Strings are sequences of characters; JavaScript's UTF-16 code units (which `slice(0, 10000)` counts) are not distinguished from characters.
- Json numbers are integers; floating point is not modelled. `Json.Text` writes objects as `[object Object]` and does not model number formatting beyond integers.
- Server.RefineImagePrompt: the TypeError raised by reading a property of a `null` or `undefined` result follows V8's wording, "Cannot read properties of null (reading '…')". Other engines' wording is not modelled. The same holds for Gemini.GenerateImage.
- Server.RefineIdentity: an error that carries no `message` property (a thrown non-Error value) is not distinguished from an empty message. The `error` field is then a text value, not an omitted field. The same holds for Server.RefinePlan and Server.RefineImagePrompt.
- Promise.all's rejection is modelled as the first thrown reply in slide order. The real rejection is whichever slide fails first in time, which is a scheduling matter.
- The busy flags (`analyzing`, `generatingStrat`, `generating`, `generatingImages`, `isEditing`) appear only with their final values. The values they hold while a call is in flight, and the re-renders in between, are not modelled.
- Concurrent handler invocations are not modelled; neither is the await between the editor's edit request and its flag reset.
- Downloads (the DOM-anchor downloads in the editor and the single-page screen), JSX rendering and styling are not modelled. The step, identity-review, planner and input screens appear only through the guards the handlers rely on (required fields, `step`).
- Frontend payloads are typed records (`Analysis`, `Plan`, `Slide`). This assumes the backend answers in the requested shapes; the frontends read them without checks.
- `Wizard.App.Analyze` sends only the URL because `App.tsx` does not forward the description.
- `App.tsx` dereferences `contentPlan.slides` in `handleRefineImage` and `handleGenerateImages`. It does so without a null check, relying on the editor being shown only with a plan. The methods therefore require a plan (`contentPlan.Some?`) rather than modelling a crash.
- The request body of `/api/refine-image-prompt` sent by the wizard carries `brandResult.brand_identity`, which holds no design style. By `Gemini.DirectIdentityStyleAndColors`, the backend then uses the default style. This is modelled as the code does it.
- Refining a plan keeps every stored image, including those of slides the new plan no longer has. The frontends also have no request epochs, cancellation or busy errors. The model follows the code in all of this.
- The async functions of `gemini.ts` other than `generateImage` appear only through their common shape (`Gemini.ModelJson`): they send a prompt, clean the answer, parse it, and rethrow with the original message or a default.

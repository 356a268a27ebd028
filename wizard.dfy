/** The four-step wizard of frontend/src/App.tsx: the session it holds (step,
    brand analysis, carousel plan, slide images, busy flags) and its handlers.
    Each handler takes the backend's replies as parameters and returns the
    requests it sent, in order, and the alert it showed, if any. */
module Wizard {
  import opened Common
  import opened Session

  /** The `WizardStep` enum. */
  datatype Step = Input | Identity | Planning | Creative

  /** The enum's numeric value. */
  function Ord(s: Step): (r: nat)
    ensures 1 <= r <= 4
  {
    match s
    case Input => 1
    case Identity => 2
    case Planning => 3
    case Creative => 4
  }

  /** The steps come in the order of their numbers, one number each. */
  lemma StepsInOrder()
    ensures Ord(Input) < Ord(Identity) < Ord(Planning) < Ord(Creative)
    ensures forall a: Step, b: Step :: Ord(a) == Ord(b) ==> a == b
  {
  }

  /** The only step changes the wizard makes: stay, or go one step forward
      (analysis success, identity confirmation, plan confirmation). */
  predicate StepMove(a: Step, b: Step)
  {
    b == a || (a == Input && b == Identity) || (a == Identity && b == Planning) || (a == Planning && b == Creative)
  }

  predicate IsTrace(steps: seq<Step>)
  {
    forall i :: 0 <= i < |steps| - 1 ==> StepMove(steps[i], steps[i + 1])
  }

  /** Along any run of the wizard the step never decreases. */
  lemma {:induction false} TraceMonotone(steps: seq<Step>)
    requires IsTrace(steps)
    ensures forall i, j :: 0 <= i <= j < |steps| ==> Ord(steps[i]) <= Ord(steps[j])
    decreases |steps|
  {
    if |steps| > 1 {
      var init := steps[..|steps| - 1];
      assert IsTrace(init) by {
        forall i | 0 <= i < |init| - 1 ensures StepMove(init[i], init[i + 1]) {
          assert init[i] == steps[i] && init[i + 1] == steps[i + 1];
        }
      }
      TraceMonotone(init);
      forall i, j | 0 <= i <= j < |steps| ensures Ord(steps[i]) <= Ord(steps[j]) {
        if j < |steps| - 1 {
          assert init[i] == steps[i] && init[j] == steps[j];
        } else if i < j {
          assert init[i] == steps[i] && init[j - 1] == steps[j - 1];
          assert StepMove(steps[j - 1], steps[j]);
        }
      }
    }
  }

  /** A run that starts at the input screen and ends at the editor has passed
      through the identity review and the campaign planner. */
  lemma {:induction false} CreativeAfterEveryStep(steps: seq<Step>)
    requires IsTrace(steps) && |steps| > 0 && steps[0] == Input && steps[|steps| - 1] == Creative
    ensures Identity in steps && Planning in steps
    decreases |steps|
  {
    var last := |steps| - 1;
    if steps[last - 1] == Creative {
      var init := steps[..last];
      assert IsTrace(init) by {
        forall i | 0 <= i < |init| - 1 ensures StepMove(init[i], init[i + 1]) {
          assert init[i] == steps[i] && init[i + 1] == steps[i + 1];
        }
      }
      CreativeAfterEveryStep(init);
    } else {
      assert steps[last - 1] == Planning;
      PlanningAfterIdentity(steps[..last]);
    }
  }

  /** A run that starts at the input screen and ends at the planner has passed
      through the identity review. */
  lemma {:induction false} PlanningAfterIdentity(steps: seq<Step>)
    requires IsTrace(steps) && |steps| > 0 && steps[0] == Input && steps[|steps| - 1] == Planning
    ensures Identity in steps
    decreases |steps|
  {
    var last := |steps| - 1;
    assert steps[last - 1] == Planning || steps[last - 1] == Identity;
    if steps[last - 1] == Planning {
      var init := steps[..last];
      assert IsTrace(init) by {
        forall i | 0 <= i < |init| - 1 ensures StepMove(init[i], init[i + 1]) {
          assert init[i] == steps[i] && init[i + 1] == steps[i + 1];
        }
      }
      PlanningAfterIdentity(init);
      assert forall s :: s in init ==> s in steps;
    }
  }

  const AnalysisFailed := "Analysis failed"
  const IdentityRefined := "Identity Refined!"
  const PlanRefined := "Plan Refined!"
  const RefinementFailed := "Refinement failed"
  const PlanningFailed := "Planning failed"
  const ImagesFailed := "Image generation failed"
  const ImageRefinementFailed := "Image generation/refinement failed"

  /** The feedback the editor sends to redraw a slide without refining its prompt. */
  const SamePrompt := "Regenerate with same prompt"

  /** The alert of a refinement: its success message, none when the backend
      declined, its failure message when the call threw. */
  function RefineAlert<T>(reply: Reply<T>, refined: string): Option<string>
  {
    match reply
    case Success(_) => Some(refined)
    case Declined(_) => None
    case Threw(_) => Some(RefinementFailed)
  }

  /** The fallback image prompt of a slide without one; it carries the slide's
      visual description, its title in double quotes, and the style. */
  function FallbackPrompt(visual: string, title: string, style: string): (r: string)
    ensures Contains(r, "\"" + title + "\"")
    ensures Contains(r, visual) && Contains(r, style)
  {
    var front := "Instagram carousel slide. Background visual: " + visual + ". Overlay text: ";
    var quoted := "\"" + title + "\"";
    var back := ". Style: " + style + ". 8k resolution, highly detailed, photorealistic, masterpiece. No extra text.";
    ContainsMiddle("Instagram carousel slide. Background visual: ", visual, ". Overlay text: ");
    ContainsMiddle(". Style: ", style, ". 8k resolution, highly detailed, photorealistic, masterpiece. No extra text.");
    ContainsMiddle(front, quoted, back);
    ContainsInConcat(front, quoted + back, visual);
    ContainsInConcat(front + quoted, back, style);
    assert front + (quoted + back) == front + quoted + back;
    front + quoted + back
  }

  /** The prompt a slide is drawn with: its own image prompt when it has one,
      the fallback built from the slide and the design style otherwise. */
  function SlidePrompt(slide: Slide, style: string): (r: string)
    ensures slide.imagePrompt != "" ==> r == slide.imagePrompt
    ensures slide.imagePrompt == "" ==> r == FallbackPrompt(slide.visualDescription, slide.title, style)
    ensures r != "" && (slide.imagePrompt == "" ==> Contains(r, "\"" + slide.title + "\""))
  {
    if slide.imagePrompt != "" then slide.imagePrompt
    else
      var r := FallbackPrompt(slide.visualDescription, slide.title, style);
      assert r != [] by {
        var i :| 0 <= i <= |r| && OccursAt(r, "\"" + slide.title + "\"", i);
      }
      r
  }

  /** What each slide's async callback resolves to: `{ slide_number, image }` on success, `null` otherwise. */
  function SlideResults(slides: seq<Slide>, replies: seq<Reply<string>>): seq<Option<SlideImage>>
    requires |replies| == |slides|
  {
    seq(|slides|, i requires 0 <= i < |slides| =>
      if replies[i].Success? then Some(SlideImage(slides[i].slideNumber, replies[i].value)) else None)
  }

  /** A slide number no successful slide carries keeps its previous image, or stays without one. */
  lemma MergeKeepsFailedSlides(prev: map<int, string>, slides: seq<Slide>, replies: seq<Reply<string>>, k: int)
    requires |replies| == |slides|
    ensures (forall i :: 0 <= i < |slides| && slides[i].slideNumber == k ==> !replies[i].Success?) ==>
              (k in prev + Collected(SlideResults(slides, replies)) <==> k in prev)
              && (k in prev ==> (prev + Collected(SlideResults(slides, replies)))[k] == prev[k])
  {
    MergeKeepsUnwritten(prev, SlideResults(slides, replies), k);
  }

  /** A successful slide that no later successful slide shares a number with
      has its image stored under its number. */
  lemma MergeWritesSucceededSlides(prev: map<int, string>, slides: seq<Slide>, replies: seq<Reply<string>>, i: int)
    requires |replies| == |slides| && 0 <= i < |slides| && replies[i].Success?
    requires forall j :: i < j < |slides| && replies[j].Success? ==> slides[j].slideNumber != slides[i].slideNumber
    ensures slides[i].slideNumber in prev + Collected(SlideResults(slides, replies))
    ensures (prev + Collected(SlideResults(slides, replies)))[slides[i].slideNumber] == replies[i].value
  {
    CollectedLastWins(SlideResults(slides, replies), i);
  }

  /** The prompt an image is regenerated with: the slide's current prompt for
      the plain redraw; otherwise the refined prompt, or none when the
      refinement did not succeed (the handler then throws). */
  function RefinedPrompt(slide: Slide, feedback: string, promptReply: Reply<string>): Option<string>
  {
    if feedback == SamePrompt then Some(slide.imagePrompt)
    else if promptReply.Success? then Some(promptReply.value)
    else None
  }

  /** The wizard's session. */
  class App {
    var step: Step
    var analyzing: bool
    var generatingStrat: bool
    var generatingImages: bool
    var brandResult: Option<Analysis>
    var contentPlan: Option<Plan>
    var images: map<int, string>

    /** Past the input screen there is an analysis; in the editor there is a plan. */
    predicate Valid()
      reads this
    {
      && (step != Input ==> brandResult.Some?)
      && (step == Creative ==> contentPlan.Some?)
    }

    constructor()
      ensures step == Input && !analyzing && !generatingStrat && !generatingImages
      ensures brandResult == None && contentPlan == None && images == map[]
      ensures Valid()
    {
      step := Input;
      analyzing, generatingStrat, generatingImages := false, false, false;
      brandResult, contentPlan := None, None;
      images := map[];
    }

    /** handleAnalyze, offered on the input screen: sends only the URL (the
      description is not forwarded); on success stores the analysis and moves
      to the identity review, otherwise keeps both. */
    method Analyze(url: string, description: string, reply: Reply<Analysis>) returns (calls: seq<Request>, alert: Option<string>)
      requires Valid() && step == Input
      modifies this
      ensures calls == [AnalyzeRequest(url)]
      ensures reply.Success? ==> brandResult == Some(reply.value) && step == Identity
      ensures !reply.Success? ==> brandResult == old(brandResult) && step == old(step)
      ensures alert == (if reply.Threw? then Some(AnalysisFailed) else None)
      ensures contentPlan == old(contentPlan) && images == old(images)
      ensures !analyzing && generatingStrat == old(generatingStrat) && generatingImages == old(generatingImages)
      ensures StepMove(old(step), step) && Valid()
    {
      analyzing := true;
      calls := [AnalyzeRequest(url)];
      alert := None;
      match reply {
        case Success(analysis) =>
          brandResult := Some(analysis);
          step := Identity;
        case Declined(_) =>
        case Threw(_) =>
          alert := Some(AnalysisFailed);
      }
      analyzing := false;
    }

    /** handleRefineIdentity: nothing without an analysis; otherwise sends it
      with the feedback and, on success, replaces it wholesale. */
    method RefineIdentity(feedback: string, reply: Reply<Analysis>) returns (calls: seq<Request>, alert: Option<string>)
      requires Valid()
      modifies this
      ensures old(brandResult).None? ==> calls == [] && alert == None
      ensures old(brandResult).Some? ==> calls == [RefineIdentityRequest(old(brandResult).value, feedback)]
                                         && alert == RefineAlert(reply, IdentityRefined)
      ensures brandResult == (if old(brandResult).Some? && reply.Success? then Some(reply.value) else old(brandResult))
      ensures step == old(step) && contentPlan == old(contentPlan) && images == old(images)
      ensures analyzing == old(analyzing) && generatingStrat == old(generatingStrat) && generatingImages == old(generatingImages)
      ensures Valid()
    {
      calls, alert := [], None;
      if brandResult.None? {
        return;
      }
      calls := [RefineIdentityRequest(brandResult.value, feedback)];
      if reply.Success? {
        brandResult := Some(reply.value);
      }
      alert := RefineAlert(reply, IdentityRefined);
    }

    /** The identity review's confirmation. */
    method ConfirmIdentity()
      requires Valid() && step == Identity
      modifies this
      ensures step == Planning && StepMove(old(step), step)
      ensures brandResult == old(brandResult) && contentPlan == old(contentPlan) && images == old(images)
      ensures analyzing == old(analyzing) && generatingStrat == old(generatingStrat) && generatingImages == old(generatingImages)
      ensures Valid()
    {
      step := Planning;
    }

    /** handleGeneratePlan: sends the brand identity and the topic; on success
      stores the plan without leaving the planner. Reading the identity of a
      missing analysis throws before any request. */
    method GeneratePlan(topic: string, reply: Reply<Plan>) returns (calls: seq<Request>, alert: Option<string>)
      requires Valid()
      modifies this
      ensures old(brandResult).None? ==> calls == [] && alert == Some(PlanningFailed) && contentPlan == old(contentPlan)
      ensures old(brandResult).Some? ==>
                && calls == [GenerateContentRequest(old(brandResult).value.brandIdentity, topic)]
                && contentPlan == (if reply.Success? then Some(reply.value) else old(contentPlan))
                && alert == (if reply.Threw? then Some(PlanningFailed) else None)
      ensures step == old(step) && brandResult == old(brandResult) && images == old(images)
      ensures !generatingStrat && analyzing == old(analyzing) && generatingImages == old(generatingImages)
      ensures Valid()
    {
      generatingStrat := true;
      calls, alert := [], None;
      if brandResult.None? {
        alert := Some(PlanningFailed);
      } else {
        calls := [GenerateContentRequest(brandResult.value.brandIdentity, topic)];
        match reply {
          case Success(plan) =>
            contentPlan := Some(plan);
          case Declined(_) =>
          case Threw(_) =>
            alert := Some(PlanningFailed);
        }
      }
      generatingStrat := false;
    }

    /** handleRefinePlan: nothing without a plan; otherwise sends it with the
      feedback and, on success, replaces it wholesale, leaving the images as
      they were. */
    method RefinePlan(feedback: string, reply: Reply<Plan>) returns (calls: seq<Request>, alert: Option<string>)
      requires Valid()
      modifies this
      ensures old(contentPlan).None? ==> calls == [] && alert == None
      ensures old(contentPlan).Some? ==> calls == [RefinePlanRequest(old(contentPlan).value, feedback)]
                                         && alert == RefineAlert(reply, PlanRefined)
      ensures contentPlan == (if old(contentPlan).Some? && reply.Success? then Some(reply.value) else old(contentPlan))
      ensures step == old(step) && brandResult == old(brandResult) && images == old(images)
      ensures analyzing == old(analyzing) && generatingStrat == old(generatingStrat) && generatingImages == old(generatingImages)
      ensures Valid()
    {
      calls, alert := [], None;
      if contentPlan.None? {
        return;
      }
      calls := [RefinePlanRequest(contentPlan.value, feedback)];
      if reply.Success? {
        contentPlan := Some(reply.value);
      }
      alert := RefineAlert(reply, PlanRefined);
    }

    /** The planner's confirmation, offered once a plan is shown. */
    method ConfirmPlan()
      requires Valid() && step == Planning && contentPlan.Some?
      modifies this
      ensures step == Creative && StepMove(old(step), step)
      ensures brandResult == old(brandResult) && contentPlan == old(contentPlan) && images == old(images)
      ensures analyzing == old(analyzing) && generatingStrat == old(generatingStrat) && generatingImages == old(generatingImages)
      ensures Valid()
    {
      step := Creative;
    }

    /** handleGenerateImages, offered in the editor: one image request per slide
      with its prompt; when no call throws, the images of the successful slides
      are laid over the previous map; when one throws, the map is kept. */
    method GenerateImages(replies: seq<Reply<string>>) returns (calls: seq<Request>, alert: Option<string>)
      requires Valid() && step == Creative
      requires |replies| == |contentPlan.value.slides|
      modifies this
      ensures |calls| == |old(contentPlan).value.slides|
      ensures forall i :: 0 <= i < |calls| ==>
                calls[i] == GenerateImageRequest(SlidePrompt(old(contentPlan).value.slides[i], old(brandResult).value.design.style), SquareAspect)
      ensures AnyThrew(replies) ==> images == old(images) && alert == Some(ImagesFailed)
      ensures !AnyThrew(replies) ==>
                images == old(images) + Collected(SlideResults(old(contentPlan).value.slides, replies)) && alert == None
      ensures !generatingImages && analyzing == old(analyzing) && generatingStrat == old(generatingStrat)
      ensures step == old(step) && brandResult == old(brandResult) && contentPlan == old(contentPlan)
      ensures Valid()
    {
      generatingImages := true;
      var slides := contentPlan.value.slides;
      var style := brandResult.value.design.style;
      calls := seq(|slides|, i requires 0 <= i < |slides| => GenerateImageRequest(SlidePrompt(slides[i], style), SquareAspect));
      if AnyThrew(replies) {
        alert := Some(ImagesFailed);
      } else {
        var newImages := CollectNewImages(SlideResults(slides, replies));
        images := images + newImages;
        alert := None;
      }
      generatingImages := false;
    }

    /** handleRefineImage, offered in the editor: finds the slide; unless the
      feedback asks for a plain redraw, has its prompt refined and, on success,
      stores the new prompt in every slide with that number; then redraws the
      slide and, on success, stores its image under its number. */
    method RefineImage(slideNumber: int, feedback: string, promptReply: Reply<string>, imageReply: Reply<string>)
      returns (calls: seq<Request>, alert: Option<string>)
      requires Valid() && contentPlan.Some?
      modifies this
      ensures FindSlide(old(contentPlan).value.slides, slideNumber).None? || old(brandResult).None? ==>
                calls == [] && alert == None && images == old(images) && contentPlan == old(contentPlan)
                && generatingImages == old(generatingImages)
      ensures FindSlide(old(contentPlan).value.slides, slideNumber).Some? && old(brandResult).Some? ==>
                var slide := FindSlide(old(contentPlan).value.slides, slideNumber).value;
                var prompt := RefinedPrompt(slide, feedback, promptReply);
                && calls == (if feedback == SamePrompt then [] else [RefineImagePromptRequest(slide, feedback, old(brandResult).value.brandIdentity)])
                            + (if prompt.Some? then [GenerateImageRequest(prompt.value, SquareAspect)] else [])
                && contentPlan == (if feedback != SamePrompt && promptReply.Success?
                                   then Some(old(contentPlan).value.(slides := WithPrompt(old(contentPlan).value.slides, slideNumber, promptReply.value)))
                                   else old(contentPlan))
                && images == (if prompt.Some? && imageReply.Success? then old(images)[slideNumber := imageReply.value] else old(images))
                && alert == (if prompt.None? || imageReply.Threw? then Some(ImageRefinementFailed) else None)
                && !generatingImages
      ensures step == old(step) && brandResult == old(brandResult)
      ensures analyzing == old(analyzing) && generatingStrat == old(generatingStrat)
      ensures Valid()
    {
      calls, alert := [], None;
      var found := FindSlide(contentPlan.value.slides, slideNumber);
      if found.None? || brandResult.None? {
        return;
      }
      var slide := found.value;
      var customPrompt := slide.imagePrompt;
      if feedback != SamePrompt {
        calls := [RefineImagePromptRequest(slide, feedback, brandResult.value.brandIdentity)];
        if promptReply.Success? {
          customPrompt := promptReply.value;
          var plan := contentPlan.value;
          contentPlan := Some(plan.(slides := WithPrompt(plan.slides, slideNumber, customPrompt)));
        } else {
          alert := Some(ImageRefinementFailed);
          generatingImages := false;
          return;
        }
      }
      generatingImages := true;
      calls := calls + [GenerateImageRequest(customPrompt, SquareAspect)];
      match imageReply {
        case Success(image) =>
          images := images[slideNumber := image];
        case Declined(_) =>
        case Threw(_) =>
          alert := Some(ImageRefinementFailed);
      }
      generatingImages := false;
    }
  }
}

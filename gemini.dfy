/** The pure parts of the generative-model service (backend/src/services/gemini.ts):
    the clean-up applied to every model answer before it is parsed as JSON, the
    default campaign topic, the style and colour fallbacks of the image-prompt
    refinement, and the key guard and answer extraction of image generation.
    The model calls themselves are parameters. */
module Gemini {
  import opened Common
  import opened Json

  const Fence := "```"
  const JsonFence := "```json"

  /** `s.replace(/pat/g, '')` for a literal pattern: scan from the left, drop
      every occurrence that starts where the scan stands, keep the other
      characters. */
  function RemoveAll(s: string, pat: string): string
    requires pat != []
    decreases |s|
  {
    if |s| < |pat| then s
    else if s[..|pat|] == pat then RemoveAll(s[|pat|..], pat)
    else [s[0]] + RemoveAll(s[1..], pat)
  }

  /** `text.replace(/```json/g, '').replace(/```/g, '').trim()`, applied to every
      model answer before `JSON.parse`. */
  function CleanFence(text: string): (r: string)
    ensures r == [] || (!IsJsSpace(r[0]) && !IsJsSpace(r[|r| - 1]))
  {
    TrimIsSlice(RemoveAll(RemoveAll(text, JsonFence), Fence));
    Trim(RemoveAll(RemoveAll(text, JsonFence), Fence))
  }

  /** Removing a pattern that does not occur changes nothing. */
  lemma {:induction false} RemoveAllAbsent(s: string, pat: string)
    requires pat != []
    ensures !Contains(s, pat) ==> RemoveAll(s, pat) == s
    decreases |s|
  {
    if |s| >= |pat| {
      assert s[..|pat|] == pat ==> OccursAt(s, pat, 0);
      if s[..|pat|] != pat {
        RemoveAllAbsent(s[1..], pat);
        ContainsInSlice(s, pat, 1, |s|);
        assert s[1..|s|] == s[1..];
        assert s == [s[0]] + s[1..];
      }
    }
  }

  /** If what is left of `u` starts with a backtick, `u` did. */
  lemma LeadingTick(u: string)
    ensures RemoveAll(u, Fence) != [] && RemoveAll(u, Fence)[0] == '`' ==> u != [] && u[0] == '`'
  {
    if |u| >= 3 && u[..3] == Fence {
      assert u[0] == u[..3][0];
    }
  }

  /** If what is left of `t` starts with two backticks, `t` did. */
  lemma LeadingTicks(t: string)
    ensures |RemoveAll(t, Fence)| >= 2 && RemoveAll(t, Fence)[0] == '`' && RemoveAll(t, Fence)[1] == '`'
            ==> |t| >= 2 && t[0] == '`' && t[1] == '`'
  {
    if |t| >= 3 && t[..3] == Fence {
      assert t[0] == t[..3][0] && t[1] == t[..3][1];
    } else if |t| >= 3 {
      LeadingTick(t[1..]);
    }
  }

  /** A fence that starts at position 0 of `[c] + t` is three backticks there. */
  lemma FenceAtFront(c: char, t: string)
    ensures OccursAt([c] + t, Fence, 0) ==> c == '`' && |t| >= 2 && t[0] == '`' && t[1] == '`'
  {
    if OccursAt([c] + t, Fence, 0) {
      assert ([c] + t)[..3][0] == c && ([c] + t)[..3][1] == t[0] && ([c] + t)[..3][2] == t[1];
    }
  }

  /** A fence in `[c] + t` past position 0 is a fence in `t`. */
  lemma FenceAfterFront(c: char, t: string, i: int)
    requires i >= 1
    ensures OccursAt([c] + t, Fence, i) ==> OccursAt(t, Fence, i - 1)
  {
    if OccursAt([c] + t, Fence, i) {
      assert ([c] + t)[i..i + 3] == t[i - 1..i + 2];
    }
  }

  /** Removing every "```" leaves none: a kept backtick is never followed, in the
      input, by a removed fence, so no three kept backticks can meet. */
  lemma {:induction false} RemoveAllFenceLeavesNone(s: string)
    ensures !Contains(RemoveAll(s, Fence), Fence)
    decreases |s|
  {
    if |s| < 3 {
    } else if s[..3] == Fence {
      RemoveAllFenceLeavesNone(s[3..]);
    } else {
      var t := RemoveAll(s[1..], Fence);
      var r := RemoveAll(s, Fence);
      assert r == [s[0]] + t;
      RemoveAllFenceLeavesNone(s[1..]);
      FenceAtFront(s[0], t);
      LeadingTicks(s[1..]);
      assert !(s[0] == '`' && s[1] == '`' && s[2] == '`') by {
        assert s[..3][0] == s[0] && s[..3][1] == s[1] && s[..3][2] == s[2];
      }
      forall i | 1 <= i <= |r| ensures !OccursAt(r, Fence, i) {
        FenceAfterFront(s[0], t, i);
      }
    }
  }

  /** "```json" starts with "```", so text free of the one is free of the other. */
  lemma NoFenceNoJsonFence(s: string)
    ensures !Contains(s, Fence) ==> !Contains(s, JsonFence)
  {
    forall i | 0 <= i <= |s| && OccursAt(s, JsonFence, i) ensures OccursAt(s, Fence, i) {
      assert s[i..i + 3] == s[i..i + 7][..3];
    }
  }

  /** The cleaned answer contains no markdown fence. */
  lemma CleanFenceRemovesFences(text: string)
    ensures !Contains(CleanFence(text), Fence)
  {
    var r := RemoveAll(RemoveAll(text, JsonFence), Fence);
    RemoveAllFenceLeavesNone(RemoveAll(text, JsonFence));
    TrimIsSlice(r);
    var i, j :| 0 <= i <= j <= |r| && Trim(r) == r[i..j];
    ContainsInSlice(r, Fence, i, j);
  }

  /** Cleaning an already cleaned answer changes nothing. */
  lemma CleanFenceIdempotent(text: string)
    ensures CleanFence(CleanFence(text)) == CleanFence(text)
  {
    var c := CleanFence(text);
    CleanFenceRemovesFences(text);
    NoFenceNoJsonFence(c);
    RemoveAllAbsent(c, JsonFence);
    RemoveAllAbsent(c, Fence);
    TrimIdempotent(RemoveAll(RemoveAll(text, JsonFence), Fence));
  }

  /** On an answer without a backtick the clean-up is just `trim`. */
  lemma CleanFenceWithoutBackticks(text: string)
    requires forall k :: 0 <= k < |text| ==> text[k] != '`'
    ensures CleanFence(text) == Trim(text)
  {
    forall i | 0 <= i <= |text| ensures !OccursAt(text, Fence, i) && !OccursAt(text, JsonFence, i) {
      if i + 3 <= |text| {
        assert text[i..i + 3][0] == text[i];
      }
      if i + 7 <= |text| {
        assert text[i..i + 7][0] == text[i];
      }
    }
    RemoveAllAbsent(text, JsonFence);
    RemoveAllAbsent(text, Fence);
  }

  /** The shared shape of analyzeBrand, generateCarouselContent,
      refineBrandIdentity, refineCarouselContent and refineImagePrompt: take the
      model's answer text (or its error), clean it, parse it, and turn any error
      into one whose message is the original message or the operation's
      default. */
  function ModelJson(answer: Outcome<string>, parse: string -> Outcome<Json>, fallback: string): (r: Outcome<Json>)
    requires fallback != ""
    ensures r.Ok? <==> answer.Ok? && parse(CleanFence(answer.value)).Ok?
    ensures r.Ok? ==> r.value == parse(CleanFence(answer.value)).value
    ensures r.Err? ==> r.message != ""
    ensures answer.Err? ==> r == Err(MessageOr(answer.message, fallback))
    ensures answer.Ok? && parse(CleanFence(answer.value)).Err? ==>
              r == Err(MessageOr(parse(CleanFence(answer.value)).message, fallback))
  {
    match answer
    case Err(m) => Err(MessageOr(m, fallback))
    case Ok(text) =>
      match parse(CleanFence(text))
      case Ok(v) => Ok(v)
      case Err(m) => Err(MessageOr(m, fallback))
  }

  const DefaultTopic := "General brand awareness and value proposition"

  /** `topic || "General brand awareness and value proposition"`. */
  function EffectiveTopic(topic: Json): (r: Json)
    ensures Truthy(r)
    ensures Truthy(topic) ==> r == topic
    ensures !Truthy(topic) ==> r == Str(DefaultTopic)
  {
    Or(topic, Str(DefaultTopic))
  }

  const DefaultStyle := "modern and professional"

  /** The style used to refine an image prompt: the nested
      `design_recommendation.style`, else a direct `style`, else
      'modern and professional'. */
  function DesignStyle(identity: Json): (r: Json)
    ensures Truthy(r)
    ensures Truthy(Get(Get(identity, "design_recommendation"), "style")) ==>
              r == Get(Get(identity, "design_recommendation"), "style")
    ensures !Truthy(Get(Get(identity, "design_recommendation"), "style")) && Truthy(Get(identity, "style")) ==>
              r == Get(identity, "style")
    ensures !Truthy(Get(Get(identity, "design_recommendation"), "style")) && !Truthy(Get(identity, "style")) ==>
              r == Str(DefaultStyle)
  {
    Or(Or(Get(Get(identity, "design_recommendation"), "style"), Get(identity, "style")), Str(DefaultStyle))
  }

  /** The colours used to refine an image prompt: the nested
      `brand_identity.colors`, else a direct `colors`, else `{}`. */
  function BrandColors(identity: Json): (r: Json)
    ensures Truthy(r)
    ensures Truthy(Get(Get(identity, "brand_identity"), "colors")) ==>
              r == Get(Get(identity, "brand_identity"), "colors")
    ensures !Truthy(Get(Get(identity, "brand_identity"), "colors")) && Truthy(Get(identity, "colors")) ==>
              r == Get(identity, "colors")
    ensures !Truthy(Get(Get(identity, "brand_identity"), "colors")) && !Truthy(Get(identity, "colors")) ==>
              r == Obj(map[])
  {
    Or(Or(Get(Get(identity, "brand_identity"), "colors"), Get(identity, "colors")), Obj(map[]))
  }

  /** A brand identity passed directly (the `brand_identity` object, which holds
      colours, fonts, tone, audience and industry) carries no style, so its
      refinement style is the default one while its colours are its own. */
  lemma DirectIdentityStyleAndColors(fields: map<string, Json>)
    requires "design_recommendation" !in fields && "style" !in fields && "brand_identity" !in fields
    requires "colors" in fields && Truthy(fields["colors"])
    ensures DesignStyle(Obj(fields)) == Str(DefaultStyle)
    ensures BrandColors(Obj(fields)) == fields["colors"]
  {
  }

  /** What the image endpoint's HTTP call gives back: a thrown error, a response
      that is not ok (status text and body text), or the parsed JSON body. */
  datatype ImagenReply =
    | CallFailed(message: string)
    | NotOk(statusText: string, errorText: string)
    | Answered(data: Json)

  /** `data.predictions[0].bytesBase64Encoded`, read with the code's guards. */
  function ImageField(data: Json): Json
  {
    var predictions := Get(data, "predictions");
    if Truthy(predictions) && Truthy(First(predictions)) then Get(First(predictions), "bytesBase64Encoded")
    else Undefined
  }

  /** generateImage: with no API key it fails before any request; otherwise it
      returns the encoded image of the first prediction, and every failure of the
      call surfaces as an error with a message. A `null` body makes reading its
      `predictions` throw a TypeError, which surfaces the same way. */
  function GenerateImage(apiKey: string, reply: ImagenReply): (r: Outcome<Json>)
    ensures apiKey == "" ==> r == Err("API Key is missing")
    ensures r.Ok? <==> apiKey != "" && reply.Answered? && Truthy(ImageField(reply.data))
    ensures r.Ok? ==> r.value == ImageField(reply.data) && Truthy(r.value)
    ensures apiKey != "" && reply.CallFailed? ==> r == Err(MessageOr(reply.message, "Failed to generate image"))
    ensures apiKey != "" && reply.NotOk? ==>
              r == Err("Image generation failed: " + reply.statusText + " - " + reply.errorText)
    ensures apiKey != "" && reply.Answered? && (reply.data.Null? || reply.data.Undefined?) ==>
              r == Err(PropertyReadError(reply.data, "predictions"))
    ensures apiKey != "" && reply.Answered? && !reply.data.Null? && !reply.data.Undefined?
              && !Truthy(ImageField(reply.data)) ==>
              r == Err("No image data found in response")
    ensures r.Err? ==> r.message != ""
  {
    if apiKey == "" then Err("API Key is missing")
    else
      match reply
      case CallFailed(m) => Err(MessageOr(m, "Failed to generate image"))
      case NotOk(statusText, errorText) =>
        Err("Image generation failed: " + statusText + " - " + errorText)
      case Answered(data) =>
        if data.Null? || data.Undefined? then Err(PropertyReadError(data, "predictions"))
        else if Truthy(ImageField(data)) then Ok(ImageField(data))
        else Err("No image data found in response")
  }
}

/** The slide editor of frontend/src/components/steps/CarouselEditor.tsx: the
    number of the slide on show, the edit prompt being typed and whether an edit
    is running; the previous/next navigation, the AI edit, the edit button's
    enabling condition and the generate button's label. */
module Editor {
  import opened Common
  import opened Session

  const RegenerateAll := "Regenerate All"
  const GenerateImagesLabel := "Generate Images"

  /** The slide shown after "previous": one back, unless already at 1 or below. */
  function PrevOf(active: int): (r: int)
    ensures active > 1 ==> r == active - 1
    ensures active <= 1 ==> r == active
    ensures 1 <= active ==> 1 <= r
  {
    if active > 1 then active - 1 else active
  }

  /** The slide shown after "next": one on, unless already at the last slide or past it. */
  function NextOf(active: int, total: int): (r: int)
    ensures active < total ==> r == active + 1
    ensures active >= total ==> r == active
    ensures active <= total ==> r <= total
  {
    if active < total then active + 1 else active
  }

  datatype Nav = Prev | Next

  /** The slide shown after a run of previous/next presses. */
  function Navigate(active: int, total: int, presses: seq<Nav>): int
  {
    if presses == [] then active
    else
      var before := Navigate(active, total, presses[..|presses| - 1]);
      match presses[|presses| - 1]
      case Prev => PrevOf(before)
      case Next => NextOf(before, total)
  }

  /** Starting on a slide in range, previous and next never leave the range
      1..total, whatever the presses. */
  lemma {:induction false} NavigateStaysInRange(active: int, total: int, presses: seq<Nav>)
    requires 1 <= active <= total
    ensures 1 <= Navigate(active, total, presses) <= total
    decreases |presses|
  {
    if presses != [] {
      NavigateStaysInRange(active, total, presses[..|presses| - 1]);
    }
  }

  /** "Next" then "previous" comes back, and so does "previous" then "next". */
  lemma PrevUndoesNext(active: int, total: int)
    ensures 1 <= active < total ==> PrevOf(NextOf(active, total)) == active
    ensures 1 < active <= total ==> NextOf(PrevOf(active), total) == active
  {
  }

  /** `images[n]` is truthy: the slide has a non-empty image. */
  predicate HasImage(images: map<int, string>, n: int)
  {
    n in images && images[n] != ""
  }

  /** The generate button's label: "Regenerate All" exactly when some image exists. */
  function GenerateLabel(images: map<int, string>): (r: string)
    ensures r == RegenerateAll <==> |images| > 0
    ensures r == GenerateImagesLabel <==> |images| == 0
  {
    if |images| > 0 then RegenerateAll else GenerateImagesLabel
  }

  /** Once a generation stored an image, or there already was one, the label
      offers regeneration: merging never removes an entry. */
  lemma LabelAfterMerge(prev: map<int, string>, results: seq<Option<SlideImage>>)
    ensures (|prev| > 0 || exists i :: 0 <= i < |results| && results[i].Some?) ==>
              GenerateLabel(prev + Collected(results)) == RegenerateAll
  {
    if |prev| > 0 {
      MergeKeepsOld(prev, Collected(results));
    } else if i :| 0 <= i < |results| && results[i].Some? {
      MergeHasWritten(prev, results, i);
    }
  }

  /** An overlay keeps every old key, so a non-empty map stays non-empty. */
  lemma MergeKeepsOld(prev: map<int, string>, written: map<int, string>)
    requires |prev| > 0
    ensures |prev + written| > 0
  {
    assert prev.Keys <= (prev + written).Keys;
  }

  /** A successful slide's number is a key of the merged map. */
  lemma MergeHasWritten(prev: map<int, string>, results: seq<Option<SlideImage>>, i: int)
    requires 0 <= i < |results| && results[i].Some?
    ensures |prev + Collected(results)| > 0
  {
    CollectedKeys(results);
    var k := results[i].value.slideNumber;
    assert k in Collected(results);
    MapWithKeyIsNonEmpty(prev + Collected(results), k);
  }

  lemma MapWithKeyIsNonEmpty(m: map<int, string>, k: int)
    requires k in m
    ensures |m| > 0
  {
    assert m.Keys == (m.Keys - {k}) + {k};
  }

  /** The edit the editor asks the wizard for: redraw this slide with this feedback. */
  datatype SlideEdit = SlideEdit(slideNumber: int, feedback: string)

  class CarouselEditor {
    var activeSlide: int
    var editPrompt: string
    var isEditing: bool

    constructor()
      ensures activeSlide == 1 && editPrompt == "" && !isEditing
    {
      activeSlide := 1;
      editPrompt := "";
      isEditing := false;
    }

    /** handlePrevSlide. */
    method PrevSlide()
      modifies this
      ensures activeSlide == PrevOf(old(activeSlide))
      ensures 1 <= old(activeSlide) ==> 1 <= activeSlide
      ensures editPrompt == old(editPrompt) && isEditing == old(isEditing)
    {
      if activeSlide > 1 {
        activeSlide := activeSlide - 1;
      }
    }

    /** handleNextSlide, with the carousel's slides. */
    method NextSlide(slides: seq<Slide>)
      modifies this
      ensures activeSlide == NextOf(old(activeSlide), |slides|)
      ensures old(activeSlide) <= |slides| ==> activeSlide <= |slides|
      ensures editPrompt == old(editPrompt) && isEditing == old(isEditing)
    {
      if activeSlide < |slides| {
        activeSlide := activeSlide + 1;
      }
    }

    /** A thumbnail click or a dot click: show the slide with that number. */
    method SelectSlide(n: int)
      modifies this
      ensures activeSlide == n
      ensures editPrompt == old(editPrompt) && isEditing == old(isEditing)
    {
      activeSlide := n;
    }

    /** The edit box's `onChange`. */
    method SetEditPrompt(p: string)
      modifies this
      ensures editPrompt == p
      ensures activeSlide == old(activeSlide) && isEditing == old(isEditing)
    {
      editPrompt := p;
    }

    /** The edit button is enabled when the prompt is not blank, no edit is
        running and the slide on show has an image. */
    predicate EditEnabled(images: map<int, string>)
      reads this
    {
      Trim(editPrompt) != "" && !isEditing && HasImage(images, activeSlide)
    }

    /** handleAIEdit: nothing for a prompt of white space only; otherwise asks
        for the edit of the slide on show with the prompt as feedback, then
        clears the prompt and the running flag. */
    method AIEdit() returns (edit: Option<SlideEdit>)
      modifies this
      ensures (forall k :: 0 <= k < |old(editPrompt)| ==> IsJsSpace(old(editPrompt)[k])) ==>
                edit == None && editPrompt == old(editPrompt) && isEditing == old(isEditing)
      ensures (exists k :: 0 <= k < |old(editPrompt)| && !IsJsSpace(old(editPrompt)[k])) ==>
                edit == Some(SlideEdit(old(activeSlide), old(editPrompt))) && editPrompt == "" && !isEditing
      ensures activeSlide == old(activeSlide)
    {
      BlankIffAllSpace(editPrompt);
      if Trim(editPrompt) == "" {
        return None;
      }
      isEditing := true;
      edit := Some(SlideEdit(activeSlide, editPrompt));
      editPrompt := "";
      isEditing := false;
    }
  }

  /** The edit button is enabled exactly when the prompt holds a character that
      is not white space, no edit is running and the slide on show has an image;
      for such a prompt AIEdit asks for the edit of that slide. */
  lemma EditEnabledMeans(e: CarouselEditor, images: map<int, string>)
    ensures e.EditEnabled(images) <==>
              (exists k :: 0 <= k < |e.editPrompt| && !IsJsSpace(e.editPrompt[k]))
              && !e.isEditing && HasImage(images, e.activeSlide)
  {
    BlankIffAllSpace(e.editPrompt);
  }
}

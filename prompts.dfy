/** Prompt construction of `lib/translation.js`. The English wording of the
    templates is abstracted into short constant texts; what is kept is where
    each interpolated value and each `{...}` placeholder sits, the XML-like
    delimiters, and the conditional country sentence. */
module Prompts {
  import opened Text

  const OpenTag := "<TRANSLATE_THIS>"
  const CloseTag := "</TRANSLATE_THIS>"

  /** Placeholders that the multi-chunk templates fill with `replace`. */
  const TaggedTextSlot := "{tagged_text}"
  const ChunkSlot := "{chunk_to_translate}"
  const TranslationSlot := "{translation_1_chunk}"
  const ReflectionSlot := "{reflection_chunk}"

  /** One call to the completion service: system message and user prompt. */
  datatype Request = Request(system: string, prompt: string)

  /** No `{` in the text, so no placeholder can occur in it. */
  predicate BraceFree(s: string)
  {
    '{' !in s
  }

  // ---------------------------------------------------------------------
  // Tagged view

  /** The whole text with chunk `i` wrapped in the two markers:
      `chunks.slice(0, i).join('') + "<TRANSLATE_THIS>" + chunks[i] +
      "</TRANSLATE_THIS>" + chunks.slice(i + 1).join('')`. */
  function TaggedView(chunks: seq<string>, i: nat): string
    requires i < |chunks|
  {
    Join(chunks[..i]) + OpenTag + chunks[i] + CloseTag + Join(chunks[i + 1..])
  }

  /** The markers sit right before and right after chunk `i`, and cutting
      them out gives back the concatenation of all chunks; so when the
      chunks partition a source text, that is the source text. */
  lemma {:induction false} TaggedViewErasesToSource(chunks: seq<string>, i: nat, source: string)
    requires i < |chunks|
    requires Join(chunks) == source
    ensures var view, b := TaggedView(chunks, i), |Join(chunks[..i])|;
      var e := b + |OpenTag| + |chunks[i]|;
      && e + |CloseTag| <= |view|
      && view[b..b + |OpenTag|] == OpenTag
      && view[b + |OpenTag|..e] == chunks[i]
      && view[e..e + |CloseTag|] == CloseTag
      && view[..b] + view[b + |OpenTag|..e] + view[e + |CloseTag|..] == source
  {
    JoinAround(chunks, i);
    MarkedPieces(Join(chunks[..i]), chunks[i], Join(chunks[i + 1..]));
  }

  /** Slicing a tagged view built from three pieces. */
  lemma {:induction false} MarkedPieces(before: string, chunk: string, after: string)
    ensures var view := before + OpenTag + chunk + CloseTag + after;
      var b, e := |before|, |before| + |OpenTag| + |chunk|;
      && e + |CloseTag| <= |view|
      && view[b..b + |OpenTag|] == OpenTag
      && view[b + |OpenTag|..e] == chunk
      && view[e..e + |CloseTag|] == CloseTag
      && view[..b] + view[b + |OpenTag|..e] + view[e + |CloseTag|..] == before + chunk + after
  {
    var view := before + OpenTag + chunk + CloseTag + after;
    var b, e := |before|, |before| + |OpenTag| + |chunk|;
    assert view[..b] == before;
    assert view[e + |CloseTag|..] == after;
  }

  /** Neither marker occurs anywhere in `s`. */
  ghost predicate MarkerFree(s: string)
  {
    forall k: nat :: !OccursAt(s, OpenTag, k) && !OccursAt(s, CloseTag, k)
  }

  /** When neither marker occurs in the text before chunk `i`, in chunk `i`
      or in the text after it, chunk `i` is the only marked region: the
      opening marker occurs exactly once, right before chunk `i`, and the
      closing marker exactly once, right after it. */
  lemma {:induction false} TaggedViewMarksOnlyChunk(chunks: seq<string>, i: nat)
    requires i < |chunks|
    requires MarkerFree(Join(chunks[..i])) && MarkerFree(chunks[i]) && MarkerFree(Join(chunks[i + 1..]))
    ensures var view, b := TaggedView(chunks, i), |Join(chunks[..i])|;
      var e := b + |OpenTag| + |chunks[i]|;
      && (forall k: nat :: OccursAt(view, OpenTag, k) <==> k == b)
      && (forall k: nat :: OccursAt(view, CloseTag, k) <==> k == e)
  {
    var before, chunk, after := Join(chunks[..i]), chunks[i], Join(chunks[i + 1..]);
    var view := TaggedView(chunks, i);
    var b := |before|;
    var e := b + |OpenTag| + |chunk|;
    MarkedPieces(before, chunk, after);
    MarkerShape();
    assert view[e + 1] == view[e..e + |CloseTag|][1];
    assert view[b + 1] == view[b..b + |OpenTag|][1];
    forall k: nat ensures OccursAt(view, OpenTag, k) <==> k == b {
      if OccursAt(view, OpenTag, k) {
        MarkerOnlyAtMarkers(before, chunk, after, OpenTag, k);
        assert view[k + 1] == view[k..k + |OpenTag|][1];
      }
    }
    forall k: nat ensures OccursAt(view, CloseTag, k) <==> k == e {
      if OccursAt(view, CloseTag, k) {
        MarkerOnlyAtMarkers(before, chunk, after, CloseTag, k);
        assert view[k + 1] == view[k..k + |CloseTag|][1];
      }
    }
  }

  /** Each marker starts with `<`, has no other `<`, and the two differ in
      their second character. */
  lemma {:induction false} MarkerShape()
    ensures |OpenTag| == 16 && |CloseTag| == 17
    ensures OpenTag[0] == '<' && OpenTag[1] == 'T' && CloseTag[0] == '<' && CloseTag[1] == '/'
    ensures forall j :: 0 < j < |OpenTag| ==> OpenTag[j] != '<'
    ensures forall j :: 0 < j < |CloseTag| ==> CloseTag[j] != '<'
  {
  }

  /** In a tagged view built from marker-free pieces, a marker can only
      start where one of the two markers was put. */
  lemma {:induction false} MarkerOnlyAtMarkers(before: string, chunk: string, after: string, tag: string, k: nat)
    requires tag == OpenTag || tag == CloseTag
    requires MarkerFree(before) && MarkerFree(chunk) && MarkerFree(after)
    requires OccursAt(before + OpenTag + chunk + CloseTag + after, tag, k)
    ensures k == |before| || k == |before| + |OpenTag| + |chunk|
  {
    var view := before + OpenTag + chunk + CloseTag + after;
    var b := |before|;
    var c := b + |OpenTag|;
    var e := c + |chunk|;
    var a := e + |CloseTag|;
    MarkedPieces(before, chunk, after);
    MarkerShape();
    assert view[..b] == before;
    assert view[a..|view|] == after;
    assert view[k] == view[k..k + |tag|][0];
    assert view[b] == view[b..c][0];
    assert view[e] == view[e..a][0];
    if k < b {
      if k + |tag| <= b {
        OccursInSlice(view, tag, k, 0, b);
      } else {
        LessThanOnlyFirst(view, tag, k, b);
      }
    } else if c <= k < e {
      if k + |tag| <= e {
        OccursInSlice(view, tag, k, c, e);
      } else {
        LessThanOnlyFirst(view, tag, k, e);
      }
    } else if a <= k {
      OccursInSlice(view, tag, k, a, |view|);
    }
    // any other `k` lies inside one of the markers, past its `<`
  }

  /** An occurrence lying within `view[lo..hi]` is an occurrence in that
      slice. */
  lemma {:induction false} OccursInSlice(view: string, pat: string, k: nat, lo: nat, hi: nat)
    requires OccursAt(view, pat, k) && lo <= k && k + |pat| <= hi <= |view|
    ensures OccursAt(view[lo..hi], pat, k - lo)
  {
    forall j | 0 <= j < |pat| ensures view[lo..hi][k - lo..k - lo + |pat|][j] == pat[j] {
      assert view[k..k + |pat|][j] == view[k + j];
    }
  }

  /** Inside an occurrence of a pattern whose only `<` is its first
      character, the text has no `<`. */
  lemma {:induction false} LessThanOnlyFirst(view: string, pat: string, k: nat, p: nat)
    requires OccursAt(view, pat, k) && k < p < k + |pat|
    requires forall j :: 0 < j < |pat| ==> pat[j] != '<'
    ensures view[p] != '<'
  {
    assert view[p] == view[k..k + |pat|][p - k];
  }

  /** Conversely, a marker inside chunk `i` shows up a second time in the
      tagged view, strictly between the two markers put around the chunk. */
  lemma {:induction false} MarkerInChunkRepeats(chunks: seq<string>, i: nat, tag: string, k: nat)
    requires i < |chunks|
    requires tag == OpenTag || tag == CloseTag
    requires OccursAt(chunks[i], tag, k)
    ensures var b := |Join(chunks[..i])|;
      var at, e := b + |OpenTag| + k, b + |OpenTag| + |chunks[i]|;
      OccursAt(TaggedView(chunks, i), tag, at) && b < at < e
  {
    var before, chunk, after := Join(chunks[..i]), chunks[i], Join(chunks[i + 1..]);
    assert before + OpenTag + chunk + CloseTag + after == (before + OpenTag) + chunk + (CloseTag + after);
    OccursInside(before + OpenTag, chunk, CloseTag + after, tag, k);
  }

  /** An occurrence in `s` is one in any text that has `s` in it. */
  lemma {:induction false} OccursInside(front: string, s: string, back: string, pat: string, k: nat)
    requires OccursAt(s, pat, k)
    ensures OccursAt(front + s + back, pat, |front| + k)
  {
    var whole := front + s + back;
    forall j | 0 <= j < |pat| ensures whole[|front| + k..|front| + k + |pat|][j] == pat[j] {
      assert s[k..k + |pat|][j] == s[k + j];
    }
  }

  /** The text `x</TRANSLATE_THIS>y` as a single chunk: its tagged view has
      the closing marker at 17, inside the chunk, and at 35, after it. */
  lemma {:induction false} MarkerInChunkExample()
    ensures OccursAt(TaggedView(["x" + CloseTag + "y"], 0), CloseTag, 17)
    ensures OccursAt(TaggedView(["x" + CloseTag + "y"], 0), CloseTag, 35)
  {
    var chunks := ["x" + CloseTag + "y"];
    assert chunks[..0] == [] && chunks[1..] == [];
    assert chunks[0][1..1 + |CloseTag|] == CloseTag;
    MarkerInChunkRepeats(chunks, 0, CloseTag, 1);
    TaggedViewErasesToSource(chunks, 0, Join(chunks));
  }

  // ---------------------------------------------------------------------
  // System messages, shared by the single-chunk and multi-chunk stages

  function TranslatorSystem(sourceLang: string, targetLang: string): string
  {
    "Linguist, translating from " + sourceLang + " to " + targetLang + "."
  }

  function ReviewerSystem(sourceLang: string, targetLang: string): string
  {
    "Linguist, translating from " + sourceLang + " to " + targetLang
      + ". Improve the translation."
  }

  function EditorSystem(sourceLang: string, targetLang: string): string
  {
    "Linguist, editing from " + sourceLang + " to " + targetLang + "."
  }

  // ---------------------------------------------------------------------
  // Pieces shared by the prompts

  /** The sentence asking for the style of `targetLang` as spoken in
      `country`. */
  function CountrySentence(targetLang: string, country: string): string
  {
    "Match the style of " + targetLang + " as spoken in " + country + ". "
  }

  /** The sentence is appended only when `country` is truthy, i.e. not
      the empty string. */
  function CountryClause(targetLang: string, country: string): string
  {
    if country != "" then CountrySentence(targetLang, country) else ""
  }

  function ReviewCriteria(targetLang: string): string
  {
    "Check accuracy, fluency in " + targetLang + ", style, "
      + "terminology, idioms of " + targetLang + ". Only suggestions."
  }

  function EditCriteria(targetLang: string): string
  {
    "Fix accuracy, fluency in " + targetLang + ", style, terminology, "
      + "other errors. Only the new translation."
  }

  // ---------------------------------------------------------------------
  // Single-chunk prompts: plain interpolation of the whole source text

  function OneChunkInitialPrompt(sourceLang: string, targetLang: string, sourceText: string): string
  {
    "Translate " + sourceLang + " to " + targetLang + ", give the " + targetLang + " text, no comments.\n"
      + sourceLang + ": " + sourceText + "\n\n" + targetLang + ":"
  }

  function OneChunkReflectIntro(sourceLang: string, targetLang: string): string
  {
    "Criticise a translation from " + sourceLang + " to " + targetLang + ". "
  }

  function OneChunkReflectPrompt(sourceLang: string, targetLang: string, sourceText: string,
                                 translation1: string, country: string): string
  {
    OneChunkReflectIntro(sourceLang, targetLang) + CountryClause(targetLang, country)
      + SourceOpen + OneChunkReflectSections(targetLang, sourceText, translation1)
  }

  /** The reflection prompt after the opening of the source section. */
  function OneChunkReflectSections(targetLang: string, sourceText: string, translation1: string): string
  {
    sourceText + "\n</SOURCE_TEXT>\n\n<TRANSLATION>\n"
      + translation1 + "\n</TRANSLATION>\n\n" + ReviewCriteria(targetLang)
  }

  function OneChunkImprovePrompt(sourceLang: string, targetLang: string, sourceText: string,
                                 translation1: string, reflection: string): string
  {
    "Edit a translation from " + sourceLang + " to " + targetLang + " per the suggestions.\n"
      + "\n<SOURCE_TEXT>\n" + sourceText + "\n</SOURCE_TEXT>\n\n<TRANSLATION>\n"
      + translation1 + "\n</TRANSLATION>\n\n<EXPERT_SUGGESTIONS>\n" + reflection
      + "\n</EXPERT_SUGGESTIONS>\n\n" + EditCriteria(targetLang)
  }

  /** The reflection prompt carries the country sentence, right after its
      introduction, if and only if a country is given; without one it is
      the same prompt with nothing inserted there. */
  lemma {:induction false} OneChunkReflectCountry(sourceLang: string, targetLang: string, sourceText: string,
                               translation1: string, country: string)
    ensures var prompt := OneChunkReflectPrompt(sourceLang, targetLang, sourceText, translation1, country);
      (IsPrefix(CountrySentence(targetLang, country), prompt[|OneChunkReflectIntro(sourceLang, targetLang)|..])
       <==> country != "")
  {
    var intro, clause := OneChunkReflectIntro(sourceLang, targetLang), CountryClause(targetLang, country);
    var sections := OneChunkReflectSections(targetLang, sourceText, translation1);
    SliceAfterIntro(intro, clause, SourceOpen, sections);
    CountryClauseMarks(targetLang, country, SourceOpen + sections);
  }

  /** Behind the clause comes text starting with a line break, which the
      country sentence does not start with. */
  lemma {:induction false} CountryClauseMarks(targetLang: string, country: string, rest: string)
    requires rest != [] && rest[0] == '\n'
    ensures IsPrefix(CountrySentence(targetLang, country), CountryClause(targetLang, country) + rest)
      <==> country != ""
  {
    var sentence := CountrySentence(targetLang, country);
    assert sentence[0] == 'M';
    if country != "" {
      assert (sentence + rest)[..|sentence|] == sentence;
    } else {
      assert CountryClause(targetLang, country) + rest == rest;
      assert |sentence| <= |rest| ==> rest[..|sentence|][0] == '\n';
    }
  }

  // ---------------------------------------------------------------------
  // Multi-chunk prompts: templates filled by sequential `replace` calls

  /** Filling a placeholder that follows a brace-free prefix puts the value
      exactly where the placeholder was. */
  lemma {:induction false} FillSlot(done: string, slot: string, rest: string, value: string)
    requires |slot| > 0 && slot[0] == '{' && BraceFree(done)
    ensures ReplaceFirst(done + slot + rest, slot, value) == done + value + rest
  {
    assert done + slot + rest == done + (slot + rest);
    ReplaceFirstSkips(done, slot + rest, slot, value);
    ReplaceFirstAtStart(slot, rest, value);
  }

  function PartTranslateHead(sourceLang: string, targetLang: string): string
  {
    "Translate from " + sourceLang + " to " + targetLang
      + " the marked PART only.\n" + "\n<SOURCE_TEXT>\n"
  }

  const SourceToChunk := "\n</SOURCE_TEXT>\n\n" + "The part again:\n<TRANSLATE_THIS>\n"
  const PartTranslateTail := "\n</TRANSLATE_THIS>\n" + "\nOnly the translated part."

  function MultiInitialTemplate(sourceLang: string, targetLang: string): string
  {
    PartTranslateHead(sourceLang, targetLang) + TaggedTextSlot + SourceToChunk + ChunkSlot + PartTranslateTail
  }

  /** The pass-1 prompt for chunk `i`. */
  function MultiInitialPrompt(sourceLang: string, targetLang: string, chunks: seq<string>, i: nat): string
    requires i < |chunks|
  {
    var template := MultiInitialTemplate(sourceLang, targetLang);
    ReplaceFirst(ReplaceFirst(template, TaggedTextSlot, TaggedView(chunks, i)), ChunkSlot, chunks[i])
  }

  /** Two placeholders after brace-free text, filled in order. */
  lemma {:induction false} FillTwoSlots(head: string, slot1: string, value1: string, mid: string,
                     slot2: string, value2: string, tail: string)
    requires |slot1| > 0 && slot1[0] == '{' && |slot2| > 0 && slot2[0] == '{'
    requires BraceFree(head) && BraceFree(value1) && BraceFree(mid)
    ensures ReplaceFirst(ReplaceFirst(head + slot1 + mid + slot2 + tail, slot1, value1), slot2, value2)
      == head + value1 + mid + value2 + tail
  {
    assert head + slot1 + mid + slot2 + tail == head + slot1 + (mid + slot2 + tail);
    FillSlot(head, slot1, mid + slot2 + tail, value1);
    assert head + value1 + (mid + slot2 + tail) == (head + value1 + mid) + slot2 + tail;
    FillSlot(head + value1 + mid, slot2, tail, value2);
  }

  lemma {:induction false} PartTranslateHeadBraceFree(sourceLang: string, targetLang: string)
    requires BraceFree(sourceLang) && BraceFree(targetLang)
    ensures BraceFree(PartTranslateHead(sourceLang, targetLang)) && BraceFree(SourceToChunk)
  {
  }

  /** When neither the languages nor the chunks contain `{`, the sequential
      `replace` calls put the tagged view and chunk `i` exactly where the
      template's placeholders were. */
  lemma {:induction false} MultiInitialPromptFilled(sourceLang: string, targetLang: string, chunks: seq<string>, i: nat)
    requires i < |chunks|
    requires BraceFree(sourceLang) && BraceFree(targetLang) && BraceFree(Join(chunks))
    ensures MultiInitialPrompt(sourceLang, targetLang, chunks, i)
      == PartTranslateHead(sourceLang, targetLang) + TaggedView(chunks, i) + SourceToChunk
         + chunks[i] + PartTranslateTail
  {
    TaggedViewBraceFree(chunks, i);
    PartTranslateHeadBraceFree(sourceLang, targetLang);
    FillTwoSlots(PartTranslateHead(sourceLang, targetLang), TaggedTextSlot, TaggedView(chunks, i),
                 SourceToChunk, ChunkSlot, chunks[i], PartTranslateTail);
  }

  lemma {:induction false} TaggedViewBraceFree(chunks: seq<string>, i: nat)
    requires i < |chunks| && BraceFree(Join(chunks))
    ensures BraceFree(Join(chunks[..i])) && BraceFree(chunks[i]) && BraceFree(Join(chunks[i + 1..]))
    ensures BraceFree(TaggedView(chunks, i))
  {
    var before, chunk, after := Join(chunks[..i]), chunks[i], Join(chunks[i + 1..]);
    JoinAround(chunks, i);
    assert '{' !in before + chunk + after;
    assert BraceFree(before) && BraceFree(chunk) && BraceFree(after);
    MarkersBraceFree(before, chunk, after);
  }

  lemma {:induction false} MarkersBraceFree(before: string, chunk: string, after: string)
    requires BraceFree(before) && BraceFree(chunk) && BraceFree(after)
    ensures BraceFree(before + OpenTag + chunk + CloseTag + after)
  {
  }

  /** A chunk that itself contains the text `{chunk_to_translate}` is hit by
      the second `replace` inside the already inserted tagged view: the chunk
      is substituted into its own copy there, and the template's placeholder
      reaches the model unfilled. */
  lemma {:induction false} MultiInitialPromptCollision(sourceLang: string, targetLang: string, chunks: seq<string>, i: nat, k: nat)
    requires i < |chunks|
    requires BraceFree(sourceLang) && BraceFree(targetLang) && BraceFree(Join(chunks[..i]))
    requires OccursAt(chunks[i], ChunkSlot, k)
    ensures var prompt := MultiInitialPrompt(sourceLang, targetLang, chunks, i);
      && prompt == PartTranslateHead(sourceLang, targetLang) + Join(chunks[..i]) + OpenTag
                    + ReplaceFirst(chunks[i], ChunkSlot, chunks[i]) + CloseTag + Join(chunks[i + 1..])
                    + SourceToChunk + ChunkSlot + PartTranslateTail
      && OccursAt(prompt, ChunkSlot, |prompt| - |PartTranslateTail| - |ChunkSlot|)
  {
    PartTranslateHeadBraceFree(sourceLang, targetLang);
    CollisionShape(PartTranslateHead(sourceLang, targetLang), TaggedTextSlot, Join(chunks[..i]), OpenTag,
                   chunks[i], CloseTag, Join(chunks[i + 1..]), SourceToChunk, ChunkSlot, PartTranslateTail, k);
  }

  /** `MultiInitialPromptCollision` over plain strings. */
  lemma {:induction false} CollisionShape(head: string, viewSlot: string, before: string, open: string, chunk: string,
                       close: string, after: string, mid: string, chunkSlot: string, tail: string, k: nat)
    requires |viewSlot| > 0 && viewSlot[0] == '{' && |chunkSlot| > 0 && chunkSlot[0] == '{'
    requires BraceFree(head) && BraceFree(before) && BraceFree(open) && OccursAt(chunk, chunkSlot, k)
    ensures var view := before + open + chunk + close + after;
      var prompt := ReplaceFirst(ReplaceFirst(head + viewSlot + mid + chunkSlot + tail, viewSlot, view),
                                 chunkSlot, chunk);
      && prompt == head + before + open + ReplaceFirst(chunk, chunkSlot, chunk) + close + after
                   + mid + chunkSlot + tail
      && OccursAt(prompt, chunkSlot, |prompt| - |tail| - |chunkSlot|)
  {
    var view := before + open + chunk + close + after;
    FillFirstOfTwo(head, viewSlot, view, mid, chunkSlot, tail);
    RegroupView(head, before, open, chunk, close, after, mid, chunkSlot, tail);
    SlotInsideChunk(head + before + open, chunk, close + after + mid, chunkSlot, tail, k);
    var filled := ReplaceFirst(chunk, chunkSlot, chunk);
    RegroupView(head, before, open, filled, close, after, mid, chunkSlot, tail);
    OccursBeforeTail(head + before + open + filled + (close + after + mid), chunkSlot, tail);
  }

  lemma {:induction false} RegroupView(head: string, before: string, open: string, chunk: string, close: string, after: string,
                    mid: string, slot: string, tail: string)
    ensures head + (before + open + chunk + close + after) + mid + slot + tail
         == head + before + open + chunk + (close + after + mid) + slot + tail
    ensures head + before + open + chunk + (close + after + mid) + slot + tail
         == head + before + open + chunk + close + after + mid + slot + tail
  {
  }

  lemma {:induction false} FillFirstOfTwo(head: string, slot1: string, value1: string, mid: string, slot2: string, tail: string)
    requires |slot1| > 0 && slot1[0] == '{' && BraceFree(head)
    ensures ReplaceFirst(head + slot1 + mid + slot2 + tail, slot1, value1) == head + value1 + mid + slot2 + tail
  {
    var rest := mid + slot2 + tail;
    assert head + slot1 + mid + slot2 + tail == head + slot1 + rest;
    FillSlot(head, slot1, rest, value1);
    assert head + value1 + rest == head + value1 + mid + slot2 + tail;
  }

  lemma {:induction false} OccursBeforeTail(front: string, pat: string, tail: string)
    ensures var s := front + pat + tail; OccursAt(s, pat, |s| - |tail| - |pat|)
  {
    var s := front + pat + tail;
    assert s[|front|..|front| + |pat|] == pat;
  }

  /** The second `replace` of a prompt whose first value carried the
      placeholder `slot` inside `chunk`. */
  lemma {:induction false} SlotInsideChunk(lead: string, chunk: string, trail: string, slot: string, tail: string, k: nat)
    requires |slot| > 0 && slot[0] == '{' && BraceFree(lead) && OccursAt(chunk, slot, k)
    ensures ReplaceFirst(lead + chunk + trail + slot + tail, slot, chunk)
      == lead + ReplaceFirst(chunk, slot, chunk) + trail + slot + tail
  {
    var later := trail + slot + tail;
    RegroupLater(lead, chunk, trail, slot, tail);
    ReplaceFirstSkips(lead, chunk + later, slot, chunk);
    ReplaceFirstWithin(chunk, later, slot, chunk, k);
    RegroupLater(lead, ReplaceFirst(chunk, slot, chunk), trail, slot, tail);
  }

  lemma {:induction false} RegroupLater(lead: string, chunk: string, trail: string, slot: string, tail: string)
    ensures lead + chunk + trail + slot + tail == lead + (chunk + (trail + slot + tail))
  {
  }

  /** Three placeholders after brace-free text, filled in order. */
  lemma {:induction false} FillThreeSlots(head: string, slot1: string, value1: string, mid1: string, slot2: string, value2: string,
                       mid2: string, slot3: string, value3: string, tail: string)
    requires |slot1| > 0 && slot1[0] == '{' && |slot2| > 0 && slot2[0] == '{' && |slot3| > 0 && slot3[0] == '{'
    requires BraceFree(head) && BraceFree(value1) && BraceFree(mid1) && BraceFree(value2) && BraceFree(mid2)
    ensures ReplaceFirst(ReplaceFirst(ReplaceFirst(head + (slot1 + mid1 + slot2 + mid2 + slot3 + tail),
                                                   slot1, value1), slot2, value2), slot3, value3)
      == head + value1 + mid1 + value2 + mid2 + value3 + tail
  {
    var rest := mid2 + slot3 + tail;
    RegroupInner(head, slot1, mid1, slot2, mid2, slot3, tail);
    FillTwoSlots(head, slot1, value1, mid1, slot2, value2, rest);
    RegroupOuter(head, value1, mid1, value2, mid2, slot3, tail);
    FillSlot(head + value1 + mid1 + value2 + mid2, slot3, tail, value3);
  }

  lemma {:induction false} RegroupInner(a: string, b: string, c: string, d: string, e: string, f: string, g: string)
    ensures a + (b + c + d + e + f + g) == a + b + c + d + (e + f + g)
  {
  }

  lemma {:induction false} RegroupOuter(a: string, b: string, c: string, d: string, e: string, f: string, g: string)
    ensures a + b + c + d + (e + f + g) == a + b + c + d + e + f + g
  {
  }

  /** Four placeholders after brace-free text, filled in order. */
  lemma {:induction false} FillFourSlots(head: string, slot1: string, value1: string, mid1: string, slot2: string, value2: string,
                      mid2: string, slot3: string, value3: string, mid3: string, slot4: string, value4: string,
                      tail: string)
    requires |slot1| > 0 && slot1[0] == '{' && |slot2| > 0 && slot2[0] == '{'
    requires |slot3| > 0 && slot3[0] == '{' && |slot4| > 0 && slot4[0] == '{'
    requires BraceFree(head) && BraceFree(value1) && BraceFree(mid1) && BraceFree(value2) && BraceFree(mid2)
    requires BraceFree(value3) && BraceFree(mid3)
    ensures ReplaceFirst(ReplaceFirst(ReplaceFirst(ReplaceFirst(
              head + (slot1 + mid1 + slot2 + mid2 + slot3 + mid3 + slot4 + tail),
              slot1, value1), slot2, value2), slot3, value3), slot4, value4)
      == head + value1 + mid1 + value2 + mid2 + value3 + mid3 + value4 + tail
  {
    var rest := mid3 + slot4 + tail;
    RegroupBody(slot1, mid1, slot2, mid2, slot3, mid3, slot4, tail);
    FillThreeSlots(head, slot1, value1, mid1, slot2, value2, mid2, slot3, value3, rest);
    var done := head + value1 + mid1 + value2 + mid2 + value3;
    RegroupLast(done, mid3, slot4, tail);
    FillSlot(done + mid3, slot4, tail, value4);
  }

  lemma {:induction false} RegroupBody(a: string, b: string, c: string, d: string, e: string, f: string, g: string, h: string)
    ensures a + b + c + d + e + f + g + h == a + b + c + d + e + (f + g + h)
  {
  }

  lemma {:induction false} RegroupLast(a: string, b: string, c: string, d: string)
    ensures a + (b + c + d) == a + b + c + d
  {
  }

  /** Filling placeholders never touches a brace-free prefix. */
  lemma {:induction false} FillsKeepPrefix(head: string, body: string, slot1: string, value1: string,
                        slot2: string, value2: string, slot3: string, value3: string)
    requires |slot1| > 0 && slot1[0] == '{' && |slot2| > 0 && slot2[0] == '{' && |slot3| > 0 && slot3[0] == '{'
    requires BraceFree(head)
    ensures ReplaceFirst(ReplaceFirst(ReplaceFirst(head + body, slot1, value1), slot2, value2), slot3, value3)
      == head + ReplaceFirst(ReplaceFirst(ReplaceFirst(body, slot1, value1), slot2, value2), slot3, value3)
  {
    var r1 := ReplaceFirst(body, slot1, value1);
    ReplaceFirstSkips(head, body, slot1, value1);
    var r2 := ReplaceFirst(r1, slot2, value2);
    ReplaceFirstSkips(head, r1, slot2, value2);
    ReplaceFirstSkips(head, r2, slot3, value3);
  }

  const SourceOpen := "\n<SOURCE_TEXT>\n"
  const SourceToChunkAgain := "\n</SOURCE_TEXT>\n\n" + "The part:\n<TRANSLATE_THIS>\n"
  const ChunkToTranslation := "\n</TRANSLATE_THIS>\n\n" + "<TRANSLATION>\n"
  const TranslationToSuggestions := "\n</TRANSLATION>\n\n" + "<EXPERT_SUGGESTIONS>\n"

  function PartReflectIntro(sourceLang: string, targetLang: string): string
  {
    "Criticise part of a translation from " + sourceLang + " to " + targetLang + ". "
  }

  function PartReflectHead(sourceLang: string, targetLang: string, country: string): string
  {
    PartReflectIntro(sourceLang, targetLang) + CountryClause(targetLang, country) + SourceOpen
  }

  function PartReflectBody(targetLang: string): string
  {
    TaggedTextSlot + SourceToChunkAgain + ChunkSlot + ChunkToTranslation + TranslationSlot
      + ("\n</TRANSLATION>\n\n" + ReviewCriteria(targetLang))
  }

  /** The pass-2 prompt for chunk `i`, given its pass-1 translation. */
  function MultiReflectPrompt(sourceLang: string, targetLang: string, country: string,
                              chunks: seq<string>, i: nat, translation1: string): string
    requires i < |chunks|
  {
    var template := PartReflectHead(sourceLang, targetLang, country) + PartReflectBody(targetLang);
    ReplaceFirst(ReplaceFirst(ReplaceFirst(template, TaggedTextSlot, TaggedView(chunks, i)),
                              ChunkSlot, chunks[i]), TranslationSlot, translation1)
  }

  lemma {:induction false} PartReflectBraceFree(sourceLang: string, targetLang: string, country: string)
    requires BraceFree(sourceLang) && BraceFree(targetLang) && BraceFree(country)
    ensures BraceFree(PartReflectHead(sourceLang, targetLang, country))
    ensures BraceFree(SourceToChunkAgain) && BraceFree(ChunkToTranslation)
  {
    CountryClauseBraceFree(targetLang, country);
    assert BraceFree(PartReflectIntro(sourceLang, targetLang));
    assert BraceFree(SourceOpen);
    SectionsBraceFree();
  }

  lemma {:induction false} CountryClauseBraceFree(targetLang: string, country: string)
    requires BraceFree(targetLang) && BraceFree(country)
    ensures BraceFree(CountryClause(targetLang, country))
  {
    assert BraceFree(CountrySentence(targetLang, country));
  }

  /** With brace-free languages, country and chunks, the pass-2 prompt for
      chunk `i` holds the tagged view, chunk `i` and its pass-1 translation
      exactly where the template's placeholders were. The translation is
      filled last, so it may contain anything. */
  lemma {:induction false} MultiReflectPromptFilled(sourceLang: string, targetLang: string, country: string,
                                 chunks: seq<string>, i: nat, translation1: string)
    requires i < |chunks|
    requires BraceFree(sourceLang) && BraceFree(targetLang) && BraceFree(country)
    requires BraceFree(Join(chunks))
    ensures MultiReflectPrompt(sourceLang, targetLang, country, chunks, i, translation1)
      == PartReflectHead(sourceLang, targetLang, country) + TaggedView(chunks, i) + SourceToChunkAgain
         + chunks[i] + ChunkToTranslation + translation1 + ("\n</TRANSLATION>\n\n" + ReviewCriteria(targetLang))
  {
    TaggedViewBraceFree(chunks, i);
    PartReflectBraceFree(sourceLang, targetLang, country);
    FillThreeSlots(PartReflectHead(sourceLang, targetLang, country),
                   TaggedTextSlot, TaggedView(chunks, i), SourceToChunkAgain,
                   ChunkSlot, chunks[i], ChunkToTranslation,
                   TranslationSlot, translation1, "\n</TRANSLATION>\n\n" + ReviewCriteria(targetLang));
  }

  /** The pass-2 prompt carries the country sentence right after its
      introduction if and only if a country is given (the languages and the
      country being free of `{`, so that no `replace` lands in them). */
  lemma {:induction false} MultiReflectCountry(sourceLang: string, targetLang: string, country: string,
                            chunks: seq<string>, i: nat, translation1: string)
    requires i < |chunks|
    requires BraceFree(sourceLang) && BraceFree(targetLang) && BraceFree(country)
    ensures var prompt := MultiReflectPrompt(sourceLang, targetLang, country, chunks, i, translation1);
      && |PartReflectIntro(sourceLang, targetLang)| <= |prompt|
      && (IsPrefix(CountrySentence(targetLang, country), prompt[|PartReflectIntro(sourceLang, targetLang)|..])
       <==> country != "")
  {
    var intro, clause := PartReflectIntro(sourceLang, targetLang), CountryClause(targetLang, country);
    var head := PartReflectHead(sourceLang, targetLang, country);
    PartReflectBraceFree(sourceLang, targetLang, country);
    var filledBody := ReplaceFirst(ReplaceFirst(ReplaceFirst(PartReflectBody(targetLang),
      TaggedTextSlot, TaggedView(chunks, i)), ChunkSlot, chunks[i]), TranslationSlot, translation1);
    FillsKeepPrefix(head, PartReflectBody(targetLang), TaggedTextSlot, TaggedView(chunks, i),
                    ChunkSlot, chunks[i], TranslationSlot, translation1);
    SliceAfterIntro(intro, clause, SourceOpen, filledBody);
    CountryClauseMarks(targetLang, country, SourceOpen + filledBody);
  }

  lemma {:induction false} SliceAfterIntro(intro: string, clause: string, open: string, rest: string)
    ensures (intro + clause + open + rest)[|intro|..] == clause + (open + rest)
  {
  }

  function PartEditHead(sourceLang: string, targetLang: string): string
  {
    "Improve part of a " + "translation from " + sourceLang + " to " + targetLang + ".\n" + SourceOpen
  }

  function PartEditBody(targetLang: string): string
  {
    TaggedTextSlot + SourceToChunkAgain + ChunkSlot + ChunkToTranslation + TranslationSlot
      + TranslationToSuggestions + ReflectionSlot
      + ("\n</EXPERT_SUGGESTIONS>\n\n" + EditCriteria(targetLang))
  }

  /** The pass-3 prompt for chunk `i`, given its pass-1 translation and its
      pass-2 suggestions. */
  function MultiImprovePrompt(sourceLang: string, targetLang: string, chunks: seq<string>, i: nat,
                              translation1: string, reflection: string): string
    requires i < |chunks|
  {
    var template := PartEditHead(sourceLang, targetLang) + PartEditBody(targetLang);
    ReplaceFirst(ReplaceFirst(ReplaceFirst(ReplaceFirst(template, TaggedTextSlot, TaggedView(chunks, i)),
      ChunkSlot, chunks[i]), TranslationSlot, translation1), ReflectionSlot, reflection)
  }

  lemma {:induction false} PartEditBraceFree(sourceLang: string, targetLang: string)
    requires BraceFree(sourceLang) && BraceFree(targetLang)
    ensures BraceFree(PartEditHead(sourceLang, targetLang)) && BraceFree(SourceToChunkAgain)
    ensures BraceFree(ChunkToTranslation) && BraceFree(TranslationToSuggestions)
  {
    assert BraceFree(SourceOpen);
    SectionsBraceFree();
    SuggestionsOpenBraceFree();
  }

  lemma {:induction false} SectionsBraceFree()
    ensures BraceFree(SourceToChunkAgain) && BraceFree(ChunkToTranslation)
  {
  }

  lemma {:induction false} SuggestionsOpenBraceFree()
    ensures BraceFree(TranslationToSuggestions)
  {
  }

  /** With brace-free inputs, the pass-3 prompt for chunk `i` holds the
      tagged view, chunk `i`, its pass-1 translation and its pass-2
      suggestions exactly where the template's placeholders were. */
  lemma {:induction false} MultiImprovePromptFilled(sourceLang: string, targetLang: string, chunks: seq<string>, i: nat,
                                 translation1: string, reflection: string)
    requires i < |chunks|
    requires BraceFree(sourceLang) && BraceFree(targetLang) && BraceFree(Join(chunks))
    requires BraceFree(translation1)
    ensures MultiImprovePrompt(sourceLang, targetLang, chunks, i, translation1, reflection)
      == PartEditHead(sourceLang, targetLang) + TaggedView(chunks, i) + SourceToChunkAgain + chunks[i]
         + ChunkToTranslation + translation1 + TranslationToSuggestions + reflection
         + ("\n</EXPERT_SUGGESTIONS>\n\n" + EditCriteria(targetLang))
  {
    TaggedViewBraceFree(chunks, i);
    PartEditBraceFree(sourceLang, targetLang);
    FillFourSlots(PartEditHead(sourceLang, targetLang),
                  TaggedTextSlot, TaggedView(chunks, i), SourceToChunkAgain,
                  ChunkSlot, chunks[i], ChunkToTranslation,
                  TranslationSlot, translation1, TranslationToSuggestions,
                  ReflectionSlot, reflection, "\n</EXPERT_SUGGESTIONS>\n\n" + EditCriteria(targetLang));
  }

  // ---------------------------------------------------------------------
  // Requests issued by the stages

  function OneChunkInitialRequest(sourceLang: string, targetLang: string, sourceText: string): Request
  {
    Request(TranslatorSystem(sourceLang, targetLang), OneChunkInitialPrompt(sourceLang, targetLang, sourceText))
  }

  function OneChunkReflectRequest(sourceLang: string, targetLang: string, sourceText: string,
                                  translation1: string, country: string): Request
  {
    Request(ReviewerSystem(sourceLang, targetLang),
            OneChunkReflectPrompt(sourceLang, targetLang, sourceText, translation1, country))
  }

  function OneChunkImproveRequest(sourceLang: string, targetLang: string, sourceText: string,
                                  translation1: string, reflection: string): Request
  {
    Request(EditorSystem(sourceLang, targetLang),
            OneChunkImprovePrompt(sourceLang, targetLang, sourceText, translation1, reflection))
  }

  /** Pass-1 request for chunk `i`. */
  function InitialRequest(sourceLang: string, targetLang: string, chunks: seq<string>, i: nat): Request
    requires i < |chunks|
  {
    Request(TranslatorSystem(sourceLang, targetLang), MultiInitialPrompt(sourceLang, targetLang, chunks, i))
  }

  /** Pass-2 request for chunk `i`: it reads entry `i` of the pass-1 output. */
  function ReflectRequest(sourceLang: string, targetLang: string, country: string, chunks: seq<string>,
                          translation1Chunks: seq<string>, i: nat): Request
    requires i < |chunks| && i < |translation1Chunks|
  {
    Request(ReviewerSystem(sourceLang, targetLang),
            MultiReflectPrompt(sourceLang, targetLang, country, chunks, i, translation1Chunks[i]))
  }

  /** Pass-3 request for chunk `i`: it reads entry `i` of the pass-1 and of
      the pass-2 output. */
  function ImproveRequest(sourceLang: string, targetLang: string, chunks: seq<string>,
                          translation1Chunks: seq<string>, reflectionChunks: seq<string>, i: nat): Request
    requires i < |chunks| && i < |translation1Chunks| && i < |reflectionChunks|
  {
    Request(EditorSystem(sourceLang, targetLang),
            MultiImprovePrompt(sourceLang, targetLang, chunks, i, translation1Chunks[i], reflectionChunks[i]))
  }
}

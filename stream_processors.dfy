/**
 * The two stream processors (core_stream.py:83-160).  A streamed reply is a sequence
 * of chunks, each either reasoning (`{'think': s}`) or content (`{'output': s}`).
 * A processor folds them into accumulated text and a status, under one of two
 * conventions:
 *  - separate channels, where reasoning arrives in `think` chunks;
 *  - markup, where reasoning arrives inside the content as `<think>…</think>`.
 *
 * Each step is a pure function on a view of the processor's fields.  The classes
 * update their fields in place and are proved to perform exactly that step.  The
 * lemmas characterise the state after a whole history of chunks.
 */
module StreamProcessors {
  import opened Text
  import opened Outline
  import opened Markup

  /** `{'think': s}` or `{'output': s}` */
  datatype Chunk = Think(text: String) | Output(text: String)

  /** `'think'` or `'output'` */
  datatype Phase = Thinking | Outputting

  /** What the separate-channel processors insert between reasoning and content. */
  const Break: String := "\n\n"

  // ---------------------------------------------------------------- chunk histories

  function Init(h: seq<Chunk>): seq<Chunk>
    requires |h| > 0
  {
    h[..|h| - 1]
  }

  function Last(h: seq<Chunk>): Chunk
    requires |h| > 0
  {
    h[|h| - 1]
  }

  /** The content a chunk carries. */
  function Content(c: Chunk): String {
    if c.Output? then c.text else []
  }

  /** All content received, in order. */
  function Outputs(h: seq<Chunk>): String {
    if h == [] then [] else Outputs(Init(h)) + Content(Last(h))
  }

  /** All reasoning received, in order. */
  function Thoughts(h: seq<Chunk>): String {
    if h == [] then [] else Thoughts(Init(h)) + (if Last(h).Think? then Last(h).text else [])
  }

  /** The channel of the last non-empty chunk. */
  function LastPhase(h: seq<Chunk>): Phase {
    if h == [] then Thinking
    else if Last(h).text == [] then LastPhase(Init(h))
    else if Last(h).Think? then Thinking else Outputting
  }

  /** The text of the last non-empty content chunk, or nothing. */
  function LastOutput(h: seq<Chunk>): String {
    if h == [] then []
    else if Last(h).Output? && Last(h).text != [] then Last(h).text
    else LastOutput(Init(h))
  }

  /** The text of the last non-empty reasoning chunk, or nothing. */
  function LastThought(h: seq<Chunk>): String {
    if h == [] then []
    else if Last(h).Think? && Last(h).text != [] then Last(h).text
    else LastThought(Init(h))
  }

  /** The reasoning in order, with a break before every non-empty content chunk that
      ends a stretch of reasoning (or the initial thinking phase). */
  function Reasoning(h: seq<Chunk>): String {
    if h == [] then []
    else if Last(h).Think? then Reasoning(Init(h)) + Last(h).text
    else if Last(h).text != [] && LastPhase(Init(h)) == Thinking then Reasoning(Init(h)) + Break
    else Reasoning(Init(h))
  }

  lemma {:induction false} OutputsAppend(a: seq<Chunk>, b: seq<Chunk>)
    ensures Outputs(a + b) == Outputs(a) + Outputs(b)
    decreases |b|
  {
    if b == [] {
      assert a + b == a;
    } else {
      assert Init(a + b) == a + Init(b);
      assert Last(a + b) == Last(b);
      OutputsAppend(a, Init(b));
    }
  }

  // ---------------------------------------------------------------- planning processor

  /** The fields of `StreamProcessorForPlanning`. */
  datatype PlanView = PlanView(think: String, chapters: seq<Entry>, buffer: String, status: Phase)

  /** `StreamProcessorForPlanning()` */
  const PlanStart := PlanView([], [], [], Thinking)

  /** `process_chunk_for_planning`: the outline is re-parsed on every content chunk,
      even an empty one. */
  function PlanStep(v: PlanView, c: Chunk): (r: PlanView)
    ensures c.text != [] ==> r.status == (if c.Think? then Thinking else Outputting)
    ensures c.Think? ==> r.chapters == v.chapters && r.buffer == v.buffer
    ensures c.Output? ==> r.buffer == v.buffer + c.text
  {
    match c
    case Think(x) => if x == [] then v else v.(status := Thinking, think := v.think + x)
    case Output(x) =>
      if x == [] then v.(chapters := ParseText(v.buffer))
      else
        var buffer := v.buffer + x;
        v.(think := if v.status == Thinking then v.think + Break else v.think,
           status := Outputting, buffer := buffer, chapters := ParseText(buffer))
  }

  /** `process_chunk_for_planning_2`: reasoning chunks are ignored; while thinking,
      content is buffered until it holds a complete pair, and the chunk completing it
      switches to output without re-parsing the outline. */
  function PlanStepMarkup(v: PlanView, c: Chunk): (r: PlanView)
    ensures c.Think? || c.text == [] ==> r == v
    ensures v.status == Outputting && c.Output? ==>
              r.status == Outputting && r.think == v.think && r.buffer == v.buffer + c.text
    ensures v.status == Thinking && r.status == Outputting ==>
              c.Output? && HasPair(v.buffer + c.text) && r.chapters == v.chapters
              && r.buffer == Strip(RemovePairs(v.buffer + c.text))
  {
    match c
    case Think(_) => v
    case Output(x) =>
      if x == [] then v
      else
        var b := v.buffer + x;
        if v.status == Outputting then v.(buffer := b, chapters := ParseText(b))
        else if !Contains(b, Open) then v.(buffer := b)
        else
          match FirstPair(b)
          case None => v.(buffer := b, think := OpenLineTail(b))
          case Some(p) => v.(status := Outputting, think := Inner(b, p), buffer := Strip(RemovePairs(b)))
  }

  /** The processor's fields after a history of chunks.  Every chapter came out of
      `parse_text`, so each is well-formed. */
  function PlanFold(markup: bool, h: seq<Chunk>): (v: PlanView)
    ensures forall i :: 0 <= i < |v.chapters| ==> WellFormed(v.chapters[i])
  {
    if h == [] then PlanStart
    else if markup then PlanStepMarkup(PlanFold(markup, Init(h)), Last(h))
    else PlanStep(PlanFold(markup, Init(h)), Last(h))
  }

  class PlanningProcessor {
    var think: String
    var chapters: seq<Entry>
    var buffer: String
    var status: Phase

    function View(): PlanView
      reads this
    {
      PlanView(think, chapters, buffer, status)
    }

    constructor ()
      ensures View() == PlanStart
    {
      think := [];
      chapters := [];
      buffer := [];
      status := Thinking;
    }

    /** `process_chunk_for_planning` */
    method ProcessChunk(c: Chunk)
      modifies this
      ensures View() == PlanStep(old(View()), c)
    {
      match c {
        case Think(x) =>
          if x != [] {
            status := Thinking;
            think := think + x;
          }
        case Output(x) =>
          ReceiveContent(x);
      }
    }

    /** `process_chunk_for_planning` for a content chunk: a non-empty one is appended
        to the buffer, and the outline is re-parsed in either case. */
    method ReceiveContent(x: String)
      modifies this
      ensures View() == PlanStep(old(View()), Output(x))
    {
      if x == [] {
        chapters := ParseText(buffer);
      } else {
        ghost var v := View();
        var b := buffer + x;
        if status == Thinking {
          think := think + Break;
        }
        status := Outputting;
        buffer := b;
        chapters := ParseText(b);
        assert View() == PlanStep(v, Output(x));
      }
    }

    /** `process_chunk_for_planning_2` */
    method ProcessChunkMarkup(c: Chunk)
      modifies this
      ensures View() == PlanStepMarkup(old(View()), c)
    {
      if c.Output? && c.text != [] {
        buffer := buffer + c.text;
        if status == Outputting {
          chapters := ParseText(buffer);
        } else if Contains(buffer, Open) {
          var pair := FirstPair(buffer);
          if pair.None? {
            think := OpenLineTail(buffer);
          } else {
            status := Outputting;
            think := Inner(buffer, pair.value);
            buffer := Strip(RemovePairs(buffer));
          }
        }
      }
    }
  }

  // ---------------------------------------------------------------- writing processor

  /** The fields of `StreamProcessorForWriting`. */
  datatype WriteView = WriteView(think: String, text: String, deltaThink: String, deltaText: String,
                                 status: Phase, buffer: String)

  /** `StreamProcessorForWriting()` */
  const WriteStart := WriteView([], [], [], [], Thinking, [])

  /** `process_chunk_for_writing` */
  function WriteStep(v: WriteView, c: Chunk): (r: WriteView)
    ensures r.text == v.text + (if c.Output? then c.text else []) && r.buffer == v.buffer
    ensures c.text != [] && c.Think? ==> r.deltaThink == c.text && r.deltaText == v.deltaText
    ensures c.text != [] && c.Output? ==> r.deltaText == c.text && r.deltaThink == v.deltaThink
  {
    match c
    case Think(x) => if x == [] then v else v.(status := Thinking, deltaThink := x, think := v.think + x)
    case Output(x) =>
      if x == [] then v
      else v.(think := if v.status == Thinking then v.think + Break else v.think,
              status := Outputting, deltaText := x, text := v.text + x)
  }

  /** `process_chunk_for_writing_2` with the prose taken from the buffer before it is
      cleared, as the planner does. */
  function WriteStepMarkup(v: WriteView, c: Chunk): (r: WriteView)
    ensures c.Think? || c.text == [] ==> r == v
    ensures v.status == Outputting && c.Output? ==> r.status == Outputting && r.text == v.text + c.text
    ensures v.status == Thinking && r.status == Outputting ==>
              c.Output? && HasPair(v.buffer + c.text) && r.buffer == []
              && r.text == Strip(RemovePairs(v.buffer + c.text))
  {
    match c
    case Think(_) => v
    case Output(x) =>
      if x == [] then v
      else if v.status == Outputting then v.(deltaText := x, text := v.text + x)
      else
        var b := v.buffer + x;
        if !Contains(b, Open) then v.(buffer := b)
        else
          match FirstPair(b)
          case None => v.(buffer := b, think := OpenLineTail(b))
          case Some(p) => v.(status := Outputting, buffer := [], think := Inner(b, p), text := Strip(RemovePairs(b)))
  }

  /** `process_chunk_for_writing_2` as written: the buffer is cleared before the prose
      is computed from it, so the prose is `"".strip()`. */
  function WriteStepMarkupAsWritten(v: WriteView, c: Chunk): (r: WriteView)
    ensures c.Think? || c.text == [] ==> r == v
    ensures v.status == Outputting && c.Output? ==> r.status == Outputting && r.text == v.text + c.text
    ensures v.status == Thinking && r.status == Outputting ==>
              c.Output? && HasPair(v.buffer + c.text) && r.buffer == [] && r.text == []
  {
    match c
    case Think(_) => v
    case Output(x) =>
      if x == [] then v
      else if v.status == Outputting then v.(deltaText := x, text := v.text + x)
      else
        var b := v.buffer + x;
        if !Contains(b, Open) then v.(buffer := b)
        else
          match FirstPair(b)
          case None => v.(buffer := b, think := OpenLineTail(b))
          case Some(p) =>
            var cleared: String := [];
            v.(status := Outputting, buffer := cleared, think := Inner(b, p), text := Strip(RemovePairs(cleared)))
  }

  function WriteFold(markup: bool, h: seq<Chunk>): WriteView {
    if h == [] then WriteStart
    else if markup then WriteStepMarkup(WriteFold(markup, Init(h)), Last(h))
    else WriteStep(WriteFold(markup, Init(h)), Last(h))
  }

  function WriteFoldAsWritten(h: seq<Chunk>): WriteView {
    if h == [] then WriteStart else WriteStepMarkupAsWritten(WriteFoldAsWritten(Init(h)), Last(h))
  }

  class WritingProcessor {
    var think: String
    var text: String
    var deltaThink: String
    var deltaText: String
    var status: Phase
    var buffer: String

    function View(): WriteView
      reads this
    {
      WriteView(think, text, deltaThink, deltaText, status, buffer)
    }

    constructor ()
      ensures View() == WriteStart
    {
      think := [];
      text := [];
      deltaThink := [];
      deltaText := [];
      status := Thinking;
      buffer := [];
    }

    /** `process_chunk_for_writing` */
    method ProcessChunk(c: Chunk)
      modifies this
      ensures View() == WriteStep(old(View()), c)
    {
      match c {
        case Think(x) =>
          if x != [] {
            status := Thinking;
            deltaThink := x;
            think := think + x;
          }
        case Output(x) =>
          if x != [] {
            if status == Thinking {
              think := think + Break;
            }
            status := Outputting;
            deltaText := x;
            text := text + x;
          }
      }
    }

    /** `process_chunk_for_writing_2`, with the prose computed before the buffer is
        cleared. */
    method ProcessChunkMarkup(c: Chunk)
      modifies this
      ensures View() == WriteStepMarkup(old(View()), c)
    {
      if c.Output? && c.text != [] {
        if status == Outputting {
          deltaText := c.text;
          text := text + c.text;
        } else {
          buffer := buffer + c.text;
          if Contains(buffer, Open) {
            var pair := FirstPair(buffer);
            if pair.None? {
              think := OpenLineTail(buffer);
            } else {
              status := Outputting;
              think := Inner(buffer, pair.value);
              text := Strip(RemovePairs(buffer));
              buffer := [];
            }
          }
        }
      }
    }
  }


  // ---------------------------------------------------------------- separate channels

  /** Separate channels, planning, without the outline: the buffer is all content
      received, the status is the channel of the last non-empty chunk, and the
      reasoning has a break before each switch to content. */
  lemma {:induction false} PlanSeparateText(h: seq<Chunk>)
    ensures PlanFold(false, h).buffer == Outputs(h)
    ensures PlanFold(false, h).status == LastPhase(h)
    ensures PlanFold(false, h).think == Reasoning(h)
  {
    if h != [] {
      PlanSeparateText(Init(h));
    }
  }

  /** A step re-parses the outline whenever it may change the buffer. */
  lemma PlanStepReparses(v: PlanView, c: Chunk)
    requires v.chapters == ParseText(v.buffer)
    ensures PlanStep(v, c).chapters == ParseText(PlanStep(v, c).buffer)
  {
    match c
    case Think(x) =>
    case Output(x) =>
      if x != [] {
        var b := v.buffer + x;
        assert PlanStep(v, c).buffer == b && PlanStep(v, c).chapters == ParseText(b);
      }
  }

  lemma {:induction false} PlanSeparateOutline(h: seq<Chunk>)
    ensures PlanFold(false, h).chapters == ParseText(PlanFold(false, h).buffer)
  {
    if h != [] {
      PlanSeparateOutline(Init(h));
      PlanStepReparses(PlanFold(false, Init(h)), Last(h));
    }
  }

  /** Separate channels, planning: the processor's fields after any history. */
  lemma PlanSeparateFold(h: seq<Chunk>)
    ensures PlanFold(false, h) == PlanView(Reasoning(h), ParseText(Outputs(h)), Outputs(h), LastPhase(h))
  {
    PlanSeparateText(h);
    PlanSeparateOutline(h);
  }

  /** Separate channels, writing: the prose is all content received, the deltas are the
      last non-empty chunk of each channel, and the reasoning is as for planning. */
  lemma {:induction false} WriteSeparateFold(h: seq<Chunk>)
    ensures WriteFold(false, h) == WriteView(Reasoning(h), Outputs(h), LastThought(h), LastOutput(h), LastPhase(h), [])
  {
    if h != [] {
      WriteSeparateFold(Init(h));
    }
  }

  /** Before any content arrives the reasoning is exactly the reasoning chunks. */
  lemma {:induction false} OnlyThoughts(ts: seq<Chunk>, os: seq<Chunk>)
    requires forall i :: 0 <= i < |ts| ==> ts[i].Think?
    requires forall i :: 0 <= i < |os| ==> os[i].Output?
    requires Outputs(os) == []
    ensures Reasoning(ts + os) == Thoughts(ts)
    ensures LastPhase(ts + os) == Thinking
    decreases |ts| + |os|
  {
    var h := ts + os;
    if os != [] {
      assert Init(h) == ts + Init(os) && Last(h) == Last(os);
      OnlyThoughts(ts, Init(os));
    } else if ts != [] {
      assert h == ts;
      assert Init(ts) + [] == Init(ts);
      OnlyThoughts(Init(ts), []);
    }
  }

  /** A reply that reasons and then answers leaves its reasoning followed by one break. */
  lemma {:induction false} ReasoningThenContent(ts: seq<Chunk>, os: seq<Chunk>)
    requires forall i :: 0 <= i < |ts| ==> ts[i].Think?
    requires forall i :: 0 <= i < |os| ==> os[i].Output?
    requires Outputs(os) != []
    ensures Reasoning(ts + os) == Thoughts(ts) + Break
    ensures LastPhase(ts + os) == Outputting
    decreases |os|
  {
    var h := ts + os;
    assert Init(h) == ts + Init(os) && Last(h) == Last(os);
    if Outputs(Init(os)) == [] {
      OnlyThoughts(ts, Init(os));
    } else {
      ReasoningThenContent(ts, Init(os));
    }
  }

  // ---------------------------------------------------------------- markup

  /** What the markup processors show as reasoning for the content received: the inner
      text of its first pair; without a pair, the rest of the line after the first
      opening tag, or nothing. */
  function MarkupThought(o: String): String {
    if HasPair(o) then Inner(o, FirstPair(o).value)
    else if Contains(o, Open) then OpenLineTail(o)
    else []
  }

  /** `a` ends with the chunk that completes the first pair of the content. */
  predicate SwitchesAt(a: seq<Chunk>) {
    |a| > 0 && !HasPair(Outputs(Init(a))) && HasPair(Outputs(a))
  }

  /** The planner's fields while the content `o` received holds no complete pair. */
  function PlanBefore(o: String): PlanView {
    PlanView(MarkupThought(o), [], o, Thinking)
  }

  /** The writer's fields while the content `o` received holds no complete pair. */
  function WriteBefore(o: String): WriteView {
    WriteView(MarkupThought(o), [], [], [], Thinking, o)
  }

  /** Before the pair is complete the thought is recomputed from the buffer. */
  lemma ThoughtBeforeStep(o: String, c: Chunk)
    requires !HasPair(o + Content(c))
    ensures !HasPair(o)
    ensures c.Output? && c.text != [] && Contains(o + c.text, Open) ==> MarkupThought(o + c.text) == OpenLineTail(o + c.text)
    ensures c.Output? && c.text != [] && !Contains(o + c.text, Open) ==> MarkupThought(o + c.text) == MarkupThought(o)
    ensures !(c.Output? && c.text != []) ==> o + Content(c) == o
  {
    NoPairPrefix(o, Content(c));
    if Contains(o, Open) {
      FindExtend(o, Content(c), Open, 0);
    }
  }

  lemma PlanBeforeStep(o: String, c: Chunk)
    requires !HasPair(o + Content(c))
    ensures PlanStepMarkup(PlanBefore(o), c) == PlanBefore(o + Content(c))
  {
    ThoughtBeforeStep(o, c);
  }

  lemma WriteBeforeStep(o: String, c: Chunk)
    requires !HasPair(o + Content(c))
    ensures WriteStepMarkup(WriteBefore(o), c) == WriteBefore(o + Content(c))
    ensures WriteStepMarkupAsWritten(WriteBefore(o), c) == WriteBefore(o + Content(c))
  {
    ThoughtBeforeStep(o, c);
  }

  /** The chunk that completes the pair carries content. */
  lemma SwitchChunk(o: String, c: Chunk)
    requires !HasPair(o) && HasPair(o + Content(c))
    ensures c.Output? && c.text != [] && Contains(o + c.text, Open)
    ensures MarkupThought(o + c.text) == Inner(o + c.text, FirstPair(o + c.text).value)
  {
    assert !(c.Output? && c.text != []) ==> o + Content(c) == o;
  }

  /** Markup mode, planning, before the content holds a complete pair: it is all
      buffered, no outline exists and the status stays `Thinking`. */
  lemma {:induction false} PlanMarkupBefore(h: seq<Chunk>)
    requires !HasPair(Outputs(h))
    ensures PlanFold(true, h) == PlanBefore(Outputs(h))
  {
    if h != [] {
      NoPairPrefix(Outputs(Init(h)), Content(Last(h)));
      PlanMarkupBefore(Init(h));
      PlanBeforeStep(Outputs(Init(h)), Last(h));
    }
  }

  /** The chunk completing the first pair switches the planner's status; the outline is
      not parsed on it. */
  lemma PlanMarkupSwitch(a: seq<Chunk>)
    requires SwitchesAt(a)
    ensures PlanFold(true, a) == PlanView(MarkupThought(Outputs(a)), [], Strip(RemovePairs(Outputs(a))), Outputting)
  {
    PlanMarkupBefore(Init(a));
    SwitchChunk(Outputs(Init(a)), Last(a));
  }

  /** After the switch a markup step only appends content to the buffer. */
  lemma PlanAfterStep(v: PlanView, c: Chunk)
    requires v.status == Outputting
    ensures PlanStepMarkup(v, c).status == Outputting && PlanStepMarkup(v, c).think == v.think
    ensures PlanStepMarkup(v, c).buffer == v.buffer + Content(c)
  {
    assert !(c.Output? && c.text != []) ==> v.buffer + Content(c) == v.buffer;
  }

  /** Markup mode, planning, from the chunk completing the first pair on: the status is
      `Outputting`, the reasoning is that pair's inner text, and the buffer is the
      content up to the switch with its pairs removed and then stripped, followed by
      all content after it. */
  lemma PlanMarkupAfter(a: seq<Chunk>, b: seq<Chunk>)
    requires SwitchesAt(a)
    ensures PlanFold(true, a + b).status == Outputting
    ensures PlanFold(true, a + b).think == MarkupThought(Outputs(a))
    ensures PlanFold(true, a + b).buffer == Strip(RemovePairs(Outputs(a))) + Outputs(b)
  {
    PlanMarkupSwitch(a);
    PlanAppendAfter(a, b);
  }

  /** Once the status is `Outputting`, later chunks only append content to the buffer. */
  lemma {:induction false} PlanAppendAfter(a: seq<Chunk>, b: seq<Chunk>)
    requires PlanFold(true, a).status == Outputting
    ensures PlanFold(true, a + b).status == Outputting
    ensures PlanFold(true, a + b).think == PlanFold(true, a).think
    ensures PlanFold(true, a + b).buffer == PlanFold(true, a).buffer + Outputs(b)
    decreases |b|
  {
    if b == [] {
      assert a + b == a;
    } else {
      assert Init(a + b) == a + Init(b) && Last(a + b) == Last(b);
      PlanAppendAfter(a, Init(b));
      PlanAfterStep(PlanFold(true, a + Init(b)), Last(b));
      AppendAssoc(PlanFold(true, a).buffer, Outputs(Init(b)), Content(Last(b)));
    }
  }

  /** A markup step re-parses the outline on every non-empty chunk after the switch. */
  lemma PlanMarkupStepReparses(v: PlanView, c: Chunk)
    requires v.status == Outputting
    ensures PlanStepMarkup(v, c).chapters ==
            if c.Output? && c.text != [] then ParseText(PlanStepMarkup(v, c).buffer) else v.chapters
  {
  }

  /** Markup mode, planning: the outline is parsed again once content arrives after the
      switch, and is empty until then. */
  lemma {:induction false} PlanMarkupOutline(a: seq<Chunk>, b: seq<Chunk>)
    requires SwitchesAt(a)
    ensures PlanFold(true, a + b).chapters ==
            if Outputs(b) == [] then [] else ParseText(PlanFold(true, a + b).buffer)
    decreases |b|
  {
    if b == [] {
      assert a + b == a;
      PlanMarkupSwitch(a);
    } else {
      assert Init(a + b) == a + Init(b) && Last(a + b) == Last(b);
      PlanMarkupOutline(a, Init(b));
      PlanMarkupAfter(a, Init(b));
      PlanMarkupStepReparses(PlanFold(true, a + Init(b)), Last(b));
    }
  }

  /** Markup mode: the status is `Outputting` exactly when the content received holds a
      complete pair. */
  lemma {:induction false} PlanMarkupStatus(h: seq<Chunk>)
    ensures PlanFold(true, h).status == Outputting <==> HasPair(Outputs(h))
  {
    if h != [] {
      if HasPair(Outputs(Init(h))) {
        PlanMarkupStatus(Init(h));
        FirstPairExtend(Outputs(Init(h)), Content(Last(h)));
      } else if HasPair(Outputs(h)) {
        PlanMarkupSwitch(h);
      } else {
        PlanMarkupBefore(h);
      }
    }
  }

  /** Markup mode: once the status turns to output it never turns back. */
  lemma PlanMarkupMonotone(h: seq<Chunk>, more: seq<Chunk>)
    requires PlanFold(true, h).status == Outputting
    ensures PlanFold(true, h + more).status == Outputting
  {
    PlanMarkupStatus(h);
    PlanMarkupStatus(h + more);
    OutputsAppend(h, more);
    FirstPairExtend(Outputs(h), Outputs(more));
  }

  /** Markup mode, writing, before the content holds a complete pair: it is all
      buffered and there is no prose yet; the code as written agrees. */
  lemma {:induction false} WriteMarkupBefore(h: seq<Chunk>)
    requires !HasPair(Outputs(h))
    ensures WriteFold(true, h) == WriteBefore(Outputs(h))
    ensures WriteFoldAsWritten(h) == WriteBefore(Outputs(h))
  {
    if h != [] {
      NoPairPrefix(Outputs(Init(h)), Content(Last(h)));
      WriteMarkupBefore(Init(h));
      WriteBeforeStep(Outputs(Init(h)), Last(h));
    }
  }

  /** The chunk completing the first pair switches the writer's status and, corrected,
      makes the prose the reply so far without its pairs. */
  lemma WriteMarkupSwitch(a: seq<Chunk>)
    requires SwitchesAt(a)
    ensures WriteFold(true, a) ==
            WriteView(MarkupThought(Outputs(a)), Strip(RemovePairs(Outputs(a))), [], [], Outputting, [])
    ensures WriteFoldAsWritten(a) == WriteView(MarkupThought(Outputs(a)), [], [], [], Outputting, [])
  {
    WriteMarkupBefore(Init(a));
    SwitchChunk(Outputs(Init(a)), Last(a));
  }

  /** After the switch a markup step only appends content to the prose. */
  lemma WriteAfterStep(v: WriteView, c: Chunk)
    requires v.status == Outputting
    ensures WriteStepMarkup(v, c) ==
            v.(text := v.text + Content(c), deltaText := if c.Output? && c.text != [] then c.text else v.deltaText)
    ensures WriteStepMarkupAsWritten(v, c) == WriteStepMarkup(v, c)
  {
    assert !(c.Output? && c.text != []) ==> v.text + Content(c) == v.text;
  }

  /** Markup mode, writing, from the chunk completing the first pair on: the prose is
      what the planner keeps as its buffer, and the last content delta is the last
      non-empty chunk after the switch. */
  lemma WriteMarkupAfter(a: seq<Chunk>, b: seq<Chunk>)
    requires SwitchesAt(a)
    ensures WriteFold(true, a + b) ==
            WriteView(MarkupThought(Outputs(a)), Strip(RemovePairs(Outputs(a))) + Outputs(b), [], LastOutput(b),
                      Outputting, [])
  {
    WriteMarkupSwitch(a);
    WriteAppendAfter(a, b);
  }

  /** Once the writer's status is `Outputting`, later chunks only append content to the
      prose; the code as written behaves the same from there on. */
  lemma {:induction false} WriteAppendAfter(a: seq<Chunk>, b: seq<Chunk>)
    requires WriteFold(true, a).status == Outputting && WriteFoldAsWritten(a).status == Outputting
    ensures WriteFold(true, a + b) ==
            WriteFold(true, a).(text := WriteFold(true, a).text + Outputs(b),
                                deltaText := if LastOutput(b) == [] then WriteFold(true, a).deltaText else LastOutput(b))
    ensures WriteFoldAsWritten(a + b) ==
            WriteFoldAsWritten(a).(text := WriteFoldAsWritten(a).text + Outputs(b),
                                   deltaText := if LastOutput(b) == [] then WriteFoldAsWritten(a).deltaText else LastOutput(b))
    decreases |b|
  {
    if b == [] {
      assert a + b == a;
    } else {
      assert Init(a + b) == a + Init(b) && Last(a + b) == Last(b);
      WriteAppendAfter(a, Init(b));
      WriteAfterStep(WriteFold(true, a + Init(b)), Last(b));
      WriteAfterStep(WriteFoldAsWritten(a + Init(b)), Last(b));
      AppendAssoc(WriteFold(true, a).text, Outputs(Init(b)), Content(Last(b)));
      AppendAssoc(WriteFoldAsWritten(a).text, Outputs(Init(b)), Content(Last(b)));
    }
  }

  /** The corrected writer's prose is the planner's buffer, and both show the same
      reasoning. */
  lemma WriterMatchesPlanner(a: seq<Chunk>, b: seq<Chunk>)
    requires SwitchesAt(a)
    ensures WriteFold(true, a + b).text == PlanFold(true, a + b).buffer
    ensures WriteFold(true, a + b).think == PlanFold(true, a + b).think
  {
    PlanMarkupAfter(a, b);
    WriteMarkupAfter(a, b);
  }

  /** As written, the prose after the switch is only the content of later chunks:
      whatever followed the closing tag in the completing chunk is lost. */
  lemma AsWrittenAfter(a: seq<Chunk>, b: seq<Chunk>)
    requires SwitchesAt(a)
    ensures WriteFoldAsWritten(a + b).text == Outputs(b)
    ensures WriteFoldAsWritten(a + b).status == Outputting
  {
    WriteMarkupSwitch(a);
    WriteAppendAfter(a, b);
  }

  // ---------------------------------------------------------------- examples

  /** Two content chunks, the second completing the first pair. */
  lemma TwoChunkSwitch(x: String, y: String)
    requires !HasPair(x) && HasPair(x + y)
    ensures SwitchesAt([Output(x), Output(y)]) && Outputs([Output(x), Output(y)]) == x + y
  {
    var h := [Output(x), Output(y)];
    assert Init(h) == [Output(x)] && Init(Init(h)) == [];
    assert Outputs(Init(h)) == [] + x == x;
  }

  /** A reply whose opening tag is split over its first two chunks: `<thi`, then
      `nk>t</think>o`. */
  function SplitTagReply(t: String, o: String): seq<Chunk> {
    [Output("<thi"), Output("nk>" + (t + Close + o))]
  }

  lemma SplitTagSwitches(t: String, o: String)
    requires !Contains(t, Close)
    ensures SwitchesAt(SplitTagReply(t, o))
    ensures Outputs(SplitTagReply(t, o)) == Open + t + Close + o
  {
    var r := t + Close + o;
    assert "<thi" + "nk>" == Open;
    AppendAssoc("<thi", "nk>", r);
    assert Open + t + Close + o == Open + r;
    FirstPairTagged(t, o);
    ShortHasNoTag("<thi");
    TwoChunkSwitch("<thi", "nk>" + r);
  }

  /** The corrected writer shows `t` as the thought and the stripped `o` as the prose. */
  lemma ExampleSplitTag(t: String, o: String)
    requires !Contains(t, Close) && !HasPair(o)
    ensures WriteFold(true, SplitTagReply(t, o)).think == t
    ensures WriteFold(true, SplitTagReply(t, o)).text == Strip(o)
    ensures WriteFold(true, SplitTagReply(t, o)).status == Outputting
  {
    var h := SplitTagReply(t, o);
    SplitTagSwitches(t, o);
    TaggedParts(t, o);
    WriteMarkupAfter(h, []);
    assert h + [] == h;
  }

  /** As written, the writer's prose for the same reply stays empty, however much
      content followed the closing tag. */
  lemma AsWrittenLosesProse(t: String, o: String)
    requires !Contains(t, Close) && !HasPair(o)
    ensures WriteFoldAsWritten(SplitTagReply(t, o)).text == []
    ensures WriteFold(true, SplitTagReply(t, o)).text == Strip(o)
  {
    var h := SplitTagReply(t, o);
    SplitTagSwitches(t, o);
    AsWrittenAfter(h, []);
    assert h + [] == h;
    ExampleSplitTag(t, o);
  }
}

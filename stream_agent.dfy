/**
 * The streaming `AgentWriter` (core_stream.py:163-326).
 * - `set_instruction` opens a fresh work folder.
 * - `make_plan` streams the outline through a planning processor and checkpoints it.
 * - Each `write` streams one section through a writing processor and appends it to
 *   the full text.
 *
 * `make_plan` and `write` are generators in the source; here each returns the
 * snapshots it would yield together with its exit.  A streamed reply is the list of
 * chunks the transport handed over across all its attempts.  When every attempt
 * fails, that list is simply shorter, because the transport's `-1` ends the generator
 * instead of reaching the caller.  A reply may end with a `KeyboardInterrupt` raised
 * after its last chunk.
 */
module StreamAgent {
  import opened Text
  import opened Outline
  import opened Markup
  import opened StreamProcessors
  import opened Workspace

  /** What the constructor reads from the configuration: the two templates, the word
      limits, and whether reasoning arrives as markup (`reasoning == 2`). */
  datatype Config = Config(templatePlan: String, templateWrite: String, limits: WordLimits, markup: bool)

  datatype StreamReply = StreamReply(chunks: seq<Chunk>, interrupted: bool)

  // ---------------------------------------------------------------- what the generators yield

  /** `(processor.status, processor.think, processor.chapters)` */
  datatype PlanSnap = PlanSnap(status: Phase, think: String, chapters: seq<Entry>)

  function PlanSnapOf(v: PlanView): PlanSnap {
    PlanSnap(v.status, v.think, v.chapters)
  }

  /** With markup, `(status, think, text)` after every chunk; with separate channels,
      `(status, think)` while thinking and `(status, text)` once writing. */
  datatype WriteSnap = Full(status: Phase, think: String, text: String) | Thought(think: String) | Prose(text: String)

  function WriteSnapOf(markup: bool, v: WriteView): WriteSnap {
    if markup then Full(v.status, v.think, v.text)
    else if v.status == Thinking then Thought(v.think)
    else Prose(v.text)
  }

  /** One snapshot per chunk, of the planning processor just after that chunk. */
  function PlanSnaps(markup: bool, h: seq<Chunk>): (r: seq<PlanSnap>)
    ensures |r| == |h|
  {
    if h == [] then [] else PlanSnaps(markup, Init(h)) + [PlanSnapOf(PlanFold(markup, h))]
  }

  /** One snapshot per chunk, of the writing processor just after that chunk. */
  function WriteSnaps(markup: bool, h: seq<Chunk>): (r: seq<WriteSnap>)
    ensures |r| == |h|
  {
    if h == [] then [] else WriteSnaps(markup, Init(h)) + [WriteSnapOf(markup, WriteFold(markup, h))]
  }

  /** The snapshot yielded after chunk `i` shows the planning processor as it stands
      after the first `i + 1` chunks. */
  lemma {:induction false} PlanSnapAt(markup: bool, h: seq<Chunk>, i: nat)
    requires i < |h|
    ensures PlanSnaps(markup, h)[i] == PlanSnapOf(PlanFold(markup, h[..i + 1]))
    decreases |h|
  {
    if i == |h| - 1 {
      assert h[..i + 1] == h;
    } else {
      PlanSnapAt(markup, Init(h), i);
      assert Init(h)[..i + 1] == h[..i + 1];
    }
  }

  /** The snapshot yielded after chunk `i` shows the writing processor as it stands
      after the first `i + 1` chunks. */
  lemma {:induction false} WriteSnapAt(markup: bool, h: seq<Chunk>, i: nat)
    requires i < |h|
    ensures WriteSnaps(markup, h)[i] == WriteSnapOf(markup, WriteFold(markup, h[..i + 1]))
    decreases |h|
  {
    if i == |h| - 1 {
      assert h[..i + 1] == h;
    } else {
      WriteSnapAt(markup, Init(h), i);
      assert Init(h)[..i + 1] == h[..i + 1];
    }
  }

  // ---------------------------------------------------------------- the processing loops

  /** The loop of `make_plan`: a fresh planning processor consumes the chunks in order,
      with a snapshot after each. */
  method ProcessPlanning(markup: bool, chunks: seq<Chunk>) returns (snaps: seq<PlanSnap>, last: PlanView)
    ensures last == PlanFold(markup, chunks)
    ensures snaps == PlanSnaps(markup, chunks)
  {
    var processor := new PlanningProcessor();
    snaps := [];
    for i := 0 to |chunks|
      invariant processor.View() == PlanFold(markup, chunks[..i])
      invariant snaps == PlanSnaps(markup, chunks[..i])
    {
      assert Init(chunks[..i + 1]) == chunks[..i] && Last(chunks[..i + 1]) == chunks[i];
      if markup {
        processor.ProcessChunkMarkup(chunks[i]);
      } else {
        processor.ProcessChunk(chunks[i]);
      }
      snaps := snaps + [PlanSnapOf(processor.View())];
    }
    assert chunks[..|chunks|] == chunks;
    last := processor.View();
  }

  /** The loop of `write`: a fresh writing processor consumes the chunks in order, with
      a snapshot after each. */
  method ProcessWriting(markup: bool, chunks: seq<Chunk>) returns (snaps: seq<WriteSnap>, last: WriteView)
    ensures last == WriteFold(markup, chunks)
    ensures snaps == WriteSnaps(markup, chunks)
  {
    var processor := new WritingProcessor();
    snaps := [];
    for i := 0 to |chunks|
      invariant processor.View() == WriteFold(markup, chunks[..i])
      invariant snaps == WriteSnaps(markup, chunks[..i])
    {
      assert Init(chunks[..i + 1]) == chunks[..i] && Last(chunks[..i + 1]) == chunks[i];
      if markup {
        processor.ProcessChunkMarkup(chunks[i]);
      } else {
        processor.ProcessChunk(chunks[i]);
      }
      snaps := snaps + [WriteSnapOf(markup, processor.View())];
    }
    assert chunks[..|chunks|] == chunks;
    last := processor.View();
  }

  // ---------------------------------------------------------------- the record of a run

  /** The full text a sequence of section log entries adds up to: each section's
      output followed by a blank line. */
  function Sections(log: seq<LogEntry>): (r: String)
    ensures |r| >= |SectionBreak| * |log|
  {
    if log == [] then [] else Sections(log[..|log| - 1]) + log[|log| - 1].output + SectionBreak
  }

  /** The plan's entry comes first in the log; each written section adds one entry. */
  lemma SectionsAppend(log: seq<LogEntry>, e: LogEntry)
    ensures Sections(log + [e]) == Sections(log) + e.output + SectionBreak
  {
    assert (log + [e])[..|log|] == log;
  }

  /** The prose of a log is the prose of its parts, in order. */
  lemma {:induction false} SectionsConcat(a: seq<LogEntry>, b: seq<LogEntry>)
    ensures Sections(a + b) == Sections(a) + Sections(b)
    decreases |b|
  {
    if b == [] {
      assert a + b == a;
    } else {
      var b0 := b[..|b| - 1];
      var e := b[|b| - 1];
      assert b == b0 + [e];
      assert a + b == (a + b0) + [e];
      SectionsAppend(a + b0, e);
      SectionsAppend(b0, e);
      SectionsConcat(a, b0);
    }
  }

  /** The fields of `AgentWriter` other than its configuration.  Before the first
      instruction there is no work folder; `NewFolder([])` stands in for it. */
  datatype AgentState = AgentState(status: Status, instruction: String, promptPlan: String, promptWrite: String,
                                   planText: String, planList: seq<String>, nChapters: int, curr: int,
                                   written: String, folder: Folder)

  /** `AgentWriter(config)` once the configuration and templates are read. */
  const Fresh := AgentState(Setting, [], [], [], [], [], 0, 0, [], NewFolder([]))

  /** What a writing agent and its folder agree on.
      - The plan list is the split plan, and the section cursor lies between 0 and the
        number of sections.
      - The saved plan and the stop marker match the fields.
      - The log holds the plan's entry and then one entry per section written.
      - The full text file and the prose so far are both the logged sections. */
  predicate Checkpointed(a: AgentState) {
    a.planList == SplitPlan(a.planText) && a.nChapters == |a.planList| && 0 <= a.curr <= a.nChapters &&
    a.folder.plan == Some(a.planText) && a.folder.stop == Some(IntToString(a.curr)) &&
    |a.folder.log| == a.curr + 1 && a.folder.fulltext == a.written && a.written == Sections(a.folder.log[1..])
  }

  /** What every method keeps true.  Once an instruction is set, the folder records
      it.  Until a plan is made the folder holds nothing else, and once writing it is
      checkpointed. */
  predicate Consistent(a: AgentState) {
    (a.status != Setting ==> a.folder.instruction == Some(a.instruction)) &&
    (a.status == Planning ==> a.folder == NewFolder(a.instruction)) &&
    (a.status == Writing ==> Checkpointed(a))
  }

  /** What planning and writing leave alone: the instruction, the prompts and the
      folder's instruction. */
  predicate SameJob(a: AgentState, b: AgentState) {
    a.instruction == b.instruction && a.promptPlan == b.promptPlan && a.promptWrite == b.promptWrite &&
    a.folder.instruction == b.folder.instruction
  }

  /** `set_instruction`: both prompts are built from the instruction, a new folder
      holding only the instruction is opened, and planning may start, whatever the
      agent did before. */
  function Instructed(cfg: Config, a: AgentState, inst: String): (r: AgentState)
    ensures Consistent(r) && r.status == Planning && r.folder == NewFolder(inst)
    ensures r.promptPlan == PlanPrompt(cfg.templatePlan, inst, cfg.limits, MaxWordsKey)
    ensures r.promptWrite == Replace(cfg.templateWrite, "$INST$", inst)
  {
    a.(status := Planning, instruction := inst,
       promptPlan := PlanPrompt(cfg.templatePlan, inst, cfg.limits, MaxWordsKey),
       promptWrite := Replace(cfg.templateWrite, "$INST$", inst),
       folder := NewFolder(inst))
  }

  /** The end of a completed `make_plan`.  The processor's outline, rendered one line per
      chapter, becomes the plan: it is logged with the reasoning and saved, its lines are
      the sections to write, one per chapter, and writing starts at section 0. */
  function Planned(a: AgentState, v: PlanView): (r: AgentState)
    requires Consistent(a) && a.status == Planning
    requires forall i :: 0 <= i < |v.chapters| ==> WellFormed(v.chapters[i])
    ensures Consistent(r) && r.status == Writing && r.curr == 0 && r.written == []
    ensures r.planList == PlanLines(v.chapters) && r.nChapters == |v.chapters|
    ensures r.planText == PlanText(v.chapters) && r.folder.plan == Some(PlanText(v.chapters))
    ensures r.folder.log == [LogEntry(a.promptPlan, Some(v.think), PlanText(v.chapters))]
    ensures SameJob(a, r)
  {
    var plan := PlanText(v.chapters);
    SplitPlanText(v.chapters);
    var r := a.(status := Writing, planText := plan, planList := SplitPlan(plan), nChapters := |v.chapters|,
                curr := 0, written := [],
                folder := a.folder.(plan := Some(plan), stop := Some("0"),
                                    log := a.folder.log + [LogEntry(a.promptPlan, Some(v.think), plan)]));
    assert r.folder.log[1..] == [];
    r
  }

  /** The end of a completed `write`.  The section's prose and reasoning are logged,
      and the prose is appended to the full text and to the prose so far, followed by
      a blank line.  The cursor moves on, and the stop marker records it. */
  function Wrote(cfg: Config, a: AgentState, v: WriteView): (r: AgentState)
    requires Consistent(a) && a.status == Writing && a.curr < a.nChapters
    ensures Consistent(r) && r.status == Writing && r.curr == a.curr + 1
    ensures r.written == a.written + v.text + SectionBreak && r.planList == a.planList
    ensures SameJob(a, r) && r.planText == a.planText && r.nChapters == a.nChapters
    ensures r.folder.log == a.folder.log +
              [LogEntry(WritePrompt(cfg.templateWrite, a.planText, a.written, a.planList[a.curr]), Some(v.think), v.text)]
  {
    var entry := LogEntry(WritePrompt(cfg.templateWrite, a.planText, a.written, a.planList[a.curr]), Some(v.think), v.text);
    var log := a.folder.log + [entry];
    SectionsAppend(a.folder.log[1..], entry);
    assert log[1..] == a.folder.log[1..] + [entry];
    var prose := a.written + v.text + SectionBreak;
    a.(curr := a.curr + 1, written := prose,
       folder := a.folder.(log := log, fulltext := prose, stop := Some(IntToString(a.curr + 1))))
  }

  /** The stop marker of a writing agent reads back as its section cursor. */
  lemma StopRecordsProgress(a: AgentState)
    requires Consistent(a) && a.status == Writing
    ensures a.folder.stop.Some? && ParseInt(a.folder.stop.value) == Some(a.curr)
  {
    ParseIntToString(a.curr);
  }

  class AgentWriter {
    const config: Config
    var status: Status
    var instruction: String
    var promptPlan: String
    var promptWrite: String
    var planText: String
    var planList: seq<String>
    var nChapters: int
    var curr: int
    var written: String
    /** The current work folder. */
    var folder: Folder

    function State(): AgentState
      reads this
    {
      AgentState(status, instruction, promptPlan, promptWrite, planText, planList, nChapters, curr, written, folder)
    }

    predicate Valid()
      reads this
    {
      Consistent(State())
    }

    constructor (config: Config)
      ensures this.config == config && State() == Fresh && Valid()
    {
      this.config := config;
      status := Setting;
      instruction := [];
      promptPlan := [];
      promptWrite := [];
      planText := [];
      planList := [];
      nChapters := 0;
      curr := 0;
      written := [];
      folder := NewFolder([]);
    }

    /** `set_instruction` */
    method SetInstruction(inst: String)
      modifies this
      ensures Valid() && State() == Instructed(config, old(State()), inst)
    {
      ghost var next := Instructed(config, State(), inst);
      instruction := inst;
      promptPlan := PlanPrompt(config.templatePlan, inst, config.limits, MaxWordsKey);
      promptWrite := Replace(config.templateWrite, "$INST$", inst);
      folder := NewFolder(inst);
      status := Planning;
      assert State() == next;
    }

    /** `make_plan`.
        - Without an instruction it returns -1, and with a plan already made it returns
          0, changing nothing in either case.
        - While planning it yields one snapshot per chunk.  An interrupt propagates,
          leaving the agent as it was; otherwise the plan is adopted and 0 returned. */
    method MakePlan(reply: StreamReply) returns (snaps: seq<PlanSnap>, exit: Exit)
      requires Valid()
      modifies this
      ensures Valid()
      ensures old(status) == Setting ==> exit == Return(-1) && snaps == [] && State() == old(State())
      ensures old(status) == Writing ==> exit == Return(0) && snaps == [] && State() == old(State())
      ensures old(status) == Planning ==> snaps == PlanSnaps(config.markup, reply.chunks)
      ensures old(status) == Planning && reply.interrupted ==> exit == Raised && State() == old(State())
      ensures old(status) == Planning && !reply.interrupted ==>
                exit == Return(0) && State() == Planned(old(State()), PlanFold(config.markup, reply.chunks))
    {
      if status == Setting {
        return [], Return(-1);
      } else if status == Writing {
        return [], Return(0);
      }
      var last;
      snaps, last := ProcessPlanning(config.markup, reply.chunks);
      if reply.interrupted {
        return snaps, Raised;
      }
      AdoptPlan(last);
      exit := Return(0);
    }

    /** The end of `make_plan` once the reply is complete: the log entry, the saved plan,
        the section list and the stop marker. */
    method AdoptPlan(last: PlanView)
      requires Valid() && status == Planning
      requires forall i :: 0 <= i < |last.chapters| ==> WellFormed(last.chapters[i])
      modifies this
      ensures Valid() && State() == Planned(old(State()), last)
    {
      ghost var next := Planned(State(), last);
      var plan := PlanText(last.chapters);
      var entry := LogEntry(promptPlan, Some(last.think), plan);
      var sections := SplitPlan(plan);
      folder := folder.(log := folder.log + [entry], plan := Some(plan), stop := Some("0"));
      planText := plan;
      planList := sections;
      status := Writing;
      nChapters := |last.chapters|;
      curr := 0;
      written := [];
      assert State() == next;
    }

    /** `write`.
        - Without a plan it fails its assertion.  With every section written it returns
          -1, changing nothing.
        - Otherwise it requests the current section, yielding one snapshot per chunk.
        - An interrupt returns -1 and leaves the section to be written again; a
          completed reply is recorded. */
    method Write(reply: StreamReply) returns (snaps: seq<WriteSnap>, exit: Exit)
      requires Valid()
      modifies this
      ensures Valid()
      ensures old(status) != Writing ==> exit == Raised && snaps == [] && State() == old(State())
      ensures old(status) == Writing && old(curr) >= old(nChapters) ==>
                exit == Return(-1) && snaps == [] && State() == old(State())
      ensures old(status) == Writing && old(curr) < old(nChapters) ==> snaps == WriteSnaps(config.markup, reply.chunks)
      ensures old(status) == Writing && old(curr) < old(nChapters) && reply.interrupted ==>
                exit == Return(-1) && State() == old(State())
      ensures old(status) == Writing && old(curr) < old(nChapters) && !reply.interrupted ==>
                exit == ReturnNone && State() == Wrote(config, old(State()), WriteFold(config.markup, reply.chunks))
    {
      if status != Writing {
        return [], Raised;
      }
      if curr >= nChapters {
        return [], Return(-1);
      }
      var prompt := WritePrompt(config.templateWrite, planText, written, planList[curr]);
      var last;
      snaps, last := ProcessWriting(config.markup, reply.chunks);
      if reply.interrupted {
        folder := folder.(stop := Some(IntToString(curr)));
        return snaps, Return(-1);
      }
      RecordSection(prompt, last);
      exit := ReturnNone;
    }

    /** The bookkeeping after a completed section: the log entry, the prose in
        fulltext.txt and the agent, and the advanced stop marker. */
    method RecordSection(prompt: String, last: WriteView)
      requires Valid() && status == Writing && curr < nChapters
      requires prompt == WritePrompt(config.templateWrite, planText, written, planList[curr])
      modifies this
      ensures Valid() && State() == Wrote(config, old(State()), last)
    {
      ghost var next := Wrote(config, State(), last);
      folder := folder.(log := folder.log + [LogEntry(prompt, Some(last.think), last.text)]);
      folder := folder.(fulltext := folder.fulltext + last.text + SectionBreak);
      written := written + last.text + SectionBreak;
      curr := curr + 1;
      folder := folder.(stop := Some(IntToString(curr)));
      assert State() == next;
    }
  }
}

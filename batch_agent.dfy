/**
 * The non-streaming `AgentWriter` (core_nonstream.py:48-226), which receives each reply
 * whole.  Beyond what the streaming agent does:
 * - `plan_and_write` runs a whole job;
 * - `continue_from_stop` resumes a job from its folder and stop marker.
 *
 * A request's outcome is what `chat` returns for it: a failure after all retries, an
 * interrupt by the user, or a decoded reply.  A run is handed the outcomes of its
 * requests in order; a request beyond the list fails.
 */
module BatchAgent {
  import opened Text
  import opened Outline
  import opened Markup
  import opened Workspace

  /** `model_args['reasoning']`: 1 reads a separate reasoning field, 2 reads
      `<think>` markup in the content, anything else records no reasoning. */
  datatype ReasoningMode = NoReasoning | ReasoningField | ReasoningMarkup

  datatype Config = Config(templatePlan: String, templateWrite: String, limits: WordLimits, mode: ReasoningMode)

  /** What `chat` returns: -1, an interrupt propagating out of it, or a reply with its
      reasoning (absent when the mode records none) and its output. */
  datatype ChatReply = ChatFail | ChatInterrupted | ChatOk(think: Option<String>, output: String)

  /** The outcome of the `i`-th request of a run. */
  function Reply(replies: seq<ChatReply>, i: nat): ChatReply {
    if i < |replies| then replies[i] else ChatFail
  }

  /** One attempt of `chat` at the service: an exception (caught, and retried), an
      interrupt by the user (not an `Exception`, so it propagates), or a response with
      a reasoning field and a content field. */
  datatype Attempt = AttemptFailed | AttemptInterrupted | Response(reasoning: String, content: String)

  /** The `i`-th attempt; attempts beyond the list fail. */
  function AttemptAt(attempts: seq<Attempt>, i: nat): Attempt {
    if i < |attempts| then attempts[i] else AttemptFailed
  }

  /** An attempt that `chat` catches and retries: an exception from the service, or a
      markup response that cannot be split. */
  predicate Retried(mode: ReasoningMode, a: Attempt) {
    a.AttemptFailed? || (a.Response? && Decode(mode, a.reasoning, a.content).None?)
  }

  /** How `chat` reads one response with the given reasoning field and content.
      `None` is the `IndexError` of a markup reply holding no complete pair, after
      which `chat` tries again. */
  function Decode(mode: ReasoningMode, reasoning: String, content: String): (r: Option<ChatReply>)
    ensures r.None? <==> mode == ReasoningMarkup && !HasPair(content)
    ensures r.Some? ==> r.value.ChatOk? && (r.value.think.None? <==> mode == NoReasoning)
    ensures mode == ReasoningMarkup && r.Some? ==> !Contains(r.value.think.value, Close)
    ensures mode != ReasoningMarkup ==> r.Some? && r.value.output == content
  {
    match mode
    case ReasoningField => Some(ChatOk(Some(reasoning), content))
    case ReasoningMarkup =>
      (match SeparateThoughtsAndOutput(content)
       case None => None
       case Some(parts) => Some(ChatOk(Some(parts.0), parts.1)))
    case NoReasoning => Some(ChatOk(None, content))
  }

  /** A markup reply `<think>t</think>o` decodes to the reasoning `t` and the stripped
      output `o`. */
  lemma DecodeTagged(reasoning: String, t: String, o: String)
    requires !Contains(t, Close) && !HasPair(o)
    ensures Decode(ReasoningMarkup, reasoning, Open + t + Close + o) == Some(ChatOk(Some(t), Strip(o)))
  {
    SeparateCompose(t, o);
  }

  /** What `chat` returns when attempts `i` up to `maxRetries` remain: the first attempt
      that is not retried decides, and running out of attempts gives -1. */
  function ChatOutcome(mode: ReasoningMode, attempts: seq<Attempt>, i: nat, maxRetries: int): (r: ChatReply)
    ensures r.ChatOk? ==> (r.think.None? <==> mode == NoReasoning)
    ensures mode == ReasoningMarkup && r.ChatOk? ==> !Contains(r.think.value, Close)
    decreases maxRetries - i
  {
    if i >= maxRetries then ChatFail
    else match Answer(mode, AttemptAt(attempts, i))
      case None => ChatOutcome(mode, attempts, i + 1, maxRetries)
      case Some(reply) => reply
  }

  /** How one pass through the body of `chat`'s loop ends: with what `chat` returns or
      propagates, or `None` when the attempt is retried. */
  function Answer(mode: ReasoningMode, a: Attempt): (r: Option<ChatReply>)
    ensures r.None? <==> Retried(mode, a)
    ensures a.AttemptInterrupted? <==> r == Some(ChatInterrupted)
  {
    match a
    case AttemptFailed => None
    case AttemptInterrupted => Some(ChatInterrupted)
    case Response(reasoning, content) => Decode(mode, reasoning, content)
  }

  /** `chat` returns -1 exactly when every remaining attempt is retried. */
  lemma {:induction false} ChatFailsIffAllRetried(mode: ReasoningMode, attempts: seq<Attempt>, i: nat, maxRetries: int)
    ensures ChatOutcome(mode, attempts, i, maxRetries).ChatFail? <==>
            forall j :: i <= j < maxRetries ==> Retried(mode, AttemptAt(attempts, j))
    decreases maxRetries - i
  {
    if i < maxRetries {
      ChatFailsIffAllRetried(mode, attempts, i + 1, maxRetries);
    }
  }

  /** An answer of `chat` is the decoded response of one of the remaining attempts. */
  lemma {:induction false} ChatAnswerDecoded(mode: ReasoningMode, attempts: seq<Attempt>, i: nat, maxRetries: int)
    requires ChatOutcome(mode, attempts, i, maxRetries).ChatOk?
    ensures exists j :: i <= j < maxRetries && AttemptAt(attempts, j).Response? &&
                        Decode(mode, AttemptAt(attempts, j).reasoning, AttemptAt(attempts, j).content)
                          == Some(ChatOutcome(mode, attempts, i, maxRetries))
    decreases maxRetries - i
  {
    var a := AttemptAt(attempts, i);
    if a.AttemptFailed? || (a.Response? && Decode(mode, a.reasoning, a.content).None?) {
      ChatAnswerDecoded(mode, attempts, i + 1, maxRetries);
      var j :| i + 1 <= j < maxRetries && AttemptAt(attempts, j).Response? &&
               Decode(mode, AttemptAt(attempts, j).reasoning, AttemptAt(attempts, j).content)
                 == Some(ChatOutcome(mode, attempts, i + 1, maxRetries));
      assert i <= j;
    } else {
      assert i < maxRetries && a.Response?;
    }
  }

  /** `chat`: the service is asked again after each caught exception, up to
      `max_retries` times.  The pause between attempts is left out. */
  method Chat(mode: ReasoningMode, attempts: seq<Attempt>, maxRetries: int) returns (r: ChatReply)
    ensures r == ChatOutcome(mode, attempts, 0, maxRetries)
  {
    var i: nat := 0;
    while i < maxRetries
      invariant ChatOutcome(mode, attempts, i, maxRetries) == ChatOutcome(mode, attempts, 0, maxRetries)
      decreases maxRetries - i
    {
      var answer := Answer(mode, AttemptAt(attempts, i));
      if answer.Some? {
        return answer.value;
      }
      i := i + 1;
    }
    r := ChatFail;
  }

  // ---------------------------------------------------------------- the agent's state

  /** The fields of `AgentWriter` other than its configuration.  The instruction and
      the plan text are absent until first set: reading them then raises
      `AttributeError`. */
  datatype AgentState = AgentState(status: Status, instruction: Option<String>, promptPlan: String,
                                   promptWrite: String, planText: Option<String>, planList: seq<String>,
                                   nChapters: int, curr: int, written: String, folder: Folder)

  /** `AgentWriter(config)` once the configuration and templates are read. */
  const Fresh := AgentState(Setting, None, [], [], None, [], 0, 0, [], NewFolder([]))

  /** What every method keeps true.
      - A planning agent has an instruction.
      - A writing agent has a plan whose split is the section list, with one entry per
        section.
      - A writing agent's stop marker reads back as the section cursor, which may lie
        anywhere after a resume. */
  predicate Consistent(a: AgentState) {
    (a.status == Planning ==> a.instruction.Some?) &&
    (a.status == Writing ==>
       a.planText.Some? && a.planList == SplitPlan(a.planText.value) && a.nChapters == |a.planList| &&
       a.folder.stop.Some? && ParseInt(a.folder.stop.value) == Some(a.curr))
  }

  /** The parts of the state that writing sections leaves alone: the instruction, the
      prompts, the plan and its sections, and the folder's instruction, plan and
      `written.txt`. */
  predicate SameJob(a: AgentState, b: AgentState) {
    a.instruction == b.instruction && a.folder.instruction == b.folder.instruction &&
    a.folder.plan == b.folder.plan && a.folder.written == b.folder.written &&
    a.promptPlan == b.promptPlan && a.promptWrite == b.promptWrite &&
    a.planText == b.planText && a.planList == b.planList && a.nChapters == b.nChapters
  }

  /** `set_instruction`.
      - Both prompts are built from the instruction.  The planning prompt's maximum
        placeholder is `$MAX_WORD$`.
      - A new folder is opened, holding only the instruction.
      - Planning may start. */
  function Instructed(cfg: Config, a: AgentState, inst: String): (r: AgentState)
    ensures Consistent(r) && r.status == Planning && r.instruction == Some(inst) && r.folder == NewFolder(inst)
    ensures r.promptPlan == PlanPrompt(cfg.templatePlan, inst, cfg.limits, MaxWordKey)
    ensures r.promptWrite == Replace(cfg.templateWrite, "$INST$", inst)
  {
    a.(status := Planning, instruction := Some(inst),
       promptPlan := PlanPrompt(cfg.templatePlan, inst, cfg.limits, MaxWordKey),
       promptWrite := Replace(cfg.templateWrite, "$INST$", inst),
       folder := NewFolder(inst))
  }

  /** The end of a successful `make_plan`.
      - The reply is the plan: it is logged and saved.  With the stop marker written as
        `"0"`, the marker reads back as section 0.
      - The plan's header lines are the sections to write, and the writing template gets
        the plan substituted in.  What the instruction substitution left in the writing
        prompt is replaced.
      - Writing starts at section 0 with no prose; the full text is kept. */
  function Planned(cfg: Config, a: AgentState, think: Option<String>, plan: String): (r: AgentState)
    ensures Consistent(r) && r.status == Writing && r.curr == 0 && r.written == [] && r.planText == Some(plan)
    ensures r.nChapters == CountHeaders(Split(plan, '\n'))
    ensures forall i :: 0 <= i < r.nChapters ==> IsHeader(r.planList[i])
    ensures r.promptWrite == Replace(cfg.templateWrite, "$PLAN$", plan)
    ensures r.instruction == a.instruction && r.promptPlan == a.promptPlan
    ensures r.folder == a.folder.(log := a.folder.log + [LogEntry(a.promptPlan, think, plan)],
                                  plan := Some(plan), stop := Some("0"))
  {
    assert ParseInt("0") == Some(0) by { ParseIntToString(0); }
    a.(status := Writing, planText := Some(plan), planList := SplitPlan(plan), nChapters := |SplitPlan(plan)|,
       curr := 0, written := [], promptWrite := Replace(cfg.templateWrite, "$PLAN$", plan),
       folder := a.folder.(log := a.folder.log + [LogEntry(a.promptPlan, think, plan)],
                           plan := Some(plan), stop := Some("0")))
  }

  /** The end of a successful `write` of the section with plan line `step`.
      - The reply is logged under the prompt holding the prose so far and `step`.
      - Its output, followed by a blank line, is appended both to the full text and to
        the prose so far.
      - The cursor moves on, and the stop marker reads back as the new cursor. */
  function Wrote(a: AgentState, step: String, think: Option<String>, output: String): (r: AgentState)
    requires Consistent(a) && a.status == Writing
    ensures Consistent(r) && SameJob(a, r) && r.status == Writing && r.curr == a.curr + 1
    ensures r.written == a.written + output + SectionBreak
    ensures r.folder.fulltext == a.folder.fulltext + output + SectionBreak
    ensures r.folder.log == a.folder.log + [LogEntry(SectionPrompt(a.promptWrite, a.written, step), think, output)]
    ensures r.folder.plan == a.folder.plan && r.folder.written == a.folder.written
    ensures r.folder.stop == Some(IntToString(a.curr + 1))
  {
    ParseIntToString(a.curr + 1);
    var prose := output + SectionBreak;
    a.(curr := a.curr + 1, written := a.written + prose,
       folder := a.folder.(log := a.folder.log + [LogEntry(SectionPrompt(a.promptWrite, a.written, step), think, output)],
                           fulltext := a.folder.fulltext + prose, stop := Some(IntToString(a.curr + 1))))
  }

  /** A failed or interrupted `write`: the stop marker is rewritten as `str` of the
      cursor, and nothing else changes. */
  function Stopped(a: AgentState): (r: AgentState)
    requires Consistent(a) && a.status == Writing
    ensures Consistent(r) && SameJob(a, r) && r.status == Writing && r.curr == a.curr && r.written == a.written
    ensures r.folder.log == a.folder.log && r.folder.fulltext == a.folder.fulltext
    ensures r.folder.stop == Some(IntToString(a.curr))
    ensures r == a.(folder := a.folder.(stop := Some(IntToString(a.curr))))
  {
    ParseIntToString(a.curr);
    a.(folder := a.folder.(stop := Some(IntToString(a.curr))))
  }

  /** What `continue_from_stop` restores from the folder, for a stop marker `code`
      other than -1: the section cursor, the plan, its sections and the writing prompt,
      and as the prose so far `written.txt` (which no method writes) or nothing. */
  function Resumed(cfg: Config, a: AgentState, code: int, plan: String, stored: Folder): (r: AgentState)
    requires a.folder == stored && stored.stop.Some? && ParseInt(stored.stop.value) == Some(code)
    ensures Consistent(r) && r.status == Writing && r.curr == code && r.planText == Some(plan)
    ensures r.written == stored.written.GetOr([]) && r.folder == stored
    ensures r.nChapters == CountHeaders(Split(plan, '\n'))
    ensures r.promptWrite == Replace(cfg.templateWrite, "$PLAN$", plan)
    ensures r.instruction == a.instruction && r.promptPlan == a.promptPlan
  {
    a.(status := Writing, curr := code, planText := Some(plan), written := stored.written.GetOr([]),
       planList := SplitPlan(plan), nChapters := |SplitPlan(plan)|,
       promptWrite := Replace(cfg.templateWrite, "$PLAN$", plan))
  }

  /** Replies `from` up to `from + n` of a run are all answers. */
  predicate Answered(replies: seq<ChatReply>, from: nat, n: int) {
    forall j :: from <= j < from + n ==> Reply(replies, j).ChatOk?
  }

  /** The writing state `a` is reached from the writing state `a0` by writing sections
      one write at a time, with the `i`-th write using reply `from + i`.
      - The job is the same.  The cursor has not moved back, and not past the section
        count if it started within it.
      - The sections requested are consecutive from `a0`'s cursor and all below the
        section count, and every section written got an answer.
      - The prose and the full text have gained the same text. */
  predicate Progress(a0: AgentState, a: AgentState, replies: seq<ChatReply>, from: nat, requested: seq<int>) {
    Consistent(a) && a.status == Writing && SameJob(a0, a) && a0.curr <= a.curr &&
    (a0.curr <= a.nChapters ==> a.curr <= a.nChapters) &&
    (forall i :: 0 <= i < |requested| ==> requested[i] == a0.curr + i && requested[i] < a.nChapters) &&
    Answered(replies, from, a.curr - a0.curr) &&
    |a0.written| <= |a.written| && a.written == a0.written + a.written[|a0.written|..] &&
    a.folder.fulltext == a0.folder.fulltext + a.written[|a0.written|..]
  }

  /** How the writing loop ends: every section requested was written and none is left,
      or the last one requested failed and is still the current one. */
  predicate Ended(a0: AgentState, a: AgentState, replies: seq<ChatReply>, from: nat, requested: seq<int>) {
    (a.curr >= a.nChapters && a.curr == a0.curr + |requested|) ||
    (|requested| > 0 && a.curr == a0.curr + |requested| - 1 && a.curr < a.nChapters &&
     !Reply(replies, from + |requested| - 1).ChatOk?)
  }

  /** How the writing loop run from the writing state `a0` turns out: with its
      bookkeeping kept, and either ended, or raising an `IndexError` on a negative
      cursor that Python cannot index the sections with. */
  predicate WriteRun(a0: AgentState, a: AgentState, replies: seq<ChatReply>, from: nat, exit: Exit, requested: seq<int>) {
    Progress(a0, a, replies, from, requested) && (exit == Raised || exit == ReturnNone) &&
    (exit == Raised ==> a0.curr < 0 && a.curr < -a.nChapters) &&
    (exit == ReturnNone ==> Ended(a0, a, replies, from, requested))
  }

  lemma ProgressStart(a0: AgentState, replies: seq<ChatReply>, from: nat)
    requires Consistent(a0) && a0.status == Writing
    ensures Progress(a0, a0, replies, from, [])
  {
    assert a0.written[|a0.written|..] == [];
    assert a0.written + [] == a0.written;
    assert a0.folder.fulltext + [] == a0.folder.fulltext;
  }

  /** One more answer extends the answered replies. */
  lemma {:induction false} AnsweredMore(replies: seq<ChatReply>, from: nat, n: int)
    requires 0 <= n && Answered(replies, from, n) && Reply(replies, from + n).ChatOk?
    ensures Answered(replies, from, n + 1)
  {
    forall j | from <= j < from + n + 1
      ensures Reply(replies, j).ChatOk?
    {
      if j < from + n {
        assert Answered(replies, from, n);
      }
    }
  }

  /** Appending `p` to the prose and to the full text keeps them growing together. */
  lemma ProseGrows(w0: String, w: String, f0: String, f: String, p: String)
    requires |w0| <= |w| && w == w0 + w[|w0|..] && f == f0 + w[|w0|..]
    ensures |w0| <= |w + p| && w + p == w0 + (w + p)[|w0|..] && f + p == f0 + (w + p)[|w0|..]
  {
    var x := w[|w0|..];
    assert w + p == w0 + (x + p);
    assert (w + p)[|w0|..] == x + p;
  }

  /** Writing the current section with an answer keeps the loop's bookkeeping. */
  lemma ProgressWrote(a0: AgentState, a: AgentState, replies: seq<ChatReply>, from: nat, requested: seq<int>,
                      step: String)
    requires Progress(a0, a, replies, from, requested)
    requires a.curr < a.nChapters && a.curr == a0.curr + |requested| && Reply(replies, from + |requested|).ChatOk?
    ensures var reply := Reply(replies, from + |requested|);
            Progress(a0, Wrote(a, step, reply.think, reply.output), replies, from, requested + [a.curr])
  {
    var reply := Reply(replies, from + |requested|);
    var b := Wrote(a, step, reply.think, reply.output);
    var p := reply.output + SectionBreak;
    assert b.written == a.written + p && b.folder.fulltext == a.folder.fulltext + p;
    ProseGrows(a0.written, a.written, a0.folder.fulltext, a.folder.fulltext, p);
    AnsweredMore(replies, from, a.curr - a0.curr);
  }

  /** A failed write of the current section keeps the loop's bookkeeping. */
  lemma ProgressStopped(a0: AgentState, a: AgentState, replies: seq<ChatReply>, from: nat, requested: seq<int>)
    requires Progress(a0, a, replies, from, requested) && a.curr < a.nChapters && a.curr == a0.curr + |requested|
    ensures Progress(a0, Stopped(a), replies, from, requested + [a.curr])
  {
  }

  /** How the planning half of a job turns out for its first reply, from the planning
      state `a0` to the state `a`. */
  predicate PlanRun(cfg: Config, a0: AgentState, a: AgentState, replies: seq<ChatReply>, exit: Exit, requested: seq<int>) {
    var reply := Reply(replies, 0);
    (reply.ChatInterrupted? ==> exit == Raised && requested == [] && a == a0) &&
    (reply.ChatFail? ==> exit == ReturnNone && requested == [] && a == a0.(folder := a0.folder.(stop := Some("-1")))) &&
    (reply.ChatOk? ==>
       WriteRun(Planned(cfg, a0, reply.think, reply.output), a, replies, 1, exit, requested))
  }

  /** A planned job, once written, has a plan of the reply's header lines, a cursor
      within them, and sections requested in order from the first.  The writing stops
      at the end of the plan or at the first section that got no answer.  The full text
      has gained exactly the prose. */
  lemma PlanRunOutcome(cfg: Config, a0: AgentState, a: AgentState, replies: seq<ChatReply>, exit: Exit, requested: seq<int>)
    requires PlanRun(cfg, a0, a, replies, exit, requested) && Reply(replies, 0).ChatOk?
    ensures exit == ReturnNone
    ensures var plan := Reply(replies, 0).output;
            a.status == Writing && a.planText == Some(plan) && a.nChapters == CountHeaders(Split(plan, '\n'))
    ensures 0 <= a.curr <= a.nChapters && |requested| <= a.nChapters
    ensures forall i :: 0 <= i < |requested| ==> requested[i] == i
    ensures Answered(replies, 1, a.curr)
    ensures a.curr == a.nChapters || (a.curr == |requested| - 1 && !Reply(replies, |requested|).ChatOk?)
    ensures a.folder.fulltext == a0.folder.fulltext + a.written
  {
    var reply := Reply(replies, 0);
    var planned := Planned(cfg, a0, reply.think, reply.output);
    assert a.written[|planned.written|..] == a.written;
    if |requested| > 0 {
      assert requested[|requested| - 1] < a.nChapters;
    }
  }

  /** No method writes `written.txt`: `write` only appends to `fulltext.txt`.  So the
      folder of a job that `plan_and_write` ran has none, whatever its replies, and
      resuming from that folder starts with no prose so far. */
  lemma ResumeOwnFolder(cfg: Config, s: AgentState, inst: String, a: AgentState, replies: seq<ChatReply>,
                        exit: Exit, requested: seq<int>, b: AgentState, code: int)
    requires PlanRun(cfg, Instructed(cfg, s, inst), a, replies, exit, requested)
    requires b.folder == a.folder && a.folder.stop.Some? && ParseInt(a.folder.stop.value) == Some(code)
    requires a.folder.plan.Some?
    ensures a.folder.written.None?
    ensures Resumed(cfg, b, code, a.folder.plan.value, a.folder).written == []
  {
    var a0 := Instructed(cfg, s, inst);
    var reply := Reply(replies, 0);
    if reply.ChatOk? {
      assert SameJob(Planned(cfg, a0, reply.think, reply.output), a);
    }
  }

  /** How resuming at the stop marker `code` other than -1 turns out, from the
      reloaded state `a0` to the state `a`: without a plan it raises, and with one it
      writes from section `code`, raising only for a negative cursor Python cannot
      index with. */
  predicate ResumeRun(cfg: Config, a0: AgentState, a: AgentState, code: int, stored: Folder,
                      replies: seq<ChatReply>, exit: Exit, requested: seq<int>)
    requires a0.folder == stored && stored.stop.Some? && ParseInt(stored.stop.value) == Some(code)
  {
    var plan := if stored.plan.Some? then stored.plan else a0.planText;
    (plan.None? ==>
       exit == Raised && requested == [] &&
       a == a0.(status := Writing, curr := code, written := stored.written.GetOr([]))) &&
    (plan.Some? ==>
       WriteRun(Resumed(cfg, a0, code, plan.value, stored), a, replies, 0, exit, requested))
  }

  /** How `continue_from_stop` turns out once it has reloaded the state `a0`, by its
      stop marker: a missing marker or one that is no integer raises, -1 plans the job
      again, and any other number resumes writing there. */
  predicate MarkerRun(cfg: Config, a0: AgentState, a: AgentState, stored: Folder,
                      replies: seq<ChatReply>, exit: Exit, requested: seq<int>)
    requires a0.folder == stored
  {
    var code := ParseInt(stored.stop.GetOr([]));
    (code.None? ==> exit == Raised && requested == [] && a == a0) &&
    (code == Some(-1) ==> PlanRun(cfg, a0.(status := Planning), a, replies, exit, requested)) &&
    (code.Some? && code != Some(-1) ==> ResumeRun(cfg, a0, a, code.value, stored, replies, exit, requested))
  }

  /** What `continue_from_stop` has set up before it reads the stop marker: the
      instruction and the folder it reloaded, and both prompts rebuilt. */
  function Reloaded(cfg: Config, a: AgentState, stored: Folder, inst: String): (r: AgentState)
    ensures r.folder == stored && r.instruction == Some(inst) && r.status == a.status
    ensures r.promptPlan == PlanPrompt(cfg.templatePlan, inst, cfg.limits, MaxWordKey)
  {
    a.(instruction := Some(inst), folder := stored,
       promptPlan := PlanPrompt(cfg.templatePlan, inst, cfg.limits, MaxWordKey),
       promptWrite := Replace(cfg.templateWrite, "$INST$", inst))
  }

  /** The planning prompt is the one `set_instruction` builds from the instruction
      held. */
  predicate PromptFollows(cfg: Config, a: AgentState) {
    a.instruction.Some? ==> a.promptPlan == PlanPrompt(cfg.templatePlan, a.instruction.value, cfg.limits, MaxWordKey)
  }

  /** Planning and then writing keeps the planning prompt tied to the instruction. */
  lemma PlanRunKeepsPrompt(cfg: Config, a0: AgentState, a: AgentState, replies: seq<ChatReply>, exit: Exit,
                           requested: seq<int>)
    requires PlanRun(cfg, a0, a, replies, exit, requested) && PromptFollows(cfg, a0)
    ensures PromptFollows(cfg, a)
  {
    var reply := Reply(replies, 0);
    if reply.ChatOk? {
      var p := Planned(cfg, a0, reply.think, reply.output);
      assert SameJob(p, a);
    }
  }

  /** Every job `plan_and_write` runs ends with the planning prompt built from its
      instruction. */
  lemma PlanAndWriteKeepsPrompt(cfg: Config, s: AgentState, inst: String, a: AgentState, replies: seq<ChatReply>,
                                exit: Exit, requested: seq<int>)
    requires PlanRun(cfg, Instructed(cfg, s, inst), a, replies, exit, requested)
    ensures PromptFollows(cfg, a) && a.instruction == Some(inst)
  {
    var a0 := Instructed(cfg, s, inst);
    PlanRunKeepsPrompt(cfg, a0, a, replies, exit, requested);
    var reply := Reply(replies, 0);
    if reply.ChatOk? {
      assert SameJob(Planned(cfg, a0, reply.think, reply.output), a);
    }
  }

  /** `continue_from_stop` rebuilds the planning prompt from the instruction it holds,
      whether re-read or kept, and every way it goes on keeps the two tied. */
  lemma ContinueKeepsPrompt(cfg: Config, s: AgentState, stored: Folder, inst: String, a: AgentState,
                            replies: seq<ChatReply>, exit: Exit, requested: seq<int>)
    requires MarkerRun(cfg, Reloaded(cfg, s, stored, inst), a, stored, replies, exit, requested)
    ensures PromptFollows(cfg, a) && a.instruction == Some(inst)
  {
    var a0 := Reloaded(cfg, s, stored, inst);
    var code := ParseInt(stored.stop.GetOr([]));
    if code == Some(-1) {
      var p0 := a0.(status := Planning);
      PlanRunKeepsPrompt(cfg, p0, a, replies, exit, requested);
      var reply := Reply(replies, 0);
      if reply.ChatOk? {
        assert SameJob(Planned(cfg, p0, reply.think, reply.output), a);
      }
    } else if code.Some? {
      var plan := if stored.plan.Some? then stored.plan else a0.planText;
      if plan.Some? {
        assert SameJob(Resumed(cfg, a0, code.value, plan.value, stored), a);
      }
    }
  }

  class AgentWriter {
    const config: Config
    var status: Status
    var instruction: Option<String>
    var promptPlan: String
    var promptWrite: String
    var planText: Option<String>
    var planList: seq<String>
    var nChapters: int
    var curr: int
    var written: String
    /** The current work folder. */
    var folder: Folder

    function State(): AgentState
      reads this
    {
      AgentState(status, instruction, promptPlan, promptWrite, planText, planList, nChapters, curr, written, folder)
    }

    predicate Valid()
      reads this
    {
      Consistent(State())
    }

    constructor (config: Config)
      ensures this.config == config && State() == Fresh && Valid()
    {
      this.config := config;
      status := Setting;
      instruction := None;
      promptPlan := [];
      promptWrite := [];
      planText := None;
      planList := [];
      nChapters := 0;
      curr := 0;
      written := [];
      folder := NewFolder([]);
    }

    /** `set_instruction` */
    method SetInstruction(inst: String)
      modifies this
      ensures Valid() && State() == Instructed(config, old(State()), inst)
    {
      ghost var next := Instructed(config, State(), inst);
      instruction := Some(inst);
      promptPlan := PlanPrompt(config.templatePlan, inst, config.limits, MaxWordKey);
      promptWrite := Replace(config.templateWrite, "$INST$", inst);
      folder := NewFolder(inst);
      status := Planning;
      assert State() == next;
    }

    /** `make_plan`.
        - Without an instruction it returns -1, and with a plan already made it returns
          0, changing nothing in either case.
        - While planning, a failed request writes the stop marker -1 and returns -1,
          still planning.
        - An interrupt propagates with nothing changed.
        - A reply becomes the plan, and 0 is returned. */
    method MakePlan(reply: ChatReply) returns (exit: Exit)
      requires Valid()
      modifies this
      ensures Valid()
      ensures old(status) == Setting ==> exit == Return(-1) && State() == old(State())
      ensures old(status) == Writing ==> exit == Return(0) && State() == old(State())
      ensures old(status) == Planning && reply.ChatFail? ==>
                exit == Return(-1) && State() == old(State()).(folder := old(folder).(stop := Some("-1")))
      ensures old(status) == Planning && reply.ChatInterrupted? ==> exit == Raised && State() == old(State())
      ensures old(status) == Planning && reply.ChatOk? ==>
                exit == Return(0) && State() == Planned(config, old(State()), reply.think, reply.output)
    {
      if status == Setting {
        return Return(-1);
      } else if status == Writing {
        return Return(0);
      }
      match reply {
        case ChatFail =>
          folder := folder.(stop := Some("-1"));
          return Return(-1);
        case ChatInterrupted =>
          return Raised;
        case ChatOk(think, output) =>
          AdoptPlan(think, output);
          return Return(0);
      }
    }

    /** The end of `make_plan` after a reply. */
    method AdoptPlan(think: Option<String>, output: String)
      modifies this
      ensures Valid() && State() == Planned(config, old(State()), think, output)
    {
      ghost var next := Planned(config, State(), think, output);
      var entry := LogEntry(promptPlan, think, output);
      var sections := SplitPlan(output);
      var prompt := Replace(config.templateWrite, "$PLAN$", output);
      folder := folder.(log := folder.log + [entry], plan := Some(output), stop := Some("0"));
      planText := Some(output);
      planList := sections;
      status := Writing;
      nChapters := |sections|;
      curr := 0;
      written := [];
      promptWrite := prompt;
      assert State() == next;
    }

    /** `write`.
        - Without a plan it fails its assertion.  With every section written it returns
          -1, changing nothing.
        - A cursor that Python cannot index the section list with raises `IndexError`.
        - Otherwise the current section is requested with the prose so far and its plan
          line.  A failed or interrupted request rewrites the stop marker and returns
          -1.  A reply is recorded and 0 is returned. */
    method Write(reply: ChatReply) returns (exit: Exit)
      requires Valid()
      modifies this
      ensures Valid()
      ensures old(status) != Writing ==> exit == Raised && State() == old(State())
      ensures old(status) == Writing && old(curr) >= old(nChapters) ==> exit == Return(-1) && State() == old(State())
      ensures old(status) == Writing && old(curr) < old(nChapters) && PyIndex(old(planList), old(curr)).None? ==>
                exit == Raised && State() == old(State())
      ensures old(status) == Writing && old(curr) < old(nChapters) && PyIndex(old(planList), old(curr)).Some? ==>
                if reply.ChatOk? then
                  exit == Return(0) &&
                  State() == Wrote(old(State()), PyIndex(old(planList), old(curr)).value, reply.think, reply.output)
                else exit == Return(-1) && State() == Stopped(old(State()))
    {
      if status != Writing {
        return Raised;
      }
      if curr >= nChapters {
        return Return(-1);
      }
      var step := PyIndex(planList, curr);
      if step.None? {
        return Raised;
      }
      if !reply.ChatOk? {
        ghost var next := Stopped(State());
        folder := folder.(stop := Some(IntToString(curr)));
        assert State() == next;
        return Return(-1);
      }
      RecordSection(step.value, reply.think, reply.output);
      exit := Return(0);
    }

    /** The end of `write` after a reply. */
    method RecordSection(step: String, think: Option<String>, output: String)
      requires Valid() && status == Writing
      modifies this
      ensures Valid() && State() == Wrote(old(State()), step, think, output)
    {
      ghost var next := Wrote(State(), step, think, output);
      var prompt := SectionPrompt(promptWrite, written, step);
      folder := folder.(log := folder.log + [LogEntry(prompt, think, output)]);
      folder := folder.(fulltext := folder.fulltext + output + SectionBreak);
      written := written + output + SectionBreak;
      curr := curr + 1;
      folder := folder.(stop := Some(IntToString(curr)));
      assert State() == next;
    }

    /** The loop `while self.curr_chapter < self.N_chapters`, which stops at the first
        write that returns -1.  The `i`-th write uses reply `from + i`.  An
        `IndexError` from a write propagates; it needs a negative cursor. */
    method WriteRemaining(replies: seq<ChatReply>, from: nat) returns (exit: Exit, requested: seq<int>)
      requires Valid() && status == Writing
      modifies this
      ensures Valid() && WriteRun(old(State()), State(), replies, from, exit, requested)
    {
      requested := [];
      var failed := false;
      ProgressStart(State(), replies, from);
      while curr < nChapters && !failed
        invariant Progress(old(State()), State(), replies, from, requested)
        invariant !failed ==> curr == old(curr) + |requested|
        invariant failed ==> |requested| > 0 && curr == old(curr) + |requested| - 1 && curr < nChapters &&
                             !Reply(replies, from + |requested| - 1).ChatOk?
        decreases nChapters - curr, if failed then 0 else 1
      {
        var section := curr;
        var code := WriteTracked(old(State()), replies, from, requested);
        if code == Raised {
          return Raised, requested;
        }
        requested := requested + [section];
        failed := code == Return(-1);
      }
      exit := ReturnNone;
    }

    /** One pass of the writing loop: `write` with the next reply, and the loop's
        bookkeeping kept. */
    method WriteTracked(ghost a0: AgentState, replies: seq<ChatReply>, from: nat, requested: seq<int>) returns (code: Exit)
      requires Progress(a0, State(), replies, from, requested)
      requires curr < nChapters && curr == a0.curr + |requested|
      modifies this
      ensures code == Raised ==> State() == old(State()) && curr < -nChapters
      ensures code != Raised ==> Progress(a0, State(), replies, from, requested + [old(curr)])
      ensures code == Return(0) ==> curr == old(curr) + 1
      ensures code == Return(-1) ==> curr == old(curr) && !Reply(replies, from + |requested|).ChatOk?
      ensures code == Raised || code == Return(0) || code == Return(-1)
    {
      ghost var before := State();
      var reply := Reply(replies, from + |requested|);
      code := Write(reply);
      if code == Raised {
        return;
      }
      if reply.ChatOk? {
        ProgressWrote(a0, before, replies, from, requested, PyIndex(before.planList, before.curr).value);
      } else {
        ProgressStopped(a0, before, replies, from, requested);
      }
    }

    /** The planning half of `plan_and_write`, and the `-1` branch of
        `continue_from_stop`: a plan is requested with reply 0, and once made the
        sections are written from section 0 with the later replies. */
    method PlanThenWrite(replies: seq<ChatReply>) returns (exit: Exit, requested: seq<int>)
      requires Valid() && status == Planning
      modifies this
      ensures Valid() && PlanRun(config, old(State()), State(), replies, exit, requested)
    {
      var code := MakePlan(Reply(replies, 0));
      requested := [];
      if code == Raised {
        return Raised, requested;
      }
      exit := ReturnNone;
      if code == Return(0) {
        exit, requested := WriteRemaining(replies, 1);
      }
    }

    /** `plan_and_write`: a new job is set up, planned and, once planned, written
        section by section from section 0 until done or a write fails. */
    method PlanAndWrite(inst: String, replies: seq<ChatReply>) returns (exit: Exit, requested: seq<int>)
      modifies this
      ensures Valid() && PlanRun(config, Instructed(config, old(State()), inst), State(), replies, exit, requested)
    {
      SetInstruction(inst);
      exit, requested := PlanThenWrite(replies);
    }

    /** `continue_from_stop` with the job folder `stored`.
        - The instruction is re-read if saved, and both prompts are rebuilt.  With no
          instruction at all this raises.
        - A stop marker that is missing or is no integer raises.
        - Marker -1 plans again and then writes from section 0.
        - Any other marker resumes writing at that section, with the saved plan (or
          the one in memory), and with `written.txt` as the prose so far. */
    method ContinueFromStop(stored: Folder, replies: seq<ChatReply>) returns (exit: Exit, requested: seq<int>)
      modifies this
      ensures exit != Raised ==> Valid()
      ensures stored.instruction.None? && old(instruction).None? ==>
                exit == Raised && requested == [] && State() == old(State()).(folder := stored)
      ensures var inst := if stored.instruction.Some? then stored.instruction else old(instruction);
              inst.Some? ==> MarkerRun(config, Reloaded(config, old(State()), stored, inst.value), State(), stored,
                                       replies, exit, requested)
    {
      folder := stored;
      if stored.instruction.Some? {
        instruction := stored.instruction;
      }
      if instruction.None? {
        return Raised, [];
      }
      ghost var reloaded := Reloaded(config, old(State()), stored, instruction.value);
      promptPlan := PlanPrompt(config.templatePlan, instruction.value, config.limits, MaxWordKey);
      promptWrite := Replace(config.templateWrite, "$INST$", instruction.value);
      assert State() == reloaded;
      exit, requested := ResumeFromMarker(stored, replies);
    }

    /** The part of `continue_from_stop` that reads the stop marker. */
    method ResumeFromMarker(stored: Folder, replies: seq<ChatReply>) returns (exit: Exit, requested: seq<int>)
      requires folder == stored && instruction.Some?
      modifies this
      ensures exit != Raised ==> Valid()
      ensures MarkerRun(config, old(State()), State(), stored, replies, exit, requested)
    {
      if stored.stop.None? || ParseInt(stored.stop.value).None? {
        return Raised, [];
      }
      var code := ParseInt(stored.stop.value).value;
      if code == -1 {
        status := Planning;
        exit, requested := PlanThenWrite(replies);
      } else {
        exit, requested := ResumeAt(code, stored, replies);
      }
    }

    /** The branch of `continue_from_stop` for a stop marker `code` other than -1. */
    method ResumeAt(code: int, stored: Folder, replies: seq<ChatReply>) returns (exit: Exit, requested: seq<int>)
      requires folder == stored && stored.stop.Some? && ParseInt(stored.stop.value) == Some(code)
      modifies this
      ensures exit != Raised ==> Valid()
      ensures ResumeRun(config, old(State()), State(), code, stored, replies, exit, requested)
    {
      ghost var a0 := State();
      status := Writing;
      curr := code;
      if stored.plan.Some? {
        planText := stored.plan;
      }
      written := stored.written.GetOr([]);
      if planText.None? {
        return Raised, [];
      }
      var plan := planText.value;
      ResumeWriting(code, plan, stored);
      assert State() == Resumed(config, a0, code, plan, stored);
      exit, requested := WriteRemaining(replies, 0);
    }

    /** The part of `continue_from_stop` that rebuilds the writing state once the plan
        is known. */
    method ResumeWriting(code: int, plan: String, stored: Folder)
      requires folder == stored && stored.stop.Some? && ParseInt(stored.stop.value) == Some(code)
      modifies this
      ensures Valid() && State() == Resumed(config, old(State()), code, plan, stored)
    {
      ghost var next := Resumed(config, State(), code, plan, stored);
      var sections := SplitPlan(plan);
      var prompt := Replace(config.templateWrite, "$PLAN$", plan);
      status := Writing;
      curr := code;
      planText := Some(plan);
      written := stored.written.GetOr([]);
      planList := sections;
      nChapters := |sections|;
      promptWrite := prompt;
      assert State() == next;
    }
  }
}

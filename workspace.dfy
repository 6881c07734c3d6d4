/**
 * What an agent keeps on disk, and the prompts it builds from its templates.
 *
 * A run lives in one folder `generate_<timestamp>`.  Its files are fields of
 * `Folder`:
 *  - `instruction.txt`, `plan.txt`, `stop.txt` and `written.txt` are optional, since a
 *    file may be missing;
 *  - `fulltext.txt` is only ever appended to, so it starts empty;
 *  - `log.jsonl` is a sequence of entries.
 */
module Workspace {
  import opened Text

  /** One line of `log.jsonl`: the prompt sent, the reasoning if the mode records one,
      and the reply. */
  datatype LogEntry = LogEntry(prompt: String, think: Option<String>, output: String)

  datatype Folder = Folder(instruction: Option<String>, plan: Option<String>, stop: Option<String>,
                           fulltext: String, written: Option<String>, log: seq<LogEntry>)

  /** A fresh folder holding only `instruction.txt`. */
  function NewFolder(instruction: String): (f: Folder)
    ensures f.instruction == Some(instruction) && f.plan.None? && f.stop.None?
    ensures f.fulltext == [] && f.written.None? && f.log == []
  {
    Folder(Some(instruction), None, None, [], None, [])
  }

  /** An agent's `status`: `'setting'`, `'planning'` or `'writing'`. */
  datatype Status = Setting | Planning | Writing

  /** The word-count settings substituted into the planning prompt. */
  datatype WordLimits = WordLimits(minWord: int, maxWord: int, sample1: int, sample2: int)

  /** The defaults used when the configuration has no `word_requirement`. */
  const DefaultLimits := WordLimits(500, 3000, 800, 2000)

  /** What the separate-channel writer appends after each section. */
  const SectionBreak: String := "\n\n"

  /** The maximum-word placeholder differs between the two agents: `$MAX_WORDS$` in the
      streaming one and `$MAX_WORD$` in the other. */
  const MaxWordsKey: String := "$MAX_WORDS$"
  const MaxWordKey: String := "$MAX_WORD$"

  /** Successive `str.replace` calls, one per placeholder and value, in order. */
  function Substitute(template: String, subs: seq<(String, String)>): (r: String)
    requires forall i :: 0 <= i < |subs| ==> |subs[i].0| > 0
    ensures (forall i :: 0 <= i < |subs| ==> !Contains(template, subs[i].0)) ==> r == template
    decreases |subs|
  {
    if subs == [] then template else Substitute(Replace(template, subs[0].0, subs[0].1), subs[1..])
  }

  /** The placeholders of the planning prompt and what `set_instruction` puts in them:
      the instruction, then the word limits and the two sample lengths. */
  function PlanSubs(instruction: String, limits: WordLimits, maxKey: String): seq<(String, String)> {
    [("$INST$", instruction), ("$MIN_WORDS$", IntToString(limits.minWord)), (maxKey, IntToString(limits.maxWord)),
     ("$SAMPLE_1$", IntToString(limits.sample1)), ("$SAMPLE_2$", IntToString(limits.sample2))]
  }

  /** `set_instruction`'s planning prompt.  A template without placeholders is sent
      as it is. */
  function PlanPrompt(template: String, instruction: String, limits: WordLimits, maxKey: String): (r: String)
    requires |maxKey| > 0
    ensures (!Contains(template, "$INST$") && !Contains(template, "$MIN_WORDS$") && !Contains(template, maxKey) &&
             !Contains(template, "$SAMPLE_1$") && !Contains(template, "$SAMPLE_2$")) ==> r == template
  {
    Substitute(template, PlanSubs(instruction, limits, maxKey))
  }

  /** The writing prompt for one section: the plan, the prose so far and the section's
      plan line substituted into the writing template, in that order.  The instruction
      placeholder is not substituted. */
  function WritePrompt(template: String, plan: String, written: String, step: String): (r: String)
    ensures (!Contains(template, "$PLAN$") && !Contains(template, "$TEXT$") && !Contains(template, "$STEP$")) ==> r == template
  {
    SectionPrompt(Replace(template, "$PLAN$", plan), written, step)
  }

  /** The second half of `WritePrompt`, which the non-streaming agent applies to a
      template whose plan is already in place. */
  function SectionPrompt(withPlan: String, written: String, step: String): (r: String)
    ensures (!Contains(withPlan, "$TEXT$") && !Contains(withPlan, "$STEP$")) ==> r == withPlan
  {
    Replace(Replace(withPlan, "$TEXT$", written), "$STEP$", step)
  }

  /** Substituting a placeholder by itself leaves a template as it was: the prompts are
      pure substitutions that add nothing else. */
  lemma WritePromptIdentity(template: String)
    ensures WritePrompt(template, "$PLAN$", "$TEXT$", "$STEP$") == template
  {
    ReplaceSelf(template, "$PLAN$");
    ReplaceSelf(template, "$TEXT$");
    ReplaceSelf(template, "$STEP$");
  }

  /** Python's `xs[i]`: a negative index counts from the end, and an index outside
      `-len(xs) <= i < len(xs)` raises `IndexError`, here `None`. */
  function PyIndex<T>(xs: seq<T>, i: int): (r: Option<T>)
    ensures r.Some? <==> -|xs| <= i < |xs|
    ensures r.Some? ==> r.value in xs
    ensures 0 <= i < |xs| ==> r == Some(xs[i])
    ensures -|xs| <= i < 0 ==> r == Some(xs[|xs| + i])
  {
    if 0 <= i < |xs| then Some(xs[i])
    else if -|xs| <= i < 0 then Some(xs[|xs| + i])
    else None
  }

  /** How a Python call ends: by raising, or by returning a code, or `None`. */
  datatype Exit = Raised | Return(code: int) | ReturnNone
}

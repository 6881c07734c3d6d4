# AINovelGenerator agent core, modelled in Dafny

AINovelGenerator writes a long story in two phases, by asking a chat model for text.

- **Planning.** The agent sends a planning prompt built from the user's instruction and word limits. The reply is an outline: one line per section, of the form `第 n 段 - 要点：… - 字数：…字`.
- **Writing.** The agent requests the sections one at a time. It appends each section's prose to the text written so far.
- **Checkpoints.** A work folder records the run so that an interrupted job can be resumed:
  - `instruction.txt`, `plan.txt`;
  - a log of every exchange;
  - the full text;
  - a stop marker holding the next section to write, or `-1` when planning failed.

Two agents do this.

- **The streaming agent** (`core_stream.py`) receives each reply as a stream of chunks. It parses the growing outline on the fly. The reasoning arrives either in a separate channel or inside `<think>…</think>` markup in the content channel.
- **The non-streaming agent** (`core_nonstream.py`) receives replies whole. It adds `plan_and_write`, which runs a whole job, and `continue_from_stop`, which resumes one from its folder.

The modules follow that structure:

- `Text`: the string operations the code relies on, written as scanners. These are `str.strip`, `str.split`, `in`, `str.replace`, `int()` and `str()`.
- `Markup`: the first non-greedy `<think>(.*?)</think>` pair, the removal of all pairs, and `separate_thoughts_and_output`.
- `Outline`: the header test of `split_plan`, `parse_line` and `parse_text`. The regular expressions become deterministic scanners. The plan lines the planner writes out parse back to the entries they came from.
- `StreamProcessors`: the planning and writing chunk processors as classes. Each class is specified by a pure step function and a fold over the chunk history, with lemmas that say what the fold equals in each convention.
- `Workspace`: the work folder as a record, and the prompt substitutions.
- `StreamAgent` and `BatchAgent`: the two `AgentWriter` classes.
  - Each method's effect is stated as a pure transition function on an `AgentState` value.
  - The methods keep an invariant tying the fields to the folder.
  - The loops of `plan_and_write` and `continue_from_stop` are specified by run predicates over the sequence of replies.

Conventions:

- **Model calls** are arguments. A streamed reply is the list of chunks its transport handed over. A non-streamed reply is the outcome of `chat`.
- **Exits.** A Python call ends in one of three ways, modelled as `Exit`: it raises, returns a code, or returns `None`.
- **Prompts.** A method that sends a prompt records it in the log entry it writes, so the prompts are part of the state.

## Model

| member | source | states |
|---|---|---|
| Text.Strip | core_stream.py:48 | The result is a slice of the input with only whitespace cut from either end, and neither end of it is whitespace. |
| Text.RestOfLine | core_stream.py:55 | `(.*)` without DOTALL: the longest newline-free stretch from the position, ending at a newline or the end. |
| Text.Split | core_stream.py:44 | `str.split('\n')`: at least one part, no part holds the separator, and joining the parts gives back the text. |
| Text.SplitJoin | core_stream.py:44 | Splitting the join of separator-free parts gives back the parts. |
| Text.Find | core_stream.py:53 | The first occurrence at or after a position; none means no occurrence anywhere after it. |
| Text.FindFirst | core_stream.py:53 | An occurrence with none before it is the one found. |
| Text.FindExtend | core_stream.py:111 | Appending to a string does not move an occurrence already found. |
| Text.Replace | core_stream.py:216 | `str.replace` leaves a string without the pattern unchanged. |
| Text.ReplaceSelf | core_stream.py:216 | Replacing a pattern by itself changes nothing. |
| Text.RemoveSuffix | core_stream.py:61 | `re.sub(f'{words}$', '', passage)`: either the string is unchanged or the result followed by the suffix is the string. |
| Text.RemoveSuffixOf | core_stream.py:61 | A string that ends in the suffix loses exactly that suffix. |
| Text.NatToString | core_nonstream.py:173 | `str()` of a count is a non-empty run of digits. |
| Text.ParseIntToString | core_nonstream.py:173 | `int(str(n)) == n` for every integer, so the stop marker reads back as the cursor it records (core_nonstream.py:198). |
| Text.IntToString | core_nonstream.py:173 | `str(n)` is non-empty: the digit run of a non-negative number, or `-` followed by a digit run. |
| Text.ParseInt | core_nonstream.py:198 | `int(s)` succeeds only on text that starts with `-` or a digit, the sign of the result agrees with the leading `-`, and a digit run reads as its decimal value. |
| Markup.FirstPair | core_nonstream.py:10 | The pair found is `<think>` followed by the first `</think>` after it, with no earlier `<think>`. None means no pair exists at all. |
| Markup.HasPair | core_nonstream.py:10 | A string holding a pair contains both the open and the close tag. |
| Markup.Inner | core_nonstream.py:10 | The pair's inner text: the string is what lies before, the open tag, the inner text, the close tag, and the rest. |
| Markup.RemovePairs | core_nonstream.py:11 | A string without a pair is unchanged, and removing a pair shortens the string by at least both tags. |
| Markup.OpenLineTail | core_stream.py:114 | `re.search(r"<think>(.*)")`: the newline-free text right after the first open tag. |
| Markup.SeparateThoughtsAndOutput | core_nonstream.py:9-12 | It fails exactly when no pair exists. The thought never contains a close tag. The output is no longer than the input minus the tags and the thought. |
| Markup.InnerHasNoClose | core_nonstream.py:10 | The inner text of the first pair contains no `</think>`. |
| Markup.FirstPairExtend | core_stream.py:111-118 | Once a buffer holds a pair, appending chunks does not change which pair is first. |
| Markup.NoPairPrefix | core_stream.py:111-118 | A prefix of a pair-free buffer is pair-free. |
| Markup.TaggedParts | core_nonstream.py:9-12 | Inner text and removal recover the parts of `<think>t</think>o`. |
| Markup.FirstPairAfter | core_nonstream.py:10 | With no `<think>` before it and no `</think>` inside it, the pair written out after a prefix is the first pair. |
| Markup.RemovePairsPrefix | core_nonstream.py:11 | Removal keeps the text before the first pair and goes on removing after it: `p<think>t</think>o` becomes `p` followed by the removal of `o`. |
| Markup.SeparatePrefix | core_nonstream.py:9-12 | `p<think>t</think>o` separates into `t` and the stripped `p` followed by the removal of `o`, so text before `<think>` is kept. |
| Markup.SeparateCompose | core_nonstream.py:9-12 | `separate_thoughts_and_output` inverts tagging: `<think>t</think>o` gives `(t, o.strip())`. |
| Markup.NoTagsWithoutAngle | core_stream.py:111 | Text without `<` contains no tag and no pair. |
| Markup.ShortHasNoTag | core_stream.py:111 | Text shorter than `<think>` contains no open tag. |
| Outline.HeaderLanguage | core_stream.py:44 | The header test accepts exactly the lines matching `^第\s?\d+\s?段`. |
| Outline.HeaderLines | core_stream.py:44 | The filter keeps an order-preserving subsequence of the lines. Every kept line is a header, and the count equals the number of header lines. |
| Outline.HeaderLinesKeepsHeaders | core_stream.py:44 | Lines that are all headers are all kept. |
| Outline.SplitPlan | core_stream.py:43-45 | `split_plan` keeps an order-preserving subsequence of the text's lines, one per header line. Every kept line is a header and holds no newline. |
| Outline.PlanLines | core_stream.py:259 | One formatted plan line per entry, in order. |
| Outline.PlanLineIsHeader | core_stream.py:259 | The line formatted for a well-formed entry is one header line. |
| Outline.SplitPlanText | core_stream.py:259-268 | `split_plan` of the joined plan lines is exactly those lines, so `N_chapters` equals the number of chapters. |
| Outline.PlanTextKeepsCount | core_stream.py:259-268 | For any buffer, the split plan of the serialised chapters has one line per chapter. |
| Outline.MarkerAt | core_stream.py:49 | A marker found at a position is 第, optional whitespace, a digit run, optional whitespace, then 段. |
| Outline.MarkerComplete | core_stream.py:49 | Any such layout is the marker found there. |
| Outline.FindMarker | core_stream.py:49 | `re.search(r"第\s*(\d+)\s*段")`: the leftmost marker, or none anywhere. |
| Outline.FindKeyPoint | core_stream.py:55 | The leftmost `要点:` or `要点：`, or none anywhere. |
| Outline.LabelStart | core_stream.py:57 | The leftmost start of the word-count label part that reaches the digits. |
| Outline.WordCount | core_stream.py:57 | The match requires the line to end in 字 with only whitespace before it and a maximal digit run before that, with a label part in front. The match starts at the leftmost position the label part can start from, as `re.search` reports it. |
| Outline.WordCountNone | core_stream.py:57 | No match means no digit stands before whitespace and a final 字. |
| Outline.KeyPointEntry | core_stream.py:55-66 | Without a count the description is the rest of the line after the label. With a count it is that passage with the matched text cut from its end when the passage ends in it, and the whole passage otherwise. The word target is `计算中...` exactly when there is no count. |
| Outline.SectionEntry | core_stream.py:53-66 | The entry for a line with a marker fails exactly when it contains 要点 but no key-point label. |
| Outline.ParseLine | core_stream.py:47-66 | Every entry is well-formed, and its section is the digit group of the first marker of the stripped line. |
| Outline.ParseStripped | core_stream.py:49-66 | The same, for a line already stripped. |
| Outline.ParseLineNone | core_stream.py:47-55 | `parse_line` returns None exactly when the stripped line has no marker, or holds 要点 without a key-point label. |
| Outline.ParseLinePlaceholder | core_stream.py:49-54 | A marker without 要点 gives the placeholder `生成中...` / `计算中...` entry for the marker's digits. |
| Outline.ParseLineKeyPoint | core_stream.py:55-66 | A line with a marker and a key-point label parses to the key-point entry at the first label. |
| Outline.KeyPointContains | core_stream.py:53 | A line with a key-point label contains 要点. |
| Outline.StrippedLines | core_stream.py:69 | Dropping empty lines never adds lines. |
| Outline.StrippedLinesAppend | core_stream.py:69 | The comprehension over two runs of lines is the comprehension over each, in order. |
| Outline.StrippedLinesOne | core_stream.py:69 | One line gives its stripped form when it is non-empty before stripping, and nothing otherwise. |
| Outline.StrippedKeeps | core_stream.py:69 | Lines that are all non-empty and already stripped pass through unchanged. |
| Outline.DropToHeader | core_stream.py:70-73 | Lines before the first header are dropped and no header is lost. |
| Outline.NextHeader | core_stream.py:73 | The next header after a position, with no header in between. |
| Outline.Chunks | core_stream.py:70-75 | One chunk per header, each starting at its header and running to the next. Together the chunks are the lines. |
| Outline.FirstChunk | core_stream.py:73-74 | The first chunk holds exactly one header. |
| Outline.NoHeaders | core_stream.py:71-72 | Lines without headers count zero headers. |
| Outline.ParseChunks | core_stream.py:76-81 | At most one well-formed entry per chunk, dropping chunks that parse to None. |
| Outline.ParseChunksAppend | core_stream.py:76-81 | The entries of two runs of chunks are the entries of each, in order, so appearance order is kept. |
| Outline.ParseChunksOne | core_stream.py:77-81 | One chunk gives its `parse_line` entry, or nothing when that is None. |
| Outline.ChunkParses | core_stream.py:77 | The `parse_line` result of each joined chunk, one per chunk, in order. |
| Outline.Present | core_stream.py:78-80 | Keeping the present results never adds any. When all are present, all are kept, in order. |
| Outline.ParseChunksPresent | core_stream.py:76-81 | The chunk loop keeps exactly the present `parse_line` results, in chunk order. |
| Outline.ParseChunksAllParse | core_stream.py:76-81 | When every chunk parses, there is one entry per chunk and the i-th is the parse of the i-th chunk. |
| Outline.ParseText | core_stream.py:68-81 | At most one well-formed entry per header, and `[]` when no line is a header. |
| Outline.ParseTextPlanText | core_stream.py:68-81 | `parse_text` of the serialised plan gives back every entry the line format cannot confuse, in order. |
| Outline.PlanTextLines | core_stream.py:69 | The stripped non-empty lines of a non-empty serialised plan are its plan lines. |
| Outline.PlanLinesChunks | core_stream.py:70-81 | Plan lines start with a header, and the chunk loop over them gives back the entries. |
| Outline.PlanChunksParse | core_stream.py:77 | One-line chunks of plan lines parse to their entries. |
| Outline.ChunksOfHeaders | core_stream.py:70-75 | Lines that are all headers are cut into one-line chunks. |
| Outline.PlanLineStrip | core_stream.py:259 | A plan line of a well-formed entry is unchanged by stripping. |
| Outline.Somes | core_stream.py:77 | Every entry wrapped as a present result, in order. |
| Outline.PresentSomes | core_stream.py:78-80 | Keeping the present results of wrapped entries gives the entries back. |
| Outline.ParsePlanLine | core_stream.py:259 | `parse_line` of the line formatted for an entry gives back that entry. |
| Outline.LaidParsesBack | core_stream.py:47-66 | A line laid out in the plan line format parses back to its entry. |
| Outline.PlanLineLayout | core_stream.py:259 | A formatted plan line has its labels and fields at fixed offsets. |
| Outline.LaidEntry | core_stream.py:55-63 | The key-point entry of a laid-out line is the entry it was made from. |
| Outline.LaidWordCount | core_stream.py:57 | The word-count suffix of a laid-out line matches exactly where it was laid. |
| Outline.LaidFields | core_stream.py:55-61 | The label and description of a laid-out line are where the parser looks for them. |
| Outline.HeadMarker | core_stream.py:49 | The marker of a laid-out line spans its section number. |
| Outline.HeadKeyPoint | core_stream.py:55 | The first key-point label of a laid-out line follows its section number. |
| Outline.ExampleFullLine | core_stream.py:47-66 | `第 3 段 - 要点：主角抵达古堡 - 字数：800字` parses to section 3, that description and `800字`. |
| Outline.ExampleBareHeader | core_stream.py:53-54 | `第 3 段` parses to the placeholder entry. |
| Workspace.NewFolder | core_stream.py:221-225 | A fresh folder holds only the instruction. |
| Workspace.Substitute | core_stream.py:216-218 | A template without any of the placeholders is left as it is. |
| Workspace.PlanPrompt | core_stream.py:216-218 | The planning prompt of a template without the five placeholders is the template. |
| Workspace.WritePrompt | core_stream.py:284 | The writing prompt of a template without `$PLAN$`, `$TEXT$` and `$STEP$` is the template. |
| Workspace.SectionPrompt | core_nonstream.py:151 | The same for the second half, applied to a template whose plan is in place. |
| Workspace.WritePromptIdentity | core_stream.py:284 | Filling each placeholder with itself gives back the template, so nothing else is added. |
| Workspace.PyIndex | core_nonstream.py:150-151 | `xs[i]` succeeds exactly for `-len(xs) <= i < len(xs)`. A non-negative index gives `xs[i]` and a negative one `xs[len(xs) + i]`. |
| StreamProcessors.OutputsAppend | core_stream.py:100 | The content of two histories is the content of each, in order. |
| StreamProcessors.PlanStep | core_stream.py:90-101 | A non-empty chunk sets the status by its channel. Reasoning leaves buffer and chapters alone, and content is appended to the buffer. |
| StreamProcessors.PlanStepMarkup | core_stream.py:103-118 | Reasoning and empty chunks change nothing. In output, content is appended and the status and thought stay. The switch to output happens only on content that completes a pair, and leaves the cleaned, stripped buffer. |
| StreamProcessors.WriteStep | core_stream.py:129-141 | The prose gains exactly the content and the buffer is untouched. A non-empty chunk becomes the delta of its own channel and leaves the other delta as it was. |
| StreamProcessors.WriteStepMarkup | core_stream.py:143-160 | Reasoning and empty chunks change nothing. In output, content is appended to the prose. The switch happens only on content that completes a pair, and leaves an empty buffer and the cleaned, stripped prose. |
| StreamProcessors.WriteStepMarkupAsWritten | core_stream.py:158-160 | The same as written, except that at the switch the prose is empty. |
| StreamProcessors.PlanFold | core_stream.py:90-118 | After any history, every chapter of the planning processor is well-formed. |
| StreamProcessors.PlanningProcessor.constructor | core_stream.py:84-88 | Empty think, chapters and buffer, in the thinking state. |
| StreamProcessors.PlanningProcessor.ProcessChunk | core_stream.py:90-101 | The fields become the separate-channel planning step of the old fields. |
| StreamProcessors.PlanningProcessor.ReceiveContent | core_stream.py:95-101 | The fields become the separate-channel planning step for a content chunk. |
| StreamProcessors.PlanningProcessor.ProcessChunkMarkup | core_stream.py:103-118 | The fields become the markup planning step of the old fields. |
| StreamProcessors.WritingProcessor.constructor | core_stream.py:121-127 | All six fields empty, in the thinking state. |
| StreamProcessors.WritingProcessor.ProcessChunk | core_stream.py:129-141 | The fields become the separate-channel writing step of the old fields. |
| StreamProcessors.WritingProcessor.ProcessChunkMarkup | core_stream.py:143-160 | The fields become the corrected markup writing step, which computes the prose before clearing the buffer (see Findings). |
| StreamProcessors.PlanSeparateText | core_stream.py:90-100 | The buffer is all content received and the status is that of the last non-empty chunk. The reasoning is the think chunks with `\n\n` at each switch to content. |
| StreamProcessors.PlanSeparateOutline | core_stream.py:101 | The chapters always equal `parse_text(buffer)`, empty chunks included. |
| StreamProcessors.PlanStepReparses | core_stream.py:101 | One separate-channel step keeps chapters equal to the parse of the buffer. |
| StreamProcessors.PlanSeparateFold | core_stream.py:90-101 | The planning processor's whole state after any history, in closed form. |
| StreamProcessors.WriteSeparateFold | core_stream.py:129-141 | The writing processor's state in closed form: prose is all content, the deltas are each channel's last non-empty chunk, and the buffer stays empty. |
| StreamProcessors.OnlyThoughts | core_stream.py:91-94 | Before any content the reasoning is the think chunks and the status is thinking. |
| StreamProcessors.ReasoningThenContent | core_stream.py:95-99 | Reasoning then content yields the think chunks followed by one `\n\n`, and the status is output. |
| StreamProcessors.PlanMarkupBefore | core_stream.py:105-114 | Until the content holds a pair, the planner buffers everything, keeps no chapters and shows the open tag's line tail as its thought. |
| StreamProcessors.PlanMarkupSwitch | core_stream.py:115-118 | On the chunk that completes the first pair, the planner switches to output, keeps that pair's inner text as its thought, and stores the buffer with pairs removed and stripped. It does not re-parse the chapters. |
| StreamProcessors.PlanAfterStep | core_stream.py:107-109 | In the output state a step keeps status and thought and appends content to the buffer. |
| StreamProcessors.PlanMarkupAfter | core_stream.py:107-109 | After the switch the buffer is the cleaned buffer followed by all later content. |
| StreamProcessors.PlanAppendAfter | core_stream.py:107-109 | In the output state, later chunks only append their content. |
| StreamProcessors.PlanMarkupStepReparses | core_stream.py:106-109 | In the output state, a non-empty content chunk re-parses the buffer and any other chunk leaves the chapters alone. |
| StreamProcessors.PlanMarkupOutline | core_stream.py:108-109 | After the switch the chapters are `[]` until more content arrives, and then the parse of the buffer. |
| StreamProcessors.PlanMarkupStatus | core_stream.py:105-118 | The planner is in the output state exactly when the content so far holds a pair. |
| StreamProcessors.PlanMarkupMonotone | core_stream.py:105-118 | The status never goes back from output to thinking. |
| StreamProcessors.WriteMarkupBefore | core_stream.py:150-155 | Until the content holds a pair, both writers buffer it and show the line tail as their thought. |
| StreamProcessors.WriteMarkupSwitch | core_stream.py:156-160 | On the completing chunk the corrected writer's prose is the cleaned buffer, while the writer as written has empty prose. |
| StreamProcessors.WriteAfterStep | core_stream.py:147-149 | In the output state a step appends the chunk to the prose and records it as the delta. Both writers agree on it. |
| StreamProcessors.WriteMarkupAfter | core_stream.py:147-160 | After the switch the corrected writer's prose is the cleaned buffer followed by all later content. |
| StreamProcessors.WriteAppendAfter | core_stream.py:147-149 | In the output state both writers only append later content. |
| StreamProcessors.WriterMatchesPlanner | core_stream.py:118 | After the switch the corrected writer's prose and thought equal the planner's buffer and thought. |
| StreamProcessors.AsWrittenAfter | core_stream.py:158-160 | After the switch the writer as written holds only the content received after the completing chunk. |
| StreamProcessors.TwoChunkSwitch | core_stream.py:150-160 | Two chunks whose concatenation first holds a pair switch on the second. |
| StreamProcessors.SplitTagSwitches | core_stream.py:150-160 | A reply that splits `<think>` across two chunks switches on the second. |
| StreamProcessors.ExampleSplitTag | core_stream.py:143-160 | For that reply the corrected writer shows the thought and the stripped prose. |
| StreamProcessors.AsWrittenLosesProse | core_stream.py:158-160 | For that reply the writer as written has empty prose while the corrected one has the stripped prose. |
| StreamAgent.PlanSnaps | core_stream.py:246-252 | One snapshot per chunk. |
| StreamAgent.WriteSnaps | core_stream.py:295-304 | One snapshot per chunk. |
| StreamAgent.PlanSnapAt | core_stream.py:246-252 | The i-th yielded snapshot is the planning processor's status, thought and chapters after the first i+1 chunks. |
| StreamAgent.WriteSnapAt | core_stream.py:295-304 | The i-th yielded snapshot is the full triple in markup mode. Otherwise it is the thought while thinking and the prose once in output. |
| StreamAgent.ProcessPlanning | core_stream.py:244-252 | The loop yields the planning snapshots and ends with the fold of all chunks. |
| StreamAgent.ProcessWriting | core_stream.py:293-304 | The loop yields the writing snapshots and ends with the fold of all chunks. |
| StreamAgent.Sections | core_stream.py:321-322 | The prose of the logged sections, each followed by `\n\n`. |
| StreamAgent.SectionsConcat | core_stream.py:318-322 | The prose of a log is the prose of its parts, in order. |
| StreamAgent.Instructed | core_stream.py:214-226 | After `set_instruction`: planning, a fresh folder holding the instruction, and the planning prompt substituted with the instruction and the word limits under `$MAX_WORDS$`, and the writing prompt with the instruction only. |
| StreamAgent.Planned | core_stream.py:253-274 | After a plan: writing from section 0 with no prose. The section list has one line per chapter. The log holds the plan prompt, reasoning and serialised chapters, the plan text and `plan.txt` are the serialised chapters, and instruction and prompts are unchanged. |
| StreamAgent.Wrote | core_stream.py:310-326 | After a section: the cursor advances by one, the prose gains the output and `\n\n`, and the log gains the section's entry. The plan, instruction and prompts are unchanged, and the invariant is kept. |
| StreamAgent.StopRecordsProgress | core_stream.py:271-272 | A writing agent's stop marker reads back as its cursor. |
| StreamAgent.AgentWriter.constructor | core_stream.py:163-212 | A new agent is in the setting state, with no folder contents. |
| StreamAgent.AgentWriter.SetInstruction | core_stream.py:214-226 | The new state is `Instructed`. |
| StreamAgent.AgentWriter.MakePlan | core_stream.py:228-275 | From setting it returns -1 and from writing 0, in both cases unchanged. From planning it yields the snapshots. After an interrupt it has raised with the state unchanged; otherwise it returns 0 in the `Planned` state. |
| StreamAgent.AgentWriter.AdoptPlan | core_stream.py:253-274 | Recording the plan reaches `Planned`. |
| StreamAgent.AgentWriter.Write | core_stream.py:277-326 | Outside writing it raises, and with every section written it returns -1, both unchanged. Otherwise it yields the snapshots. An interrupt returns -1 with the state unchanged; a completed reply reaches `Wrote`. |
| StreamAgent.AgentWriter.RecordSection | core_stream.py:310-326 | The bookkeeping after a completed section reaches `Wrote`. |
| BatchAgent.ChatOutcome | core_nonstream.py:14-39 | What `chat` returns from attempt `i` on: reasoning is present exactly outside the no-reasoning mode, and markup reasoning holds no close tag. |
| BatchAgent.Decode | core_nonstream.py:24-32 | Decoding fails exactly in markup mode without a pair. Reasoning is absent exactly in the no-reasoning mode, and markup reasoning holds no close tag. Outside markup the output is the content. |
| BatchAgent.DecodeTagged | core_nonstream.py:27-29 | A tagged reply decodes to its thought and its stripped output. |
| BatchAgent.Answer | core_nonstream.py:17-37 | An attempt is retried exactly when it failed or could not be decoded. An interrupt propagates. |
| BatchAgent.ChatFailsIffAllRetried | core_nonstream.py:14-39 | `chat` returns -1 exactly when all `max_retries` attempts are retried. |
| BatchAgent.ChatAnswerDecoded | core_nonstream.py:14-32 | A reply `chat` returns is the decoding of one of its attempts. |
| BatchAgent.Chat | core_nonstream.py:14-39 | The retry loop returns the chat outcome of its attempts. |
| BatchAgent.Instructed | core_nonstream.py:99-111 | After `set_instruction` the agent is planning with the instruction, a fresh folder, and the planning prompt substituted with the instruction and the word limits under `$MAX_WORD$`, and the writing prompt with the instruction only. |
| BatchAgent.Planned | core_nonstream.py:129-142 | After a plan the agent is writing from section 0 with no prose. The section count is the number of header lines of the reply. The write prompt has the plan in place. The folder gains the log entry, `plan.txt` and stop 0. |
| BatchAgent.Wrote | core_nonstream.py:165-174 | After a section the cursor advances by one. The prose and the full text gain the output and `\n\n`, the log gains the entry for the section prompt, the stop marker is `str` of the new cursor, and `written.txt` is never written. |
| BatchAgent.Stopped | core_nonstream.py:155-164 | After a failed or interrupted request only the stop marker changes, to the cursor. |
| BatchAgent.Resumed | core_nonstream.py:207-222 | On resume the cursor is the stored marker and the prose is `written.txt`, empty when it is missing. The sections are the stored plan's header lines. |
| BatchAgent.Reloaded | core_nonstream.py:186-196 | `continue_from_stop` reloads the folder and the instruction and rebuilds the planning prompt. |
| BatchAgent.ResumeOwnFolder | core_nonstream.py:215-219 | A folder the agent planned and wrote itself has no `written.txt`, since `write` only appends to `fulltext.txt` (core_nonstream.py:167-169), so resuming it starts from empty prose. |
| BatchAgent.ProgressStart | core_nonstream.py:180 | A writing agent has made no progress before its first request. |
| BatchAgent.AnsweredMore | core_nonstream.py:180-183 | One more answered request extends the answered run. |
| BatchAgent.ProseGrows | core_nonstream.py:167-169 | Appending a section keeps the prose and the full text growing together. |
| BatchAgent.ProgressWrote | core_nonstream.py:180-183 | A written section keeps the loop's progress relation. |
| BatchAgent.ProgressStopped | core_nonstream.py:180-183 | A failed request keeps the loop's progress relation. |
| BatchAgent.PlanRunOutcome | core_nonstream.py:176-183 | After a successful plan the run returns. The cursor stays within the section count, sections 0, 1, … are requested in order, and the full text gains exactly the prose. Either every section is written or the last request failed. |
| BatchAgent.PlanRunKeepsPrompt | core_nonstream.py:176-183 | Planning then writing keeps the planning prompt built from the instruction held. |
| BatchAgent.PlanAndWriteKeepsPrompt | core_nonstream.py:99-111 | A job `plan_and_write` ran ends with its instruction and the planning prompt built from it. |
| BatchAgent.ContinueKeepsPrompt | core_nonstream.py:186-196 | After `continue_from_stop` reloads, every way it goes on ends with the planning prompt built from the instruction it holds. |
| BatchAgent.AgentWriter.constructor | core_nonstream.py:48-97 | A new agent is in the setting state with nothing set. |
| BatchAgent.AgentWriter.SetInstruction | core_nonstream.py:99-111 | The new state is `Instructed`. |
| BatchAgent.AgentWriter.MakePlan | core_nonstream.py:113-142 | From setting it returns -1 and from writing 0, both unchanged. From planning: a failed chat writes stop -1 and returns -1; an interrupt raises; a reply returns 0 in the `Planned` state. |
| BatchAgent.AgentWriter.AdoptPlan | core_nonstream.py:129-142 | Recording the plan reaches `Planned`. |
| BatchAgent.AgentWriter.Write | core_nonstream.py:144-174 | Outside writing it raises; with every section written it returns -1, both unchanged. A cursor Python cannot index raises. A reply returns 0 in the `Wrote` state; otherwise it returns -1 in the `Stopped` state. |
| BatchAgent.AgentWriter.RecordSection | core_nonstream.py:165-174 | The bookkeeping after a reply reaches `Wrote`. |
| BatchAgent.AgentWriter.WriteTracked | core_nonstream.py:181-183 | One turn of the writing loop keeps its progress relation and advances the cursor only on a reply. |
| BatchAgent.AgentWriter.WriteRemaining | core_nonstream.py:180-183 | The writing loop terminates, keeps the invariant, and ends as `WriteRun` says. |
| BatchAgent.AgentWriter.PlanThenWrite | core_nonstream.py:178-183 | Planning then writing ends as `PlanRun` says. |
| BatchAgent.AgentWriter.PlanAndWrite | core_nonstream.py:176-183 | `plan_and_write` ends as `PlanRun` says, from the `Instructed` state. |
| BatchAgent.AgentWriter.ContinueFromStop | core_nonstream.py:185-226 | Without any instruction it raises, having only replaced the folder. Otherwise it ends as `MarkerRun` says from the reloaded state: a marker that is no integer raises, -1 plans again, and any other number resumes writing there without re-requesting earlier sections. |
| BatchAgent.AgentWriter.ResumeFromMarker | core_nonstream.py:197-206 | The stop marker selects re-planning or resuming. |
| BatchAgent.AgentWriter.ResumeAt | core_nonstream.py:207-226 | Without a plan it raises after setting status, cursor and prose. With a plan it writes from the marker on. |
| BatchAgent.AgentWriter.ResumeWriting | core_nonstream.py:208-222 | Rebuilding the writing state reaches `Resumed`. |

## Left out

- The transport is left out:
  - the OpenAI client, `time.sleep`, and the retry loop of `stream`;
  - `chat`'s client call, beyond the outcome of each attempt.

  A streamed reply is the list of chunks delivered across all attempts. An attempt is failed, interrupted or answered.
- Configuration and template loading in `__init__` are left out: YAML, file reads and the `save_path` default. The constructor takes the two templates, the word limits and the reasoning mode. The word-limit assertion at core_stream.py:206 is not modelled, because the limits only ever reach the prompts.
- The file system and timestamps are replaced by a `Folder` record: `os.makedirs`, `jsonlines` and the `generate_<timestamp>` naming.
  - A log entry keeps the prompt, the reasoning and the output. The `author` metadata and the message wrapper are left out.
  - `print` output is left out.
- Generators are modelled as returned snapshot sequences; suspension between yields is not modelled. A `KeyboardInterrupt` is modelled as arriving after the last chunk of a streamed reply, not in the middle of it.
- The streaming agent's `== -1` checks at core_stream.py:239 and :288 are dead code, because `stream` is a generator and never equals -1. They are modelled by their absence: a failed transport shows up as a shorter chunk list. As a consequence, when every attempt fails the streaming `make_plan` adopts whatever chunks arrived, possibly none, giving `N_chapters = 0` in the writing state, instead of writing stop `-1`. A retry sends its chunks from the start, so the buffer also keeps the partial output of the failed attempt. The model covers this only through the chunk list it is given.
- app.py (the user interface) and test.py (a streaming demo) are not part of this model.
- `\d` is modelled as the ASCII digits only. Python also accepts other Unicode decimal digits. `\s` is modelled as the set `str.isspace` accepts.
- `int()` on the stop marker is modelled for an optional minus sign followed by ASCII digits. Python also accepts surrounding whitespace, a plus sign and underscores between digits.
- BatchAgent.AgentWriter.MakePlan: core_nonstream.py:141 calls `f.write(0)`, which raises `TypeError` after `plan.txt` is written. As written, `stop.txt` has been opened with `'w'` and is left empty. `plan_and_write` (core_nonstream.py:178) and the -1 branch of `continue_from_stop` (core_nonstream.py:201) then never reach their writing loops, and a later `continue_from_stop` fails at `int('')` (core_nonstream.py:198). The model stores the marker `0` and returns 0, as the surrounding code evidently intends. BatchAgent.Planned, PlanRunOutcome, PlanThenWrite and PlanAndWrite depend on this.
- Outline.ParsePlanLine: the round trip is stated for entries that the line format cannot confuse: a non-empty description ending in something other than a word-count label character, and a target of ASCII digits followed by 字. Other entries may not parse back to themselves.
- BatchAgent.Reply: a run given fewer replies than it requests treats the missing ones as failed requests.
- BatchAgent.Consistent: the invariant is stated without the configuration, so it does not hold the tie between the planning prompt and the instruction. That tie is stated instead over every run: PlanAndWriteKeepsPrompt and ContinueKeepsPrompt.
- The `$INST$` placeholder in the writing template is substituted at core_stream.py:220 and core_nonstream.py:105. The non-streaming agent discards that result at core_nonstream.py:139 and :222, and the streaming agent never uses it. The model records the value without relying on it.
- BatchAgent.AgentWriter.ContinueFromStop: the state it leaves when it raises is stated, but it may break the invariant (for instance writing with no plan). A Python caller would not go on using it.

## Findings

| source | as written | input that shows it | evidently intended | confidence | as-written member | corrected member |
|---|---|---|---|---|---|---|
| core_stream.py:158-160 | On the chunk that completes the first `<think>…</think>` pair, the writer clears `self.buffer` and then computes `self.text` from the cleared buffer. The prose that arrived with that chunk is lost and `text` becomes empty. | Markup mode with content chunks `"<thi"` and `"nk>t</think>o"` ends with `text == ""` instead of `"o"`. | Compute `text` from the buffer before clearing it, as the planner does at core_stream.py:118: the pairs are removed and the rest is stripped, so any text before `<think>` is kept (Markup.RemovePairsPrefix). | not executed | StreamProcessors.AsWrittenLosesProse | StreamProcessors.ExampleSplitTag |

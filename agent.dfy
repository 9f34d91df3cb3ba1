/** The agent itself: a fixed chain of ten nodes over one shared state. Each
    node reads slots of the state and returns a patch that the graph merges
    into it; most nodes run a stage that may call the two retriever tools.
    The language models and the prompt templates appear as functions passed
    in. */
module Agent {
  import opened Wrappers
  import opened Text
  import opened WebOperations
  import opened CompanyResolver
  import opened PdfOperations
  import opened RagSetup

  // ---------------------------------------------------------------------
  // Messages, replies and tools

  const AssistantRole: string := "assistant"
  const UserRole: string := "user"
  /** The role of an `AIMessage`. */
  const AiRole: string := "ai"
  const ResultSeparator: string := "\n\n"

  /** One chat message: its role and its text. */
  datatype Turn = Turn(role: string, content: string)

  /** A tool call the model asks for; the argument is the query. */
  datatype ToolCall = ToolCall(name: string, query: string)

  /** A model reply: its text and the tool calls it asks for. */
  datatype Reply = Reply(content: string, toolCalls: seq<ToolCall>)

  /** `invoke` of a chat model on a list of messages. */
  type ChatModel = seq<Turn> -> Reply

  const CvToolName: string := "retrieve_cv_content"
  const GuideToolName: string := "retrieve_cover_letter_guide"

  /** The names in `tools_dict`. */
  predicate IsKnownTool(name: string) {
    name == CvToolName || name == GuideToolName
  }

  /** The vector store and its similarity search, behind both tools. */
  datatype Tools = Tools(store: VectorStore, rank: Ranking)

  /** What one tool call adds to the results: the tool's answer, or nothing
      for a name not in `tools_dict`. */
  function ToolOutput(tools: Tools, call: ToolCall): seq<string> {
    if call.name == CvToolName then
      [Formatted(Retrieve(tools.store, tools.rank, CvTag, call.query), CvLabel, NoCvFound)]
    else if call.name == GuideToolName then
      [Formatted(Retrieve(tools.store, tools.rank, GuideTag, call.query), GuideLabel, NoGuideFound)]
    else []
  }

  /** The results of a list of tool calls, in call order. */
  function ToolResults(tools: Tools, calls: seq<ToolCall>): seq<string>
    decreases |calls|
  {
    if calls == [] then []
    else ToolResults(tools, calls[..|calls| - 1]) + ToolOutput(tools, calls[|calls| - 1])
  }

  /** The results of two runs of calls, one after the other, are the
      results of the calls one after the other. */
  lemma {:induction false} ToolResultsAppend(tools: Tools, a: seq<ToolCall>, b: seq<ToolCall>)
    ensures ToolResults(tools, a + b) == ToolResults(tools, a) + ToolResults(tools, b)
    decreases |b|
  {
    if b == [] {
      assert a + b == a;
    } else {
      var front := b[..|b| - 1];
      assert (a + b)[..|a + b| - 1] == a + front;
      ToolResultsAppend(tools, a, front);
    }
  }

  /** A call to an unknown tool is skipped: it adds nothing and raises
      nothing. */
  lemma UnknownToolSkipped(tools: Tools, a: seq<ToolCall>, call: ToolCall, b: seq<ToolCall>)
    requires !IsKnownTool(call.name)
    ensures ToolResults(tools, a + [call] + b) == ToolResults(tools, a + b)
  {
    ToolResultsAppend(tools, a + [call], b);
    assert (a + [call])[..|a + [call]| - 1] == a;
    assert ToolOutput(tools, call) == [];
    assert ToolResults(tools, a + [call]) == ToolResults(tools, a);
    ToolResultsAppend(tools, a, b);
  }

  /** When every call names a known tool, there is one result per call, in
      the same order. */
  lemma {:induction false} KnownToolsAnswerEach(tools: Tools, calls: seq<ToolCall>)
    requires forall i :: 0 <= i < |calls| ==> IsKnownTool(calls[i].name)
    ensures |ToolResults(tools, calls)| == |calls|
    ensures forall i :: 0 <= i < |calls| ==> [ToolResults(tools, calls)[i]] == ToolOutput(tools, calls[i])
    decreases |calls|
  {
    if calls != [] {
      var front := calls[..|calls| - 1];
      KnownToolsAnswerEach(tools, front);
      assert forall i :: 0 <= i < |front| ==> front[i] == calls[i];
    }
  }

  /** `tools_dict[name].invoke(args)` for a known name. */
  method InvokeTool(tools: Tools, call: ToolCall) returns (result: string)
    requires IsKnownTool(call.name)
    ensures [result] == ToolOutput(tools, call)
  {
    if call.name == CvToolName {
      result := RetrieveCvContent(tools.store, tools.rank, call.query);
    } else {
      result := RetrieveCoverLetterGuide(tools.store, tools.rank, call.query);
    }
  }

  // ---------------------------------------------------------------------
  // The stage runner

  /** The messages the tool-free model sees after a reply asked for tools:
      the prompt, the reply's text as an assistant turn, and the tool results
      joined by blank lines as a user turn. */
  function FollowUp(tools: Tools, messages: seq<Turn>, first: Reply): seq<Turn> {
    messages + [Turn(AssistantRole, first.content), Turn(UserRole, Join(ToolResults(tools, first.toolCalls), ResultSeparator))]
  }

  /** The text a stage produces. */
  function StageAnswer(withTools: ChatModel, plain: ChatModel, tools: Tools, messages: seq<Turn>): string {
    var first := withTools(messages);
    if first.toolCalls == [] then first.content
    else plain(FollowUp(tools, messages, first)).content
  }

  /** The body shared by the stages: ask the tool-enabled model; when it asks
      for tools, run the known ones in order, extend the messages by two
      turns and ask the tool-free model once. `invocations` counts the model
      calls. */
  method RunStage(withTools: ChatModel, plain: ChatModel, tools: Tools, messages: seq<Turn>)
    returns (content: string, transcript: seq<Turn>, invocations: nat)
    ensures content == StageAnswer(withTools, plain, tools, messages)
    ensures withTools(messages).toolCalls == [] ==> transcript == messages && invocations == 1
    ensures withTools(messages).toolCalls != [] ==>
      transcript == FollowUp(tools, messages, withTools(messages)) && invocations == 2
  {
    var response := withTools(messages);
    transcript := messages;
    invocations := 1;
    if response.toolCalls != [] {
      var calls := response.toolCalls;
      var toolResults: seq<string> := [];
      for i := 0 to |calls|
        invariant toolResults == ToolResults(tools, calls[..i])
      {
        assert calls[..i + 1][..i] == calls[..i];
        var call := calls[i];
        if IsKnownTool(call.name) {
          var result := InvokeTool(tools, call);
          toolResults := toolResults + [result];
        }
      }
      assert calls[..|calls|] == calls;
      transcript := transcript + [Turn(AssistantRole, response.content)];
      transcript := transcript + [Turn(UserRole, Join(toolResults, ResultSeparator))];
      assert transcript == FollowUp(tools, messages, response);
      response := plain(transcript);
      invocations := 2;
    }
    content := response.content;
  }

  /** A stage whose model asks for no tool answers with that reply; one that
      asks for tools answers with the tool-free model's reply to the prompt,
      then the first reply, then the results of exactly the known calls. */
  lemma StageAnswerCases(withTools: ChatModel, plain: ChatModel, tools: Tools, messages: seq<Turn>)
    ensures var first := withTools(messages);
      && (first.toolCalls == [] ==> StageAnswer(withTools, plain, tools, messages) == first.content)
      && (first.toolCalls != [] ==>
            var follow := FollowUp(tools, messages, first);
            && StageAnswer(withTools, plain, tools, messages) == plain(follow).content
            && |follow| == |messages| + 2 && follow[..|messages|] == messages
            && follow[|messages|] == Turn(AssistantRole, first.content)
            && follow[|messages| + 1].role == UserRole)
  {
  }

  // ---------------------------------------------------------------------
  // The shared state

  datatype Slot =
    | JobDescription | InputMethod | JobUrl | KeywordsAnalysis | TailoredSummary
    | TailoredSkills | TailoredExperience | TailoredNameDesc | LengthCheckResult
    | CoverLetter | InterestAnswer | CompanyName | OutputFilesSlot

  /** A slot's value: `None`, a string, or the record of saved files. */
  datatype Value = Missing | Text(s: string) | Files(files: OutputFiles)

  /** The state: the slots that have a key, and the message list. */
  datatype AgentState = AgentState(slots: map<Slot, Value>, messages: seq<Turn>)

  /** What a node returns: the slots it sets and the messages it adds. */
  datatype Patch = Patch(slots: map<Slot, Value>, messages: seq<Turn>)

  /** `state.get(slot)`. */
  function Get(state: AgentState, slot: Slot): Value {
    if slot in state.slots then state.slots[slot] else Missing
  }

  /** Python truthiness of a slot's value. */
  predicate Truthy(v: Value) {
    match v
    case Missing => false
    case Text(s) => s != ""
    case Files(_) => true
  }

  /** Every slot holds what its declared type allows. */
  predicate WellTyped(state: AgentState) {
    forall slot :: slot in state.slots ==>
      if slot == OutputFilesSlot then !state.slots[slot].Text? else !state.slots[slot].Files?
  }

  /** The graph's merge of a patch: its slots overwrite, its messages are
      appended. */
  function Apply(state: AgentState, patch: Patch): AgentState {
    AgentState(state.slots + patch.slots, state.messages + patch.messages)
  }

  /** Merging a patch sets exactly the patch's slots, keeps every other slot
      and appends the patch's messages. */
  lemma ApplyTouchesOnlyPatch(state: AgentState, patch: Patch)
    ensures forall slot :: slot in patch.slots ==> Get(Apply(state, patch), slot) == patch.slots[slot]
    ensures forall slot :: slot !in patch.slots ==> Get(Apply(state, patch), slot) == Get(state, slot)
    ensures Apply(state, patch).messages == state.messages + patch.messages
  {
  }

  /** The string a node passes on for a slot, as an f-string shows it. */
  function Shown(v: Value): string {
    match v
    case Missing => "None"
    case Text(s) => s
    case Files(_) => ""
  }

  // ---------------------------------------------------------------------
  // Nodes

  datatype AgentError = JobDescriptionMissing

  /** The prompt template behind each stage. */
  datatype Stage =
    | KeywordsStage | SummaryStage | SkillsStage | ExperienceStage | NameDescStage
    | LengthStage | CoverLetterStage | InterestStage

  /** `get_*_messages`: the messages of a stage for the values it reads. */
  type PromptBuilder = (Stage, seq<Value>) -> seq<Turn>

  /** Everything outside the graph that the nodes use: the prompt templates,
      the two models, the tools, the company oracles, the directory of
      `main.py`, the clock readings of the output stage and whether the PDF
      renders. */
  datatype Environment = Environment(
    prompts: PromptBuilder, withTools: ChatModel, plain: ChatModel, tools: Tools,
    companyModel: CompanyModel, search: SentenceSearch, baseDir: string,
    textStamp: DateTime, generated: DateTime, pdfStamp: DateTime, rendered: bool)

  /** The slots each stage's prompt is built from, in argument order. */
  function StageInputs(stage: Stage): seq<Slot> {
    match stage
    case KeywordsStage => [JobDescription]
    case SummaryStage => [JobDescription, KeywordsAnalysis]
    case SkillsStage => [JobDescription, KeywordsAnalysis]
    case ExperienceStage => [JobDescription, KeywordsAnalysis]
    case NameDescStage => [JobDescription, KeywordsAnalysis]
    case LengthStage => [TailoredSummary, TailoredSkills, TailoredExperience, TailoredNameDesc]
    case CoverLetterStage => [JobDescription, CompanyName, TailoredSummary, TailoredSkills, TailoredExperience]
    case InterestStage => [JobDescription, CompanyName]
  }

  /** The slot each stage writes. */
  function StageSlot(stage: Stage): Slot {
    match stage
    case KeywordsStage => KeywordsAnalysis
    case SummaryStage => TailoredSummary
    case SkillsStage => TailoredSkills
    case ExperienceStage => TailoredExperience
    case NameDescStage => TailoredNameDesc
    case LengthStage => LengthCheckResult
    case CoverLetterStage => CoverLetter
    case InterestStage => InterestAnswer
  }

  /** `state["slot"]` for each input: every one must have a key. */
  predicate HasInputs(state: AgentState, stage: Stage) {
    forall slot :: slot in StageInputs(stage) ==> slot in state.slots
  }

  function InputValues(state: AgentState, stage: Stage): seq<Value>
    requires HasInputs(state, stage)
  {
    seq(|StageInputs(stage)|, i requires 0 <= i < |StageInputs(stage)| && HasInputs(state, stage) =>
      state.slots[StageInputs(stage)[i]])
  }

  /** The URL handed to the company cascade: `state.get("job_url")`, with
      `None` as the empty string. */
  function JobUrlOf(state: AgentState): string {
    match Get(state, JobUrl)
    case Text(s) => s
    case _ => ""
  }

  /** The company name `get_job_description` settles on. */
  function SettledCompany(state: AgentState, env: Environment): Value
    requires Get(state, JobDescription).Text?
  {
    if Truthy(Get(state, CompanyName)) then Get(state, CompanyName)
    else Text(ResolveCompany(env.companyModel, env.search, Get(state, JobDescription).s, JobUrlOf(state)))
  }

  /** `get_job_description`: fail when the description is missing or empty;
      otherwise keep a supplied company name, or resolve one from the text
      and the URL. The patch sets the company name and nothing else. */
  method GetJobDescriptionNode(state: AgentState, env: Environment) returns (r: Result<Patch, AgentError>)
    requires WellTyped(state)
    ensures r.Failure? <==> !Truthy(Get(state, JobDescription))
    ensures r.Failure? ==> r.error == JobDescriptionMissing
    ensures r.Success? ==> Get(state, JobDescription).Text?
    ensures r.Success? ==> r.value == Patch(map[CompanyName := SettledCompany(state, env)], [])
  {
    var description := Get(state, JobDescription);
    if !Truthy(description) {
      return Failure(JobDescriptionMissing);
    }
    var company := Get(state, CompanyName);
    if !Truthy(company) {
      var resolved := ExtractCompanyNameFromText(env.companyModel, env.search, description.s, JobUrlOf(state));
      company := Text(resolved);
    }
    return Success(Patch(map[CompanyName := company], []));
  }

  /** A supplied company name survives; a resolved one is a safe file name. */
  lemma SettledCompanyKept(state: AgentState, env: Environment)
    requires Get(state, JobDescription).Text?
    ensures Truthy(Get(state, CompanyName)) ==> SettledCompany(state, env) == Get(state, CompanyName)
    ensures !Truthy(Get(state, CompanyName)) ==>
      SettledCompany(state, env).Text? && IsSafeName(SettledCompany(state, env).s)
  {
  }

  /** The patch of a tool-using stage. */
  function StagePatch(state: AgentState, env: Environment, stage: Stage): Patch
    requires HasInputs(state, stage)
  {
    var messages := env.prompts(stage, InputValues(state, stage));
    Patch(map[StageSlot(stage) := Text(StageAnswer(env.withTools, env.plain, env.tools, messages))], [])
  }

  /** `analyze_keywords`, `tailor_summary`, `tailor_skills`,
      `tailor_experience`, `tailor_name_desc`, `generate_cover_letter` and
      `generate_interest_answer`: build the stage's prompt from its slots,
      run the stage and store the answer in the stage's own slot. */
  method ToolStageNode(state: AgentState, env: Environment, stage: Stage) returns (patch: Patch)
    requires stage != LengthStage
    requires HasInputs(state, stage)
    ensures patch == StagePatch(state, env, stage)
  {
    var messages := env.prompts(stage, InputValues(state, stage));
    var content, _, _ := RunStage(env.withTools, env.plain, env.tools, messages);
    patch := Patch(map[StageSlot(stage) := Text(content)], []);
  }

  const TooLongMarker: string := "TOO_LONG"
  const AdjustedNote: string := "Resume length checked and adjusted if needed."
  const FitsNote: string := "Resume length verified - fits on one page."

  /** The note `check_resume_length` adds to the messages. */
  function LengthNote(verdict: string): string {
    if Contains(Upper(verdict), TooLongMarker) then AdjustedNote else FitsNote
  }

  /** The patch of the length check for the model's reply. */
  function LengthPatch(verdict: string): Patch {
    Patch(map[LengthCheckResult := Text(verdict)], [Turn(AiRole, LengthNote(verdict))])
  }

  /** `check_resume_length`: one call of the tool-free model; its reply is
      stored whatever it says, with a note chosen by whether it mentions
      `TOO_LONG` in any case. */
  method CheckResumeLengthNode(state: AgentState, env: Environment) returns (patch: Patch)
    requires HasInputs(state, LengthStage)
    ensures patch == LengthPatch(env.plain(env.prompts(LengthStage, InputValues(state, LengthStage))).content)
  {
    var response := env.plain(env.prompts(LengthStage, InputValues(state, LengthStage)));
    var lengthCheck := response.content;
    if Contains(Upper(lengthCheck), TooLongMarker) {
      patch := Patch(map[LengthCheckResult := Text(lengthCheck)], [Turn(AiRole, AdjustedNote)]);
    } else {
      patch := Patch(map[LengthCheckResult := Text(lengthCheck)], [Turn(AiRole, FitsNote)]);
    }
  }

  /** Upper-casing keeps what a text contains, upper-cased. */
  lemma UpperKeepsContains(s: string, sub: string)
    requires Contains(s, sub)
    ensures Contains(Upper(s), Upper(sub))
  {
    var i :| 0 <= i <= |s| && OccursAt(s, sub, i);
    assert Upper(s)[i..i + |sub|] == Upper(s[i..i + |sub|]);
    assert OccursAt(Upper(s), Upper(sub), i);
  }

  /** A reply that mentions the marker in any mix of cases gets the
      "adjusted" note; one that does not mention it at all gets the "fits"
      note. */
  lemma LengthNoteCases(verdict: string, mention: string)
    ensures Contains(verdict, mention) && Upper(mention) == TooLongMarker ==> LengthNote(verdict) == AdjustedNote
    ensures LengthNote(verdict) == FitsNote <==> !Contains(Upper(verdict), TooLongMarker)
  {
    if Contains(verdict, mention) && Upper(mention) == TooLongMarker {
      UpperKeepsContains(verdict, mention);
    }
  }

  /** The slots `save_outputs` reads. */
  predicate CanSave(state: AgentState) {
    && Get(state, CompanyName).Text? && Get(state, JobDescription).Text?
    && KeywordsAnalysis in state.slots && TailoredSummary in state.slots && TailoredSkills in state.slots
    && TailoredExperience in state.slots && TailoredNameDesc in state.slots
    && CoverLetter in state.slots && InterestAnswer in state.slots
  }

  /** The texts `save_outputs` hands on. */
  function SavedContent(state: AgentState): TailoredContent
    requires CanSave(state)
  {
    TailoredContent(
      Shown(state.slots[KeywordsAnalysis]), Shown(state.slots[TailoredSummary]), Shown(state.slots[TailoredSkills]),
      Shown(state.slots[TailoredExperience]), Shown(state.slots[TailoredNameDesc]),
      Shown(state.slots[CoverLetter]), Shown(state.slots[InterestAnswer]))
  }

  /** `save_outputs`: save everything under `outputs` next to `main.py` and
      store the returned record. */
  method SaveOutputsNode(state: AgentState, env: Environment) returns (patch: Patch)
    requires CanSave(state)
    ensures patch == Patch(map[OutputFilesSlot := Files(SaveAllOutputs(
      PathJoin(env.baseDir, "outputs"), Get(state, CompanyName).s, Get(state, JobDescription).s,
      SavedContent(state), env.textStamp, env.generated, env.pdfStamp, env.rendered))], [])
    ensures patch.slots.Keys == {OutputFilesSlot} && patch.messages == []
    ensures patch.slots[OutputFilesSlot].Files?
    ensures patch.slots[OutputFilesSlot].files.position == PositionTitle(Get(state, JobDescription).s)
  {
    var outputDir := PathJoin(env.baseDir, "outputs");
    var outputFiles := SaveAllOutputs(outputDir, Get(state, CompanyName).s, Get(state, JobDescription).s,
      SavedContent(state), env.textStamp, env.generated, env.pdfStamp, env.rendered);
    patch := Patch(map[OutputFilesSlot := Files(outputFiles)], []);
  }

  /** Each stage's patch sets only its own slot and adds no message. */
  lemma StagePatchOwnSlot(state: AgentState, env: Environment, stage: Stage)
    requires HasInputs(state, stage)
    ensures StagePatch(state, env, stage).slots.Keys == {StageSlot(stage)}
    ensures StagePatch(state, env, stage).messages == []
  {
  }

  /** The length check sets its own slot, adds one note, and leaves the
      tailored texts, like every other slot, as they were. */
  lemma LengthCheckKeepsTexts(state: AgentState, verdict: string)
    ensures Get(Apply(state, LengthPatch(verdict)), LengthCheckResult) == Text(verdict)
    ensures forall slot :: slot != LengthCheckResult ==> Get(Apply(state, LengthPatch(verdict)), slot) == Get(state, slot)
    ensures Apply(state, LengthPatch(verdict)).messages == state.messages + [Turn(AiRole, LengthNote(verdict))]
  {
  }

  // ---------------------------------------------------------------------
  // The run

  /** The slots the nodes fill. */
  const FilledSlots: set<Slot> := {
    CompanyName, KeywordsAnalysis, TailoredSummary, TailoredSkills, TailoredExperience,
    TailoredNameDesc, LengthCheckResult, CoverLetter, InterestAnswer, OutputFilesSlot }

  /** The slots filled once the tailoring nodes, and then the letter nodes,
      have run. */
  const TailoredSlots: set<Slot> :=
    {CompanyName} + {KeywordsAnalysis} + {TailoredSummary} + {TailoredSkills} + {TailoredExperience} + {TailoredNameDesc}
  const LetterSlots: set<Slot> := TailoredSlots + {LengthCheckResult} + {CoverLetter} + {InterestAnswer}

  /** The nodes fill the slots of `FilledSlots`, one by one. */
  lemma FilledSlotsInOrder()
    ensures LetterSlots + {OutputFilesSlot} == FilledSlots
  {
  }

  /** How far a run has come: the slots in `filled` hold values, every slot
      no node writes is as supplied, the company name is settled and `extra`
      messages were appended. */
  ghost predicate Progress(initial: AgentState, company: Value, state: AgentState, filled: set<Slot>, extra: nat) {
    && (forall slot :: slot in filled ==> slot in state.slots && state.slots[slot] != Missing)
    && (forall slot :: slot !in FilledSlots ==> Get(state, slot) == Get(initial, slot))
    && Get(state, CompanyName) == company
    && |state.messages| == |initial.messages| + extra
    && state.messages[..|initial.messages|] == initial.messages
  }

  /** Merging the patch of a node that fills one slot other than the company
      name advances the run by that slot. */
  lemma StepProgress(initial: AgentState, company: Value, state: AgentState, patch: Patch,
                     slot: Slot, filled: set<Slot>, extra: nat)
    requires Progress(initial, company, state, filled, extra)
    requires slot in FilledSlots && slot != CompanyName
    requires patch.slots.Keys == {slot} && patch.slots[slot] != Missing
    ensures Progress(initial, company, Apply(state, patch), filled + {slot}, extra + |patch.messages|)
  {
    var next := Apply(state, patch);
    assert (state.messages + patch.messages)[..|initial.messages|] == state.messages[..|initial.messages|];
    forall other | other != slot
      ensures Get(next, other) == Get(state, other)
    {
      assert other !in patch.slots;
    }
  }

  /** The inputs of a stage other than the job description are among the
      `filled` slots. */
  predicate InputsFilled(stage: Stage, filled: set<Slot>) {
    match stage
    case KeywordsStage => true
    case SummaryStage => KeywordsAnalysis in filled
    case SkillsStage => KeywordsAnalysis in filled
    case ExperienceStage => KeywordsAnalysis in filled
    case NameDescStage => KeywordsAnalysis in filled
    case LengthStage => TailoredSummary in filled && TailoredSkills in filled && TailoredExperience in filled && TailoredNameDesc in filled
    case CoverLetterStage =>
      CompanyName in filled && TailoredSummary in filled && TailoredSkills in filled && TailoredExperience in filled
    case InterestStage => CompanyName in filled
  }

  /** One tool-using node of the run: its patch merged into the state fills
      the stage's slot and keeps the run's progress. */
  method StageStep(ghost initial: AgentState, ghost company: Value, state: AgentState, env: Environment,
                   stage: Stage, ghost filled: set<Slot>, ghost extra: nat) returns (next: AgentState)
    requires stage != LengthStage
    requires Get(initial, JobDescription).Text?
    requires InputsFilled(stage, filled)
    requires Progress(initial, company, state, filled, extra)
    ensures Progress(initial, company, next, filled + {StageSlot(stage)}, extra)
  {
    assert Get(state, JobDescription) == Get(initial, JobDescription);
    assert forall slot :: slot in StageInputs(stage) ==> slot == JobDescription || slot in filled;
    var patch := ToolStageNode(state, env, stage);
    StagePatchOwnSlot(state, env, stage);
    StepProgress(initial, company, state, patch, StageSlot(stage), filled, extra);
    next := Apply(state, patch);
  }

  /** The five tailoring nodes, from the keyword analysis to the name and
      description. */
  method TailorStages(ghost initial: AgentState, ghost company: Value, state: AgentState, env: Environment)
    returns (next: AgentState)
    requires Get(initial, JobDescription).Text?
    requires Progress(initial, company, state, {CompanyName}, 0)
    ensures Progress(initial, company, next, TailoredSlots, 0)
  {
    next := StageStep(initial, company, state, env, KeywordsStage, {CompanyName}, 0);
    next := StageStep(initial, company, next, env, SummaryStage, {CompanyName} + {KeywordsAnalysis}, 0);
    next := StageStep(initial, company, next, env, SkillsStage,
      {CompanyName} + {KeywordsAnalysis} + {TailoredSummary}, 0);
    next := StageStep(initial, company, next, env, ExperienceStage,
      {CompanyName} + {KeywordsAnalysis} + {TailoredSummary} + {TailoredSkills}, 0);
    next := StageStep(initial, company, next, env, NameDescStage,
      {CompanyName} + {KeywordsAnalysis} + {TailoredSummary} + {TailoredSkills} + {TailoredExperience}, 0);
  }

  /** The length-check node: its patch merged into the state fills the
      verdict's slot and appends one message. */
  method LengthStep(ghost initial: AgentState, ghost company: Value, state: AgentState, env: Environment)
    returns (next: AgentState)
    requires Progress(initial, company, state, TailoredSlots, 0)
    ensures Progress(initial, company, next, TailoredSlots + {LengthCheckResult}, 1)
  {
    var patch := CheckResumeLengthNode(state, env);
    LengthCheckKeepsTexts(state, patch.slots[LengthCheckResult].s);
    StepProgress(initial, company, state, patch, LengthCheckResult, TailoredSlots, 0);
    next := Apply(state, patch);
  }

  /** The cover letter and the interest answer. */
  method LetterStages(ghost initial: AgentState, ghost company: Value, state: AgentState, env: Environment)
    returns (next: AgentState)
    requires Get(initial, JobDescription).Text?
    requires Progress(initial, company, state, TailoredSlots + {LengthCheckResult}, 1)
    ensures Progress(initial, company, next, LetterSlots, 1)
  {
    next := StageStep(initial, company, state, env, CoverLetterStage, TailoredSlots + {LengthCheckResult}, 1);
    next := StageStep(initial, company, next, env, InterestStage, TailoredSlots + {LengthCheckResult} + {CoverLetter}, 1);
  }

  /** The output node: the saved record lands in its slot. */
  method SaveStep(ghost initial: AgentState, ghost company: Value, state: AgentState, env: Environment)
    returns (next: AgentState)
    requires Get(initial, JobDescription).Text? && company.Text?
    requires Progress(initial, company, state, LetterSlots, 1)
    ensures Progress(initial, company, next, LetterSlots + {OutputFilesSlot}, 1)
    ensures Get(next, OutputFilesSlot).Files?
    ensures Get(next, OutputFilesSlot).files.position == PositionTitle(Get(initial, JobDescription).s)
  {
    assert Get(state, JobDescription) == Get(initial, JobDescription);
    var patch := SaveOutputsNode(state, env);
    StepProgress(initial, company, state, patch, OutputFilesSlot, LetterSlots, 1);
    next := Apply(state, patch);
  }

  /** `resume_agent.invoke(state)`: the ten nodes in chain order, each
      patch merged before the next node runs. */
  method Invoke(initial: AgentState, env: Environment) returns (r: Result<AgentState, AgentError>)
    requires WellTyped(initial)
    ensures r.Failure? <==> !Truthy(Get(initial, JobDescription))
    ensures r.Success? ==> forall slot :: slot in FilledSlots ==> Get(r.value, slot) != Missing
    ensures r.Success? ==> forall slot :: slot !in FilledSlots ==> Get(r.value, slot) == Get(initial, slot)
    ensures r.Success? ==> Get(initial, JobDescription).Text? && Get(r.value, CompanyName) == SettledCompany(initial, env)
    ensures r.Success? ==> Get(r.value, OutputFilesSlot).Files?
    ensures r.Success? ==> Get(r.value, OutputFilesSlot).files.position == PositionTitle(Get(initial, JobDescription).s)
    ensures r.Success? ==> |r.value.messages| == |initial.messages| + 1
    ensures r.Success? ==> r.value.messages[..|initial.messages|] == initial.messages
  {
    var first := GetJobDescriptionNode(initial, env);
    if first.Failure? {
      return Failure(first.error);
    }
    assert SettledCompany(initial, env).Text? by {
      assert CompanyName in initial.slots ==> !initial.slots[CompanyName].Files?;
    }
    var state := Apply(initial, first.value);
    ghost var company := SettledCompany(initial, env);
    ApplyTouchesOnlyPatch(initial, first.value);
    assert Progress(initial, company, state, {CompanyName}, 0) by {
      assert state.messages == initial.messages;
    }
    state := TailorStages(initial, company, state, env);
    state := LengthStep(initial, company, state, env);
    state := LetterStages(initial, company, state, env);
    state := SaveStep(initial, company, state, env);
    FilledSlotsInOrder();
    return Success(state);
  }

  // ---------------------------------------------------------------------
  // The graph

  /** LangGraph's `START` and `END`. */
  const Start: string := "__start__"
  const End: string := "__end__"

  /** The node names. */
  const GetJobDescriptionName: string := "get_job_description"
  const AnalyzeKeywordsName: string := "analyze_keywords"
  const TailorSummaryName: string := "tailor_summary"
  const TailorSkillsName: string := "tailor_skills"
  const TailorExperienceName: string := "tailor_experience"
  const TailorNameDescName: string := "tailor_name_desc"
  const CheckResumeLengthName: string := "check_resume_length"
  const GenerateCoverLetterName: string := "generate_cover_letter"
  const GenerateInterestAnswerName: string := "generate_interest_answer"
  const SaveOutputsName: string := "save_outputs"

  const NodeOrder: seq<string> := [
    GetJobDescriptionName,
    AnalyzeKeywordsName,
    TailorSummaryName,
    TailorSkillsName,
    TailorExperienceName,
    TailorNameDescName,
    CheckResumeLengthName,
    GenerateCoverLetterName,
    GenerateInterestAnswerName,
    SaveOutputsName]

  /** The edges of a path: each element to the next. */
  function Chain(path: seq<string>): (r: seq<(string, string)>)
    ensures |path| > 0 ==> |r| == |path| - 1
    ensures forall i :: 0 <= i < |path| - 1 ==> r[i] == (path[i], path[i + 1])
  {
    if |path| < 2 then [] else [(path[0], path[1])] + Chain(path[1..])
  }

  /** A `StateGraph` being built: its nodes and its edges, in the order they
      were added. */
  class GraphBuilder {
    var nodes: seq<string>
    var edges: seq<(string, string)>

    constructor ()
      ensures nodes == [] && edges == []
    {
      nodes := [];
      edges := [];
    }

    method AddNode(name: string)
      modifies this
      ensures nodes == old(nodes) + [name] && edges == old(edges)
    {
      nodes := nodes + [name];
    }

    method AddEdge(from: string, to: string)
      modifies this
      ensures edges == old(edges) + [(from, to)] && nodes == old(nodes)
    {
      edges := edges + [(from, to)];
    }
  }

  /** The edges `main.py` adds, in order. */
  const AgentEdges: seq<(string, string)> := [
    (Start, GetJobDescriptionName),
    (GetJobDescriptionName, AnalyzeKeywordsName),
    (AnalyzeKeywordsName, TailorSummaryName),
    (TailorSummaryName, TailorSkillsName),
    (TailorSkillsName, TailorExperienceName),
    (TailorExperienceName, TailorNameDescName),
    (TailorNameDescName, CheckResumeLengthName),
    (CheckResumeLengthName, GenerateCoverLetterName),
    (GenerateCoverLetterName, GenerateInterestAnswerName),
    (GenerateInterestAnswerName, SaveOutputsName),
    (SaveOutputsName, End)]

  /** The edges form the chain START, the nodes in order, END. */
  lemma AgentEdgesChain()
    ensures AgentEdges == Chain([Start] + NodeOrder + [End])
  {
    var path := [Start] + NodeOrder + [End];
    assert path == [Start, GetJobDescriptionName, AnalyzeKeywordsName, TailorSummaryName, TailorSkillsName,
                    TailorExperienceName, TailorNameDescName, CheckResumeLengthName, GenerateCoverLetterName,
                    GenerateInterestAnswerName, SaveOutputsName, End];
    var chain := Chain(path);
    assert |chain| == |AgentEdges|;
    assert chain[0] == (path[0], path[1]) == AgentEdges[0];
    assert chain[1] == (path[1], path[2]) == AgentEdges[1];
    assert chain[2] == (path[2], path[3]) == AgentEdges[2];
    assert chain[3] == (path[3], path[4]) == AgentEdges[3];
    assert chain[4] == (path[4], path[5]) == AgentEdges[4];
    assert chain[5] == (path[5], path[6]) == AgentEdges[5];
    assert chain[6] == (path[6], path[7]) == AgentEdges[6];
    assert chain[7] == (path[7], path[8]) == AgentEdges[7];
    assert chain[8] == (path[8], path[9]) == AgentEdges[8];
    assert chain[9] == (path[9], path[10]) == AgentEdges[9];
    assert chain[10] == (path[10], path[11]) == AgentEdges[10];
  }

  /** The `add_node` calls of `main.py`. */
  method AddAgentNodes(g: GraphBuilder)
    modifies g
    ensures g.nodes == old(g.nodes) + NodeOrder && g.edges == old(g.edges)
  {
    g.AddNode(GetJobDescriptionName);
    g.AddNode(AnalyzeKeywordsName);
    g.AddNode(TailorSummaryName);
    g.AddNode(TailorSkillsName);
    g.AddNode(TailorExperienceName);
    g.AddNode(TailorNameDescName);
    g.AddNode(CheckResumeLengthName);
    g.AddNode(GenerateCoverLetterName);
    g.AddNode(GenerateInterestAnswerName);
    g.AddNode(SaveOutputsName);
  }

  /** The `add_edge` calls of `main.py`. */
  method AddAgentEdges(g: GraphBuilder)
    modifies g
    ensures g.edges == old(g.edges) + AgentEdges && g.nodes == old(g.nodes)
  {
    g.AddEdge(Start, GetJobDescriptionName);
    g.AddEdge(GetJobDescriptionName, AnalyzeKeywordsName);
    g.AddEdge(AnalyzeKeywordsName, TailorSummaryName);
    g.AddEdge(TailorSummaryName, TailorSkillsName);
    g.AddEdge(TailorSkillsName, TailorExperienceName);
    g.AddEdge(TailorExperienceName, TailorNameDescName);
    g.AddEdge(TailorNameDescName, CheckResumeLengthName);
    g.AddEdge(CheckResumeLengthName, GenerateCoverLetterName);
    g.AddEdge(GenerateCoverLetterName, GenerateInterestAnswerName);
    g.AddEdge(GenerateInterestAnswerName, SaveOutputsName);
    g.AddEdge(SaveOutputsName, End);
  }

  /** The graph-building block of `main.py`. */
  method BuildAgentGraph() returns (g: GraphBuilder)
    ensures fresh(g)
    ensures g.nodes == NodeOrder
    ensures g.edges == AgentEdges
  {
    g := new GraphBuilder();
    AddAgentNodes(g);
    AddAgentEdges(g);
  }

  /** Where the compiled graph goes after a node: the target of the first
      edge leaving it. */
  function Successor(edges: seq<(string, string)>, node: string): (r: Option<string>)
    ensures r.Some? ==> exists k :: 0 <= k < |edges| && edges[k] == (node, r.value)
  {
    if edges == [] then None
    else if edges[0].0 == node then Some(edges[0].1)
    else
      var r := Successor(edges[1..], node);
      assert r.Some? ==> exists k :: 0 <= k < |edges[1..]| && edges[1..][k] == (node, r.value);
      assert r.Some? ==> exists k :: 0 <= k < |edges| && edges[k] == (node, r.value) by {
        if r.Some? {
          var k :| 0 <= k < |edges[1..]| && edges[1..][k] == (node, r.value);
          assert edges[k + 1] == (node, r.value);
        }
      }
      r
  }

  /** The nodes a run visits from `node`, at most `fuel` steps, ending at
      `END` or at a node without an edge. */
  function Walk(edges: seq<(string, string)>, node: string, fuel: nat): seq<string>
    decreases fuel
  {
    if node == End || fuel == 0 then [node]
    else match Successor(edges, node)
      case None => [node]
      case Some(next) => [node] + Walk(edges, next, fuel - 1)
  }

  /** The first edge leaving a node decides its successor. */
  lemma {:induction false} SuccessorIsFirst(edges: seq<(string, string)>, node: string, k: nat)
    requires k < |edges| && edges[k].0 == node
    requires forall j :: 0 <= j < k ==> edges[j].0 != node
    ensures Successor(edges, node) == Some(edges[k].1)
    decreases k
  {
    if k > 0 {
      SuccessorIsFirst(edges[1..], node, k - 1);
    }
  }

  /** A run over the edges of a path without repeats that stops at `END`
      follows the path to its end. */
  lemma {:induction false} WalkFollowsChain(path: seq<string>, i: nat)
    requires i < |path| && path[|path| - 1] == End
    requires forall a, b :: 0 <= a < b < |path| ==> path[a] != path[b]
    ensures Walk(Chain(path), path[i], |path| - 1 - i) == path[i..]
    decreases |path| - i
  {
    var edges := Chain(path);
    if i < |path| - 1 {
      assert path[i] != End;
      assert |edges| == |path| - 1;
      assert edges[i] == (path[i], path[i + 1]);
      forall j | 0 <= j < i
        ensures edges[j].0 != path[i]
      {
        assert edges[j] == (path[j], path[j + 1]);
      }
      SuccessorIsFirst(edges, path[i], i);
      WalkFollowsChain(path, i + 1);
      assert path[i..] == [path[i]] + path[i + 1..];
    }
  }

  /** The names of the agent's path are all distinct. */
  lemma AgentPathDistinct()
    ensures var path := [Start] + NodeOrder + [End];
      forall a, b :: 0 <= a < b < |path| ==> path[a] != path[b]
  {
    var path := [Start] + NodeOrder + [End];
    forall a, b | 0 <= a < b < |path|
      ensures path[a] != path[b]
    {
      assert |path[a]| != |path[b]| || path[a][0] != path[b][0];
    }
  }

  /** The compiled graph runs START, the ten nodes in order, and END. */
  lemma AgentGraphOrder(g: GraphBuilder)
    requires g.edges == AgentEdges
    ensures Walk(g.edges, Start, |NodeOrder| + 1) == [Start] + NodeOrder + [End]
  {
    var path := [Start] + NodeOrder + [End];
    AgentEdgesChain();
    AgentPathDistinct();
    WalkFollowsChain(path, 0);
  }
}

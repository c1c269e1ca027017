/** PromptManager: the system prompt, the prompt that asks for the next missing
    profile field, the tech-stack analysis and technical-questions templates, and
    the context prompt built from the recent conversation. */
module Prompts {
  import opened Types
  import opened Strings
  import opened Sequences
  import opened Catalogue
  import opened PromptTexts

  // ---------------------------------------------------------------------------
  // get_information_gathering_prompt

  const ALL_COLLECTED := "Great! I have all your basic information. "
      + "Now let's move on to some technical "
      + "questions."
  const THANKS_PREFIX := "Thanks for the information so far. "
  const UNKNOWN_FIELD_QUESTION := "Could you provide more information?"

  /** A value of the candidate-information dictionary: a string, a list of
      strings (the tech stack), or None (a field that a load left empty). */
  datatype FieldValue = Text(text: string) | Items(items: seq<string>) | Null

  /** Python truthiness of a field value. */
  predicate Truthy(v: FieldValue) {
    match v
    case Text(t) => t != []
    case Items(xs) => xs != []
    case Null => false
  }

  /** `field_questions.get(field, "Could you provide more information?")` */
  function QuestionFor(field: string): string
  {
    if field == "full_name" then "Could you please tell me your full name?"
    else if field == "email" then "What's your email address?"
    else if field == "phone" then "Could you provide your phone number?"
    else if field == "years_experience" then "How many years of professional experience "
        + "do you have in technology?"
    else if field == "desired_positions" then "What type of positions are you looking "
        + "for? (e.g., Software Engineer, Data "
        + "Scientist, etc.)"
    else if field == "current_location" then "What's your current location or "
        + "preferred work location?"
    else if field == "tech_stack" then "Could you tell me about your technical "
        + "expertise? Please list the main "
        + "programming languages, frameworks, "
        + "databases, and tools you work with."
    else UNKNOWN_FIELD_QUESTION
  }

  /** Some entry other than `tech_stack` holds a truthy value. */
  predicate HasCollected(info: seq<(string, FieldValue)>) {
    exists i :: 0 <= i < |info| && Truthy(info[i].1) && info[i].0 != "tech_stack"
  }

  /** The fields the gathering loop notes as already collected, in dictionary
      order. (The loop stores a "Title: value" label per field; only whether
      there is any is used afterwards.) */
  function CollectedFields(info: seq<(string, FieldValue)>): (r: seq<string>)
    ensures |r| <= |info|
  {
    if info == [] then []
    else
      var rest := CollectedFields(info[..|info| - 1]);
      var (field, value) := info[|info| - 1];
      if Truthy(value) && field != "tech_stack" then rest + [field] else rest
  }

  lemma {:induction false} CollectedFieldsNonEmpty(info: seq<(string, FieldValue)>)
    ensures CollectedFields(info) != [] <==> HasCollected(info)
  {
    if info != [] {
      var init := info[..|info| - 1];
      CollectedFieldsNonEmpty(init);
      if HasCollected(init) {
        var i :| 0 <= i < |init| && Truthy(init[i].1) && init[i].0 != "tech_stack";
        assert info[i] == init[i];
      }
      if HasCollected(info) {
        var i :| 0 <= i < |info| && Truthy(info[i].1) && info[i].0 != "tech_stack";
        if i < |init| {
          assert init[i] == info[i];
        }
      }
    }
  }

  /** `get_information_gathering_prompt`: the fixed "all collected" message when
      nothing is missing; otherwise the question for the first missing field,
      preceded by a thank-you when some other field is already filled in. */
  method InformationGatheringPrompt(missingFields: seq<string>, candidateInfo: seq<(string, FieldValue)>)
    returns (prompt: string)
    ensures missingFields == [] ==> prompt == ALL_COLLECTED
    ensures missingFields != [] ==>
      prompt == (if HasCollected(candidateInfo) then THANKS_PREFIX else "") + QuestionFor(missingFields[0])
  {
    if missingFields == [] {
      return ALL_COLLECTED;
    }
    var question := QuestionFor(missingFields[0]);
    var collected: seq<string> := [];
    for i := 0 to |candidateInfo|
      invariant collected == CollectedFields(candidateInfo[..i])
    {
      assert candidateInfo[..i + 1][..i] == candidateInfo[..i];
      var (field, value) := candidateInfo[i];
      if Truthy(value) && field != "tech_stack" {
        collected := collected + [field];
      }
    }
    assert candidateInfo[..|candidateInfo|] == candidateInfo;
    CollectedFieldsNonEmpty(candidateInfo);
    var context := "";
    if collected != [] {
      context := THANKS_PREFIX;
    }
    prompt := context + question;
  }

  /** The prompt ends with the question for the first missing field; it starts
      with the thank-you when some non-tech-stack field is truthy, and is the
      bare question otherwise. */
  lemma GatheringPromptShape(missingFields: seq<string>, candidateInfo: seq<(string, FieldValue)>, prompt: string)
    requires missingFields != []
    requires prompt == (if HasCollected(candidateInfo) then THANKS_PREFIX else "") + QuestionFor(missingFields[0])
    ensures EndsWith(prompt, QuestionFor(missingFields[0]))
    ensures HasCollected(candidateInfo) ==> StartsWith(prompt, THANKS_PREFIX)
    ensures !HasCollected(candidateInfo) ==> prompt == QuestionFor(missingFields[0])
  {
  }

  // ---------------------------------------------------------------------------
  // get_tech_stack_analysis_prompt

  /** The text `get_tech_stack_analysis_prompt` returns for `techInput`. */
  function TechStackAnalysis(techInput: string): string {
    ANALYSIS_HEAD + techInput + ANALYSIS_MID + Join(AllTechs(), ", ") + ANALYSIS_TAIL
  }

  /** `get_tech_stack_analysis_prompt`: flattens the catalogue with the
      `extend` loop, then fills in the template. */
  method TechStackAnalysisPrompt(techInput: string) returns (prompt: string)
    ensures prompt == TechStackAnalysis(techInput)
  {
    var allTechs := CollectAllTechs();
    prompt := ANALYSIS_HEAD + techInput + ANALYSIS_MID + Join(allTechs, ", ") + ANALYSIS_TAIL;
  }

  /** The analysis prompt quotes the user's text and the whole catalogue
      joined with ", " in catalogue order (so Docker and Kubernetes appear
      twice), and with it every catalogue entry. */
  lemma AnalysisListsCatalogue(techInput: string, k: nat)
    requires k < |AllTechs()|
    ensures IsSubstring(techInput, TechStackAnalysis(techInput))
    ensures IsSubstring(Join(AllTechs(), ", "), TechStackAnalysis(techInput))
    ensures IsSubstring(AllTechs()[k], TechStackAnalysis(techInput))
  {
    var joined := Join(AllTechs(), ", ");
    var before := ANALYSIS_HEAD + techInput + ANALYSIS_MID;
    SubstringOfConcat(before, joined, ANALYSIS_TAIL);
    SubstringOfConcat(ANALYSIS_HEAD, techInput, ANALYSIS_MID);
    SubstringInPrefix(techInput, before, joined);
    SubstringInPrefix(techInput, before + joined, ANALYSIS_TAIL);
    JoinContainsItem(AllTechs(), ", ", k);
    SubstringInSuffix(AllTechs()[k], before, joined);
    SubstringInPrefix(AllTechs()[k], before + joined, ANALYSIS_TAIL);
  }

  // ---------------------------------------------------------------------------
  // get_technical_questions_prompt

  /** `get_technical_questions_prompt`: the experience level and the
      comma-joined stack are spliced into a fixed template. */
  function TechnicalQuestionsPrompt(techStack: seq<string>, experienceLevel: string): string
  {
    QUESTIONS_HEAD + experienceLevel + QUESTIONS_MID + Join(techStack, ", ") + QUESTIONS_TAIL
  }

  /** Every technology of the stack is named in the questions prompt. */
  lemma QuestionsPromptNamesStack(techStack: seq<string>, experienceLevel: string, k: nat)
    requires k < |techStack|
    ensures IsSubstring(techStack[k], TechnicalQuestionsPrompt(techStack, experienceLevel))
  {
    var pre := QUESTIONS_HEAD + experienceLevel + QUESTIONS_MID;
    var joined := Join(techStack, ", ");
    JoinContainsItem(techStack, ", ", k);
    SubstringInSuffix(techStack[k], pre, joined);
    SubstringInPrefix(techStack[k], pre + joined, QUESTIONS_TAIL);
  }

  // ---------------------------------------------------------------------------
  // get_conversation_context_prompt

  const CONTEXT_HEADER := "RECENT CONVERSATION:\n"
  const CONTEXT_FOOTER := "\n\nRespond naturally and conversationally "
      + "based on the context above."
  const DEFAULT_INSTRUCTION := "Continue the conversation naturally."

  /** The number of recent messages the context prompt shows. */
  const CONTEXT_WINDOW := 6

  /** Stages that have an instruction of their own. */
  predicate KnownStage(stage: string) {
    stage == "greeting" || stage == "personal_info" || stage == "experience"
    || stage == "tech_stack" || stage == "technical_questions" || stage == "complete"
  }

  /** `stage_instructions.get(stage, 'Continue the conversation naturally.')` */
  function StageInstruction(stage: string): (r: string)
    ensures !KnownStage(stage) ==> r == DEFAULT_INSTRUCTION
  {
    if stage == "greeting" then "You are in the greeting stage. Welcome "
        + "the candidate and start gathering "
        + "basic information."
    else if stage == "personal_info" then "You are gathering personal information. "
        + "Ask for missing details one at a time."
    else if stage == "experience" then "You are learning about their experience "
        + "and desired positions."
    else if stage == "tech_stack" then "You are identifying their technical "
        + "expertise and skills."
    else if stage == "technical_questions" then "You are asking technical questions "
        + "based on their declared expertise."
    else if stage == "complete" then "The screening is complete. Provide "
        + "next steps and conclude professionally."
    else DEFAULT_INSTRUCTION
  }

  /** "Candidate" for the user's messages, "Assistant" for every other role. */
  function RoleLabel(role: string): string {
    if role == "user" then "Candidate" else "Assistant"
  }

  /** One transcript line: `f"{role}: {msg['content']}\n"`. */
  function Line(m: Message): string {
    RoleLabel(m.role) + ": " + m.content + "\n"
  }

  /** The lines of `ms`, in order. */
  function Transcript(ms: seq<Message>): string {
    if ms == [] then "" else Transcript(ms[..|ms| - 1]) + Line(ms[|ms| - 1])
  }

  lemma TranscriptSnoc(ms: seq<Message>, m: Message)
    ensures Transcript(ms + [m]) == Transcript(ms) + Line(m)
  {
    assert (ms + [m])[..|ms|] == ms;
  }

  /** The transcript of two runs of messages is the one transcript followed by
      the other: lines keep the order of their messages. */
  lemma {:induction false} TranscriptAppend(a: seq<Message>, b: seq<Message>)
    ensures Transcript(a + b) == Transcript(a) + Transcript(b)
    decreases |b|
  {
    if b == [] {
      assert a + b == a;
    } else {
      var init, last := b[..|b| - 1], b[|b| - 1];
      assert b == init + [last];
      assert a + b == (a + init) + [last];
      TranscriptSnoc(a + init, last);
      TranscriptSnoc(init, last);
      TranscriptAppend(a, init);
      AppendAssoc(Transcript(a), Transcript(init), Line(last));
    }
  }

  /** Every message of `ms` has its line in the transcript. */
  lemma {:induction false} TranscriptHasLine(ms: seq<Message>, k: nat)
    requires k < |ms|
    ensures IsSubstring(Line(ms[k]), Transcript(ms))
  {
    assert ms == ms[..k] + [ms[k]] + ms[k + 1..];
    TranscriptAppend(ms[..k] + [ms[k]], ms[k + 1..]);
    TranscriptAppend(ms[..k], [ms[k]]);
    assert Transcript([ms[k]]) == Line(ms[k]) by {
      assert [ms[k]][..0] == [];
    }
    SubstringOfConcat(Transcript(ms[..k]), Line(ms[k]), Transcript(ms[k + 1..]));
  }

  /** The lines after the transcript: the stage, its instruction and the
      closing request. */
  function StageLines(stage: string): string {
    "\n" + ("CURRENT STAGE: " + stage) + ("\n" + ("INSTRUCTION: " + StageInstruction(stage)) + CONTEXT_FOOTER)
  }

  /** The text `get_conversation_context_prompt` returns. */
  function ContextPrompt(history: seq<Message>, stage: string): string {
    CONTEXT_HEADER + Transcript(LastN(history, CONTEXT_WINDOW)) + StageLines(stage)
  }

  /** `get_conversation_context_prompt`: the last six messages, one line each,
      then the stage and its instruction. */
  method ConversationContextPrompt(history: seq<Message>, stage: string) returns (prompt: string)
    ensures prompt == ContextPrompt(history, stage)
  {
    var recent := if |history| > CONTEXT_WINDOW then history[|history| - CONTEXT_WINDOW..] else history;
    assert recent == LastN(history, CONTEXT_WINDOW);
    var context := CONTEXT_HEADER;
    assert recent[..0] == [];
    for i := 0 to |recent|
      invariant context == CONTEXT_HEADER + Transcript(recent[..i])
    {
      assert recent[..i + 1] == recent[..i] + [recent[i]];
      TranscriptSnoc(recent[..i], recent[i]);
      var line := Line(recent[i]);
      AppendAssoc(CONTEXT_HEADER, Transcript(recent[..i]), line);
      context := context + line;
    }
    assert recent[..|recent|] == recent;
    prompt := context + StageLines(stage);
  }

  /** The context prompt always names the current stage, and an unknown stage
      gets the default instruction. */
  lemma ContextPromptStage(history: seq<Message>, stage: string)
    ensures IsSubstring("CURRENT STAGE: " + stage, ContextPrompt(history, stage))
    ensures !KnownStage(stage) ==>
      IsSubstring("INSTRUCTION: " + DEFAULT_INSTRUCTION, ContextPrompt(history, stage))
  {
    var context := CONTEXT_HEADER + Transcript(LastN(history, CONTEXT_WINDOW));
    var stageLine := "CURRENT STAGE: " + stage;
    var instructionLine := "INSTRUCTION: " + StageInstruction(stage);
    var rest := "\n" + instructionLine + CONTEXT_FOOTER;
    SubstringOfConcat("\n", stageLine, rest);
    SubstringInSuffix(stageLine, context, StageLines(stage));
    SubstringOfConcat("\n", instructionLine, CONTEXT_FOOTER);
    SubstringInSuffix(instructionLine, "\n" + stageLine, rest);
    SubstringInSuffix(instructionLine, context, StageLines(stage));
  }

  /** The transcript in the prompt is that of exactly the last six messages
      (all of them when there are fewer), in their original order, so the line
      of each of those messages is in the prompt. */
  lemma ContextPromptWindow(history: seq<Message>, stage: string, k: nat)
    requires k < |history|
    ensures ContextPrompt(history, stage) ==
      CONTEXT_HEADER + Transcript(history[|history| - Min(|history|, CONTEXT_WINDOW)..]) + StageLines(stage)
    ensures |history| - k <= CONTEXT_WINDOW ==> IsSubstring(Line(history[k]), ContextPrompt(history, stage))
  {
    var w := LastN(history, CONTEXT_WINDOW);
    assert w == history[|history| - Min(|history|, CONTEXT_WINDOW)..];
    if |history| - k <= CONTEXT_WINDOW {
      var j := k - (|history| - |w|);
      assert w[j] == history[k];
      TranscriptHasLine(w, j);
      SubstringInSuffix(Line(history[k]), CONTEXT_HEADER, Transcript(w));
      SubstringInPrefix(Line(history[k]), CONTEXT_HEADER + Transcript(w), StageLines(stage));
    }
  }

  /** The transcript line of a message starts with "Candidate: " exactly when
      the message is the user's. */
  lemma LineLabel(m: Message)
    ensures StartsWith(Line(m), "Candidate: ") <==> m.role == "user"
  {
    if m.role != "user" {
      assert Line(m)[0] == 'A';
    }
  }
}

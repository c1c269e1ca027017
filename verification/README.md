# TalentScout hiring assistant — a Dafny model

TalentScout's hiring assistant is a chatbot that screens technology candidates.
The conversation goes through five stages, in order:

1. greeting (the candidate's name);
2. personal details (e-mail, phone, years of experience, desired positions, location), each checked by an input validator where one exists;
3. tech stack (technologies recognised against a fixed catalogue);
4. technical questions (chosen from the stack);
5. completion, after which every message is answered by a language model, or by canned replies when no model is configured.

A data handler stores the candidate's record encrypted, exports it, erases it, sweeps expired records, keeps a capped audit log and reports on what it holds.

This project models that core:

- `hiring.dfy` (module `Hiring`):
  - the `CandidateInfo` record and the `HiringAssistant` class;
  - the stage machine (`Step`, `Next`, `Run` over a `Screening` state) and what each stage handler says (`Said`, spelled out word for word by `Wording`);
  - the question bank;
  - the ending-keyword test.
- `privacy_store.dfy` (module `PrivacyStore`): the `DataHandler` class. Its encrypted directory and export directory are maps from file name to contents, and its audit log is a sequence.
- `validators.dfy`: the e-mail, phone and experience validators. Each regular expression and `float()` is written out as a predicate or a parser.
- `llm_client.dfy`: catalogue-based tech-stack extraction, the canned mock and fallback replies, and `generate_response` with the model call as a parameter.
- `prompts.dfy` and `prompt_texts.dfy`: the prompt templates.
- `catalogue.dfy`: the technology catalogue and the retention default of the configuration.
- `strings.dfy`, `sequences.dfy` and `types.dfy`: the Python string and list idioms the code relies on.

The clock is a parameter: an integer count of microseconds, one reading per operation. Fernet, SHA-256 and JSON are a `Primitives` record of functions. The properties the store relies on are stated once as `WellBehaved` and taken as a hypothesis where needed: decryption inverts a successful encryption, whose token is never empty; a text the cipher cannot encrypt is not a valid token either; digests have 64 characters; JSON decoding inverts encoding.

The model's main results:

- Every state reachable by messages keeps the assistant's invariant (`Consistent`):
  - stages only move forward, one at a time;
  - the details are filled in asking order;
  - the question list is the bank for the stored stack;
  - the question index stays in range.
- Each stage's reply announces exactly the step taken.
- `GenerateResponse` records the exchange and keeps the history alternating.
- Saving then loading a record gives the candidate's data back.
- The retention sweep removes exactly the expired candidate files and logs each removal once.

## Model

| member | source | states |
|---|---|---|
| Hiring.CandidateInfo.constructor | talentscout-chatbot/app.py:19-32 | a new record has every detail empty and an empty tech stack |
| Hiring.HiringAssistant.constructor | talentscout-chatbot/app.py:42-52 | a new assistant is in the greeting stage with no details, no questions, index 0, an empty history and `conversation_ended` false, and it satisfies the class invariant |
| Hiring.HiringAssistant.GenerateResponse | talentscout-chatbot/app.py:58-70 | the user message and then the reply are appended to the history, which keeps alternating user/assistant; the state moves by `Next`; the reply is the wording of what the current stage's handler says; the class invariant is kept |
| Hiring.HiringAssistant.ProcessUserInput | talentscout-chatbot/app.py:72-84 | dispatches on the stage: the new state is `Next` of the old one and the reply is the one `Reply` assigns to that stage, the language model's answer once complete |
| Hiring.HiringAssistant.HandleGreeting | talentscout-chatbot/app.py:86-96 | an accepted stripped name is stored and moves the stage to personal details; any other input changes nothing and asks for the name again |
| Hiring.HiringAssistant.HandlePersonalInfo | talentscout-chatbot/app.py:98-154 | the first missing detail is filled with the stripped input when its validator accepts the raw input; answering the location, or having nothing missing, moves to the tech stack |
| Hiring.HiringAssistant.ListMissing | talentscout-chatbot/app.py:101-112 | the missing-field list is exactly the empty details, in asking order |
| Hiring.HiringAssistant.TakeAnswer | talentscout-chatbot/app.py:119-152 | one detail's branch: the record is changed only in that detail and only when the answer is accepted; the stage moves only after the location; the reply is the next request or the validator's complaint |
| Hiring.HiringAssistant.HandleTechStack | talentscout-chatbot/app.py:156-172 | with recognised technologies, the stack is stored, its question bank is generated and the questions stage begins; with none, nothing changes |
| Hiring.HiringAssistant.GenerateTechnicalQuestions | talentscout-chatbot/app.py:206-243 | the question list becomes the bank for the stored stack |
| Hiring.HiringAssistant.HandleTechnicalQuestions | talentscout-chatbot/app.py:174-204 | the answer closes the open question; the next question is asked, or after the last one the screening completes |
| Hiring.HiringAssistant.ContextualResponse | talentscout-chatbot/app.py:245-260 | the model is sent the system prompt, the context prompt and the last four history messages |
| Hiring.HiringAssistant.SaveSessionData | talentscout-chatbot/app.py:267-273 | the current record and history are written under the session's file name and a SAVE entry is logged |
| Hiring.HiringAssistant.ExportSessionData | talentscout-chatbot/app.py:275-277 | a JSON export is written and its name returned exactly when the session's record loads; otherwise nothing changes |
| Hiring.HiringAssistant.DeleteSessionData | talentscout-chatbot/app.py:279-281 | erasure with reason `user_request`: true exactly when the record existed, which is then removed along with the session's exports |
| Hiring.Fill | talentscout-chatbot/app.py:124-150 | storing an answer sets exactly that detail and leaves every other one unchanged |
| Hiring.MissingFields | talentscout-chatbot/app.py:101-112 | a detail is listed exactly when it is empty, in asking order |
| Hiring.FillFirstMissing | talentscout-chatbot/app.py:101-152 | filling the first missing detail keeps the details filled in asking order |
| Hiring.AcceptedNameShape | talentscout-chatbot/app.py:90-92 | an accepted name has no surrounding whitespace, at least three characters and no digit |
| Hiring.TriggeredSpec | talentscout-chatbot/app.py:223-237 | the category questions asked are those of exactly the categories that fire, in category order |
| Hiring.QuestionBankShape | talentscout-chatbot/app.py:209-243 | an empty stack gets the three default questions; otherwise 1 to 5 questions, with the learning question last, so the cut to five never removes one |
| Hiring.QuestionBankCategories | talentscout-chatbot/app.py:224-237 | for a non-empty stack, a category's question is asked if and only if the stack names one of the category's technologies |
| Hiring.QuestionBankNonEmpty | talentscout-chatbot/app.py:209-243 | every stack gets at least one question |
| Hiring.EndingKeywordAnywhere | talentscout-chatbot/app.py:262-265 | any text containing an ending keyword, whatever surrounds it, ends the conversation |
| Hiring.FriendEndsConversation | talentscout-chatbot/app.py:262-265 | "Friend" counts as an ending message because it contains "end" |
| Hiring.EndingIgnoresCase | talentscout-chatbot/app.py:262-265 | the ending test gives the same answer for an input and its lower-cased form |
| Hiring.WelcomeQuotesName | talentscout-chatbot/app.py:94 | the welcome contains the stored name |
| Hiring.ComplaintEndsWithMessage | talentscout-chatbot/app.py:127-143 | a rejected detail's reply ends with the validator's message |
| Hiring.StackNotedNamesEach | talentscout-chatbot/app.py:169-170 | the reply to a recognised stack names every technology found |
| Hiring.NextQuestionEndsWithQuestion | talentscout-chatbot/app.py:183 | the reply to an answer ends with the text of the next question |
| Hiring.ContextMessages | talentscout-chatbot/app.py:249-258 | the system prompt and then the context prompt, both as system messages, followed by the last `min(n, 4)` history messages unchanged |
| Hiring.VerdictIsAccepts | talentscout-chatbot/app.py:122-138 | the stage machine's reading of a message agrees with the handlers' own validator calls |
| Hiring.ReadKnown | talentscout-chatbot/llm/llm_client.py:50-77 | a message yields catalogue technologies only, each once |
| Hiring.StartConsistent | talentscout-chatbot/app.py:42-52 | the initial state satisfies the invariant |
| Hiring.GreetingConsistent | talentscout-chatbot/app.py:86-96 | the greeting step keeps the invariant |
| Hiring.PersonalInfoConsistent | talentscout-chatbot/app.py:98-154 | the personal-details step keeps the invariant |
| Hiring.TechStackConsistent | talentscout-chatbot/app.py:156-172 | the tech-stack step keeps the invariant |
| Hiring.QuestionsConsistent | talentscout-chatbot/app.py:174-204 | the questions step keeps the invariant |
| Hiring.StepConsistent | talentscout-chatbot/app.py:72-84 | every step from an invariant state, for any reading of catalogue technologies, keeps the invariant |
| Hiring.NextConsistent | talentscout-chatbot/app.py:72-84 | every candidate message keeps the invariant |
| Hiring.RunConsistent | talentscout-chatbot/app.py:58-84 | every sequence of candidate messages keeps the invariant |
| Hiring.StepAdvances | talentscout-chatbot/app.py:72-204 | a message moves the stage forward by at most one, never back |
| Hiring.RunAdvances | talentscout-chatbot/app.py:58-204 | after n messages the stage has advanced by between 0 and n |
| Hiring.StepStageIff | talentscout-chatbot/app.py:86-204 | each stage advances exactly when its condition holds (in both directions): an accepted name; the location answered or nothing missing; some technology recognised; the last question answered. A complete screening never changes. |
| Hiring.StepKeepsAnswers | talentscout-chatbot/app.py:92-163 | a stored name, detail or tech stack is never overwritten |
| Hiring.StepIndex | talentscout-chatbot/app.py:156-186 | only the questions stage moves the index, and only the tech-stack stage sets the questions |
| Hiring.GreetingReplyAgrees | talentscout-chatbot/app.py:86-96 | the welcome is said exactly when the stage moves on, and it names the stored name; otherwise the name is asked again and nothing changes |
| Hiring.PersonalInfoReplyAgrees | talentscout-chatbot/app.py:98-152 | the tech stack is requested exactly when that stage is reached; the request following a detail is made only once that detail is stored; a complaint changes nothing |
| Hiring.TechStackReplyAgrees | talentscout-chatbot/app.py:156-172 | the stack is praised exactly when it is stored, and the reply carries the stored stack and questions; otherwise nothing changes |
| Hiring.AnswerReplyAgrees | talentscout-chatbot/app.py:174-202 | the closing message is sent exactly when the screening completes; otherwise the question asked is the one now open |
| Hiring.AlternatingExtend | talentscout-chatbot/app.py:62-68 | appending a user message then an assistant message keeps the history alternating |
| PrivacyStore.DecryptEncrypt | talentscout-chatbot/utils/data_handler.py:40-57 | with well-behaved primitives, decryption undoes encryption on both branches of the fail-open code, and a non-empty text never encrypts to an empty one |
| PrivacyStore.HashLengths | talentscout-chatbot/utils/data_handler.py:59-65 | the e-mail hash is the first 16 and the phone hash the first 12 hex characters of the SHA-256 digest |
| PrivacyStore.BuildRecord | talentscout-chatbot/utils/data_handler.py:71-112 | the status is complete, and the history is stored, exactly when a history is given; the hashes are present exactly when e-mail or phone are |
| PrivacyStore.SaveLoadRoundTrip | talentscout-chatbot/utils/data_handler.py:67-166 | loading a saved record gives back the session, the time, each non-empty personal detail (empty ones as None), the plain fields, the hashes and the history when it was non-empty |
| PrivacyStore.UndatedStillLoads | talentscout-chatbot/utils/data_handler.py:135-166 | a record without a readable timestamp loads exactly when the same record with a timestamp would, to the same data without the timestamp, and the sweep never removes it |
| PrivacyStore.MakeBundle | talentscout-chatbot/utils/data_handler.py:180-198 | the export counts the messages of the loaded history, 0 without one |
| PrivacyStore.ExportNameShape | talentscout-chatbot/utils/data_handler.py:201 | an export name starts with `export_<id>_` and ends in `.json` |
| PrivacyStore.SameSecondSameName | talentscout-chatbot/utils/data_handler.py:201 | two exports of a session made within the same second get the same name |
| PrivacyStore.ExportPrefixOverlap | talentscout-chatbot/utils/data_handler.py:226-229 | the erasure prefix of session `a` also matches the exports of session `a_b` |
| PrivacyStore.Cap | talentscout-chatbot/utils/data_handler.py:311-313 | the log keeps exactly its last `min(n, 1000)` entries: the most recent ones, in order, and all of them when it is short enough |
| PrivacyStore.AppendToLog | talentscout-chatbot/utils/data_handler.py:309-313 | after an append the newest entry is last, preceded by the tail of the old log |
| PrivacyStore.CapAppend | talentscout-chatbot/utils/data_handler.py:309-313 | capping before or after an append gives the same log |
| PrivacyStore.CapAppendAll | talentscout-chatbot/utils/data_handler.py:309-313 | appending entries one at a time with capping equals appending them all and capping once |
| PrivacyStore.SweepStep | talentscout-chatbot/utils/data_handler.py:247-268 | visiting one file removes it exactly when it is an expired candidate record |
| PrivacyStore.SweptOrder | talentscout-chatbot/utils/data_handler.py:247-268 | the removal order lists every expired name once |
| PrivacyStore.SweepDone | talentscout-chatbot/utils/data_handler.py:247-268 | before the sweep nothing is removed; after it, exactly the expired candidate records are |
| PrivacyStore.AutoDeleteEntriesSnoc | talentscout-chatbot/utils/data_handler.py:261-264 | one AUTO_DELETE entry per removed record, in removal order |
| PrivacyStore.SweepLogAdvance | talentscout-chatbot/utils/data_handler.py:261-264 | logging one more removal extends the sweep's log by its entry |
| PrivacyStore.Minimum | talentscout-chatbot/utils/data_handler.py:360 | `min` of a non-empty list is an element no larger than any other |
| PrivacyStore.Maximum | talentscout-chatbot/utils/data_handler.py:361 | `max` of a non-empty list is an element no smaller than any other |
| PrivacyStore.DataHandler.constructor | talentscout-chatbot/utils/data_handler.py:16-22 | the handler holds the given primitives, directories and log |
| PrivacyStore.DataHandler.LogActivity | talentscout-chatbot/utils/data_handler.py:290-319 | the entry is appended and the log capped to its last 1000 entries |
| PrivacyStore.DataHandler.Save | talentscout-chatbot/utils/data_handler.py:67-133 | the record is written under `candidate_<id>.json`, replacing any earlier one, and a SAVE entry records name, contact and stack count |
| PrivacyStore.DataHandler.Load | talentscout-chatbot/utils/data_handler.py:135-170 | returns the decoded record, whether or not it carries a readable timestamp, or None for a missing file, a file that is not JSON or a transcript that does not decode; LOAD is logged only on success |
| PrivacyStore.DataHandler.Export | talentscout-chatbot/utils/data_handler.py:172-211 | on a loadable record, writes the bundle under the time-stamped name, logs LOAD then EXPORT and returns the name; otherwise None and no change |
| PrivacyStore.DataHandler.Delete | talentscout-chatbot/utils/data_handler.py:213-237 | true exactly when the record exists; then DELETE is logged, the record is removed and so is every export with the session's prefix; otherwise nothing changes |
| PrivacyStore.DataHandler.RemoveExportsStartingWith | talentscout-chatbot/utils/data_handler.py:226-229 | removes exactly the exports whose names start with the pattern |
| PrivacyStore.DataHandler.CleanupOldData | talentscout-chatbot/utils/data_handler.py:239-288 | removes exactly the expired candidate records and the exports older than the cutoff, and counts the records removed. One AUTO_DELETE entry is logged per removal. |
| PrivacyStore.DataHandler.RemoveExpiredRecords | talentscout-chatbot/utils/data_handler.py:245-271 | the record sweep loop: the survivors are the unexpired files; the count equals the number of expired names, each removed once |
| PrivacyStore.DataHandler.SweepRecord | talentscout-chatbot/utils/data_handler.py:248-268 | one iteration: removes and logs the file exactly when it is expired |
| PrivacyStore.DataHandler.RemoveExpiredExports | talentscout-chatbot/utils/data_handler.py:274-282 | removes exactly the `export_` files modified before the cutoff |
| PrivacyStore.DataHandler.GetPrivacyReport | talentscout-chatbot/utils/data_handler.py:321-370 | counts the `candidate_` files; gives the oldest and newest record dates exactly when some record has a readable timestamp, bounding all of them; returns the last 10 log entries |
| Validators.ShapeOkIff | talentscout-chatbot/utils/validators.py:10 | the executable e-mail check agrees with the regular expression's shape in both directions |
| Validators.ValidateEmailIff | talentscout-chatbot/utils/validators.py:8-13 | accepts if and only if the whole string matches the e-mail pattern (a trailing newline allowed, as with `re.match` and `$`); the message follows the verdict |
| Validators.AcceptedEmailHasOneAt | talentscout-chatbot/utils/validators.py:8-13 | an accepted e-mail contains exactly one `@` |
| Validators.CleanPhone | talentscout-chatbot/utils/validators.py:19 | removes exactly the separator characters (whitespace, `-`, `$`, `.`): the result is the subsequence of the input holding every other character, each as often as in the input |
| Validators.CleanPhoneConcat | talentscout-chatbot/utils/validators.py:19 | cleaning distributes over concatenation |
| Validators.ValidatePhone | talentscout-chatbot/utils/validators.py:16-24 | accepts exactly when the cleaned text is an optional `+`, a digit 1–9 and 9 to 14 more digits; the message follows the verdict |
| Validators.PhoneAccepted | talentscout-chatbot/utils/validators.py:16-24 | separators around an optional `+` and 10 to 15 digits, the first not 0, are accepted |
| Validators.CleanPhoneAround | talentscout-chatbot/utils/validators.py:19 | separators before and after a text are removed and the text is cleaned on its own |
| Validators.CleanPhoneOfPlain | talentscout-chatbot/utils/validators.py:19 | text without separators is left unchanged |
| Validators.AcceptedPhoneCharacters | talentscout-chatbot/utils/validators.py:16-24 | an accepted phone has only separators, digits and `+`, and 10 to 16 characters once cleaned |
| Validators.PhoneWithParenthesisRejected | talentscout-chatbot/utils/validators.py:19-24 | parentheses are not separators, so a number written with them is rejected |
| Validators.PhoneLeadingZeroRejected | talentscout-chatbot/utils/validators.py:22 | a number whose first digit is 0 is rejected |
| Validators.ValidateExperience | talentscout-chatbot/utils/validators.py:27-35 | accepts exactly what the model of `float()` parses, with exact arithmetic, to a value in [0, 50], with the range message for other numbers and the not-a-number message for unparseable text (see Left out for the rounding difference) |
| Validators.ExtractTechStack | talentscout-chatbot/utils/validators.py:38-47 | keeps the given technologies in order, and each exactly as often as it is listed when its lower-cased name occurs in the lower-cased text, never otherwise |
| LlmClient.Variations | talentscout-chatbot/llm/llm_client.py:64-69 | four spellings: the lower-cased name, and it with every `.`, every space or every `-` removed; none longer than the name |
| LlmClient.CollectMembers | talentscout-chatbot/llm/llm_client.py:62-75 | the loop keeps exactly the visited technologies that are mentioned |
| LlmClient.CollectNoDuplicates | talentscout-chatbot/llm/llm_client.py:73-74 | the loop adds no technology twice |
| LlmClient.CollectOrder | talentscout-chatbot/llm/llm_client.py:62-75 | the found technologies keep the order of their first appearance in the visited list |
| LlmClient.ExtractIff | talentscout-chatbot/llm/llm_client.py:50-77 | a technology is reported if and only if it is in the catalogue and some spelling of it occurs in the lower-cased input |
| LlmClient.ExtractNoDuplicates | talentscout-chatbot/llm/llm_client.py:73-74 | Docker and Kubernetes, listed twice in the catalogue, are still reported once |
| LlmClient.ExtractCatalogueOrder | talentscout-chatbot/llm/llm_client.py:57-75 | reported technologies are catalogue entries in catalogue order |
| LlmClient.ExtractIgnoresCase | talentscout-chatbot/llm/llm_client.py:54 | the input's letter case does not matter |
| LlmClient.ExtractEmpty | talentscout-chatbot/llm/llm_client.py:50-77 | an empty message names no technology |
| LlmClient.ExtractTechStack | talentscout-chatbot/llm/llm_client.py:50-77 | the method (flatten loop, then scan loop) computes `Extract` |
| LlmClient.FindMentioned | talentscout-chatbot/llm/llm_client.py:62-75 | the scan loop computes `Collect` |
| LlmClient.MockChoice | talentscout-chatbot/llm/llm_client.py:79-107 | never the apology; the e-mail request exactly when the last message mentions "name" among at most three messages; any other reply only when its rule's test holds; the default reply exactly when no rule's test holds |
| LlmClient.MockChoiceFirstRule | talentscout-chatbot/llm/llm_client.py:79-107 | the reply is that of the first rule, in the source's order, whose test holds, and the default exactly when none does |
| LlmClient.MockIgnoresCase | talentscout-chatbot/llm/llm_client.py:82-103 | lower-casing any message leaves the mock choice unchanged |
| LlmClient.GenerateResponse | talentscout-chatbot/llm/llm_client.py:28-48 | with no client, the mock reply `MockChoice` picks for the messages; with a failing call, the apology; otherwise the model's text stripped of surrounding whitespace |
| LlmClient.NoClientEmptyConversation | talentscout-chatbot/llm/llm_client.py:82-107 | with no messages the mock reply is the default one |
| Catalogue.Flatten | talentscout-chatbot/config.py:22-43 | a technology is in the flattened list exactly when it is in some category |
| Catalogue.FlattenSnoc | talentscout-chatbot/llm/llm_client.py:58-59 | extending by one more category appends its list |
| Catalogue.ListedIff | talentscout-chatbot/config.py:22-43 | the flattened catalogue holds exactly the listed technologies |
| Catalogue.CollectAllTechs | talentscout-chatbot/llm/llm_client.py:57-59 | the `extend` loop produces the flattened catalogue |
| Catalogue.AllTechsShape | talentscout-chatbot/config.py:22-43 | 52 entries, with Docker and Kubernetes present twice |
| Catalogue.CategoryStartsWithLetter | talentscout-chatbot/config.py:22-43 | each entry of a category starts with an ASCII letter |
| Catalogue.EntriesStartWithLetter | talentscout-chatbot/config.py:22-43 | every catalogue entry starts with an ASCII letter |
| Prompts.CollectedFields | talentscout-chatbot/llm/prompt_manager.py:61-64 | at most one label per dictionary entry |
| Prompts.CollectedFieldsNonEmpty | talentscout-chatbot/llm/prompt_manager.py:61-68 | some label is collected exactly when a field other than `tech_stack` is truthy |
| Prompts.InformationGatheringPrompt | talentscout-chatbot/llm/prompt_manager.py:41-70 | the fixed message when nothing is missing; otherwise the first missing field's question, prefixed by thanks exactly when something is collected |
| Prompts.GatheringPromptShape | talentscout-chatbot/llm/prompt_manager.py:57-70 | the prompt ends with the question and starts with the thanks exactly when something is collected |
| Prompts.TechStackAnalysisPrompt | talentscout-chatbot/llm/prompt_manager.py:72-92 | the method (with its flatten loop) yields the analysis prompt |
| Prompts.AnalysisListsCatalogue | talentscout-chatbot/llm/prompt_manager.py:72-92 | the analysis prompt quotes the input and the whole catalogue joined with ", ", and so names every catalogue entry |
| Prompts.QuestionsPromptNamesStack | talentscout-chatbot/llm/prompt_manager.py:94-115 | the questions prompt names every technology of the stack |
| Prompts.StageInstruction | talentscout-chatbot/llm/prompt_manager.py:127-136 | an unknown stage gets the default instruction |
| Prompts.TranscriptSnoc | talentscout-chatbot/llm/prompt_manager.py:123-125 | each message adds its line at the end |
| Prompts.TranscriptAppend | talentscout-chatbot/llm/prompt_manager.py:123-125 | the transcript of a concatenation is the concatenation of transcripts |
| Prompts.TranscriptHasLine | talentscout-chatbot/llm/prompt_manager.py:123-125 | every message's line occurs in the transcript |
| Prompts.ConversationContextPrompt | talentscout-chatbot/llm/prompt_manager.py:117-138 | the loop builds the context prompt from the last six messages |
| Prompts.ContextPromptStage | talentscout-chatbot/llm/prompt_manager.py:136-138 | the prompt names the current stage, and an unknown stage gets the default instruction |
| Prompts.ContextPromptWindow | talentscout-chatbot/llm/prompt_manager.py:120-138 | the prompt holds exactly the last six messages, and each of them appears in it |
| Prompts.LineLabel | talentscout-chatbot/llm/prompt_manager.py:124 | a line is labelled "Candidate" exactly for user messages |

## Left out

- The Streamlit user interface (`main` in app.py) is not modelled. That includes its session handling and the place where it sets the stage to complete and ends the conversation. The class invariant covers the assistant's own methods only.
- Hiring.HiringAssistant.GenerateResponse: `conversation_ended` is never set by the modelled methods, so the contract states it unchanged.
- The OpenAI call is not modelled: `ClientState` supplies either its reply text or None for a raised exception. `initialize_llm`, `initialize_client` and reading the API key from the environment are left out.
- Fernet, base64, SHA-256 and JSON are parameters: the `Primitives` record plus the `WellBehaved` hypothesis. They are not implemented.
- File permissions (`os.chmod`), key-file creation and directory creation are left out.
- Exceptions from the file system, and JSON files that are malformed in ways other than those listed below, are left out. A candidate file is either a record, whose timestamp may be missing or unreadable, or `Unreadable` (not JSON). Other missing keys are not modelled.
- Wall-clock time is an integer microsecond count passed to each operation. Timestamps are stored as that count, not as ISO strings.
- Days of file age in the AUTO_DELETE metadata are whole days of that count.
- The export stamp is rendered from UTC days and seconds, with no time zone.
- The constant fields of stored records and exports are not kept in the model. These are `data_version`, `privacy_compliant`, the null metadata entries and the privacy notice.
- `str.lower()`, `str.isdigit()` and the `\d` of the phone pattern are modelled for ASCII only, so a phone written with non-ASCII decimal digits is rejected by the model while Python accepts it. `str.isspace()` and `\s` use Python's full whitespace set.
- Validators.ValidateExperience: `float()` is modelled for decimal, exponent, `inf` and `nan` spellings with exact arithmetic, not binary rounding. Texts that round into the range are therefore rejected by the model and accepted by Python: `"50.00000000000000000001"` rounds to 50.0 and `"-1e-400"` to -0.0. Underscores between digits and non-ASCII digits are not accepted.
- The final "Thank you for that information..." return of the personal-details handler (app.py line 154) cannot be reached: every missing field has a branch. It is not modelled.
- `PromptManager.get_system_prompt` is modelled as the text `PromptTexts.SystemPrompt`. It has no contract of its own.
- `InputValidator.extract_tech_stack` (utils/validators.py) is modelled, but the assistant does not use it.
- Replies are modelled as a `Said` value, with the word-for-word text given by `Wording`. Formatting of the closing message is kept as written.
- scripts/privacy_maintenance.py and the rest of config.py, other than the catalogue and the 30-day retention default, are not part of this model.

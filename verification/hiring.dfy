/** The screening conversation: the candidate record being filled in, and the
    assistant that walks a candidate through greeting, personal details, tech
    stack and technical questions, one user message at a time. */
module Hiring {
  import opened Types
  import opened Strings
  import opened Sequences
  import opened PrivacyStore
  import Validators
  import LlmClient
  import Catalogue
  import Prompts
  import PromptTexts

  // ---------------------------------------------------------------------------
  // Stages

  /** The values `current_stage` takes, in the only order it moves through them. */
  datatype Stage = Greeting | PersonalInfo | TechStack | TechnicalQuestions | Complete

  function Rank(s: Stage): nat {
    match s
    case Greeting => 0
    case PersonalInfo => 1
    case TechStack => 2
    case TechnicalQuestions => 3
    case Complete => 4
  }

  /** The stage's name as the prompt manager sees it. */
  function StageName(s: Stage): string {
    match s
    case Greeting => "greeting"
    case PersonalInfo => "personal_info"
    case TechStack => "tech_stack"
    case TechnicalQuestions => "technical_questions"
    case Complete => "complete"
  }

  // ---------------------------------------------------------------------------
  // Personal details

  /** The five details asked for after the name, in asking order. */
  datatype Field = Email | Phone | YearsExperience | DesiredPositions | CurrentLocation

  function FieldRank(f: Field): nat {
    match f
    case Email => 0
    case Phone => 1
    case YearsExperience => 2
    case DesiredPositions => 3
    case CurrentLocation => 4
  }

  function Get(d: CandidateData, f: Field): string {
    match f
    case Email => d.email
    case Phone => d.phone
    case YearsExperience => d.yearsExperience
    case DesiredPositions => d.desiredPositions
    case CurrentLocation => d.currentLocation
  }

  /** `d` with detail `f` replaced by `v`. */
  function Fill(d: CandidateData, f: Field, v: string): (r: CandidateData)
    ensures Get(r, f) == v
    ensures forall g :: g != f ==> Get(r, g) == Get(d, g)
    ensures r.fullName == d.fullName && r.techStack == d.techStack
  {
    match f
    case Email => d.(email := v)
    case Phone => d.(phone := v)
    case YearsExperience => d.(yearsExperience := v)
    case DesiredPositions => d.(desiredPositions := v)
    case CurrentLocation => d.(currentLocation := v)
  }

  /** The detail asked `k`-th. */
  function FieldAt(k: nat): (f: Field)
    requires k < 5
    ensures FieldRank(f) == k
  {
    if k == 0 then Email
    else if k == 1 then Phone
    else if k == 2 then YearsExperience
    else if k == 3 then DesiredPositions
    else CurrentLocation
  }

  /** The empty details among the first `n` asked, in asking order. */
  function MissingAmong(d: CandidateData, n: nat): seq<Field>
    requires n <= 5
  {
    if n == 0 then [] else MissingAmong(d, n - 1) + (if Get(d, FieldAt(n - 1)) == "" then [FieldAt(n - 1)] else [])
  }

  lemma {:induction false} MissingAmongSpec(d: CandidateData, n: nat)
    requires n <= 5
    ensures forall f :: f in MissingAmong(d, n) <==> FieldRank(f) < n && Get(d, f) == ""
    ensures forall i, j :: 0 <= i < j < |MissingAmong(d, n)| ==> FieldRank(MissingAmong(d, n)[i]) < FieldRank(MissingAmong(d, n)[j])
  {
    if n > 0 {
      MissingAmongSpec(d, n - 1);
      var f := FieldAt(n - 1);
      assert forall g :: FieldRank(g) == n - 1 ==> g == f;
    }
  }

  /** The `missing_fields` list: exactly the empty details, in asking order. */
  function MissingFields(d: CandidateData): (r: seq<Field>)
    ensures forall f :: f in r <==> Get(d, f) == ""
    ensures forall i, j :: 0 <= i < j < |r| ==> FieldRank(r[i]) < FieldRank(r[j])
  {
    MissingAmongSpec(d, 5);
    MissingAmong(d, 5)
  }

  /** A detail is only ever filled after the detail asked before it, and so
      after every detail asked before it. */
  predicate FilledInOrder(d: CandidateData) {
    (d.phone != "" ==> d.email != "")
    && (d.yearsExperience != "" ==> d.phone != "")
    && (d.desiredPositions != "" ==> d.yearsExperience != "")
    && (d.currentLocation != "" ==> d.desiredPositions != "")
  }

  /** The details asked before the location are all given. */
  predicate FirstFourFilled(d: CandidateData) {
    d.email != "" && d.phone != "" && d.yearsExperience != "" && d.desiredPositions != ""
  }

  /** Whether the answer for `f` is taken: e-mail, phone and experience must
      pass their validators (on the raw input); positions and location are
      taken as given. */
  predicate Accepts(f: Field, input: string) {
    match f
    case Email => Validators.ValidateEmail(input).0
    case Phone => Validators.ValidatePhone(input).0
    case YearsExperience => Validators.ValidateExperience(input).0
    case DesiredPositions => true
    case CurrentLocation => true
  }

  /** What `_handle_personal_info_stage` says to an answer for `f`: the
      request for the next detail, or the validator's complaint. */
  function FieldReply(f: Field, input: string): Said {
    match f
    case Email =>
      if Accepts(f, input) then Accepted(f) else BadEmail(Validators.ValidateEmail(input).1)
    case Phone =>
      if Accepts(f, input) then Accepted(f) else BadPhone(Validators.ValidatePhone(input).1)
    case YearsExperience =>
      if Accepts(f, input) then Accepted(f) else BadExperience(Validators.ValidateExperience(input).1)
    case DesiredPositions => Accepted(f)
    case CurrentLocation => Accepted(f)
  }

  /** What `_handle_personal_info_stage` says: the reply for the first missing
      detail, or, when nothing is missing, the request for the tech stack that
      also follows the location. */
  function PersonalInfoReply(d: CandidateData, input: string): Said {
    var missing := MissingFields(d);
    FieldReply(if missing == [] then CurrentLocation else missing[0], input)
  }

  /** Filling the first missing detail, with any value, keeps the details
      filled in asking order. */
  lemma FillFirstMissing(d: CandidateData, v: string)
    requires FilledInOrder(d) && MissingFields(d) != []
    ensures FilledInOrder(Fill(d, MissingFields(d)[0], v))
  {
    var missing := MissingFields(d);
    var f0 := missing[0];
    assert f0 in missing && forall x :: x in missing ==> FieldRank(f0) <= FieldRank(x);
    match f0
    case Email =>
    case Phone => assert Email !in missing;
    case YearsExperience => assert Phone !in missing;
    case DesiredPositions => assert YearsExperience !in missing;
    case CurrentLocation => assert DesiredPositions !in missing;
  }

  // ---------------------------------------------------------------------------
  // The greeting

  /** `_handle_greeting_stage` takes a stripped name of more than two
      characters with no digit. */
  predicate NameAccepted(name: string) {
    |name| > 2 && !HasDigit(name)
  }

  /** A name the greeting accepts keeps no surrounding whitespace and is at
      least three characters long. */
  lemma AcceptedNameShape(input: string)
    requires NameAccepted(Strip(input))
    ensures var name := Strip(input);
      |name| >= 3 && !IsSpace(name[0]) && !IsSpace(name[|name| - 1])
      && forall i :: 0 <= i < |name| ==> !IsDigit(name[i])
  {
  }

  /** What `_handle_greeting_stage` says to the stripped name. */
  function GreetingReply(name: string): Said {
    if NameAccepted(name) then Welcome(name) else AskName
  }

  // ---------------------------------------------------------------------------
  // The question bank

  /** `any(k in tech_stack for k in keys)` */
  predicate AnyListed(keys: seq<string>, stack: seq<string>) {
    exists k :: k in keys && k in stack
  }

  /** The questions of the bank; `QuestionText` gives the words asked. */
  datatype Question =
    | SyncAsync | StateManagement | SlowQuery | Deployment | UnfamiliarTech
    | HardProblem | Debugging | LearningProcess

  function QuestionText(q: Question): string {
    match q
    case SyncAsync =>
      "Can " + "you " + "explain " + "the " + "difference " + "between " + "synchronous " + "and "
      + "asynchronous " + "programming, " + "and " + "when " + "you " + "would " + "use " + "each "
      + "approach?"
    case StateManagement =>
      "How " + "do " + "you " + "handle " + "state " + "management " + "in " + "your "
      + "applications, " + "and " + "what " + "patterns " + "do " + "you " + "prefer?"
    case SlowQuery =>
      "How " + "would " + "you " + "optimize " + "a " + "slow " + "database " + "query, " + "and "
      + "what " + "tools " + "would " + "you " + "use " + "to " + "identify " + "the "
      + "bottleneck?"
    case Deployment =>
      "Can " + "you " + "walk " + "me " + "through " + "how " + "you " + "would " + "deploy " + "a "
      + "web " + "application " + "to " + "production, " + "including " + "considerations " + "for "
      + "scalability " + "and " + "monitoring?"
    case UnfamiliarTech =>
      "Describe " + "a " + "time " + "when " + "you " + "had " + "to " + "work " + "with " + "a "
      + "technology " + "you " + "weren't " + "familiar " + "with. " + "How " + "did " + "you "
      + "approach " + "learning " + "it?"
    case HardProblem =>
      "Can " + "you " + "describe " + "a " + "challenging " + "technical " + "problem " + "you "
      + "solved " + "recently?"
    case Debugging =>
      "How " + "do " + "you " + "handle " + "debugging " + "when " + "something " + "isn't "
      + "working " + "as " + "expected?"
    case LearningProcess =>
      "What's " + "your " + "process " + "for " + "learning " + "new " + "technologies?"
  }

  /** The questions asked when no technology is known. */
  const DEFAULT_QUESTIONS: seq<Question> := [HardProblem, Debugging, LearningProcess]

  /** The technology categories that have a question of their own, in the
      order they are tried. */
  datatype Topic = Languages | Frameworks | Databases | Cloud

  const LANGUAGE_KEYS: seq<string> := ["Python", "JavaScript", "Java", "C++", "C#"]
  const FRAMEWORK_KEYS: seq<string> := ["React", "Angular", "Vue.js", "Django", "Flask"]
  const DATABASE_KEYS: seq<string> := ["PostgreSQL", "MySQL", "MongoDB", "Redis"]
  const CLOUD_KEYS: seq<string> := ["AWS", "Google Cloud", "Azure", "Docker", "Kubernetes"]

  /** The technologies that call for a category's question. */
  function Keys(t: Topic): seq<string> {
    match t
    case Languages => LANGUAGE_KEYS
    case Frameworks => FRAMEWORK_KEYS
    case Databases => DATABASE_KEYS
    case Cloud => CLOUD_KEYS
  }

  /** A category and the question it calls for. */
  datatype Rule = Rule(topic: Topic, question: Question)

  /** The category rules, in the order they are tried. */
  const RULES: seq<Rule> := [
    Rule(Languages, SyncAsync), Rule(Frameworks, StateManagement),
    Rule(Databases, SlowQuery), Rule(Cloud, Deployment)]

  /** Whether a rule fires for a stack: the stack names one of the rule's
      technologies. */
  function FiresFor(stack: seq<string>): Rule -> bool {
    (r: Rule) => AnyListed(Keys(r.topic), stack)
  }

  function Questions(rules: seq<Rule>): seq<Question> {
    seq(|rules|, k requires 0 <= k < |rules| => rules[k].question)
  }

  /** The questions of the rules that fire, in rule order. */
  function Triggered(rules: seq<Rule>, fires: Rule -> bool): seq<Question> {
    if rules == [] then []
    else
      var n := |rules| - 1;
      Triggered(rules[..n], fires) + if fires(rules[n]) then [rules[n].question] else []
  }

  /** The triggered questions are the questions of exactly the rules that
      fire, kept in rule order. */
  lemma {:induction false} TriggeredSpec(rules: seq<Rule>, fires: Rule -> bool)
    ensures |Triggered(rules, fires)| <= |rules|
    ensures IsSubsequence(Triggered(rules, fires), Questions(rules))
    ensures forall k :: 0 <= k < |rules| && fires(rules[k]) ==> rules[k].question in Triggered(rules, fires)
    ensures forall q :: q in Triggered(rules, fires) ==>
      exists k :: 0 <= k < |rules| && rules[k].question == q && fires(rules[k])
  {
    if rules != [] {
      var n := |rules| - 1;
      var rest := Triggered(rules[..n], fires);
      TriggeredSpec(rules[..n], fires);
      assert Questions(rules) == Questions(rules[..n]) + [rules[n].question];
      SubsequenceSnoc(rest, Questions(rules[..n]), rules[n].question);
      if fires(rules[n]) {
        assert Triggered(rules, fires) == rest + [rules[n].question];
      } else {
        assert Triggered(rules, fires) == rest;
      }
      forall k | 0 <= k < |rules| && fires(rules[k])
        ensures rules[k].question in Triggered(rules, fires)
      {
        if k < n {
          assert rules[..n][k] == rules[k];
        }
      }
      forall q | q in Triggered(rules, fires)
        ensures exists k :: 0 <= k < |rules| && rules[k].question == q && fires(rules[k])
      {
        if q in rest {
          var k :| 0 <= k < n && rules[..n][k].question == q && fires(rules[..n][k]);
          assert rules[..n][k] == rules[k];
        } else {
          assert rules[n].question == q && fires(rules[n]);
        }
      }
    }
  }

  /** The first `n` rules are the first `n - 1` and one more. */
  lemma TriggeredPrefix(rules: seq<Rule>, n: nat, fires: Rule -> bool)
    requires 0 < n <= |rules|
    ensures Triggered(rules[..n], fires)
      == Triggered(rules[..n - 1], fires) + if fires(rules[n - 1]) then [rules[n - 1].question] else []
  {
    assert rules[..n][..n - 1] == rules[..n - 1];
  }

  /** The `technical_questions` list for a tech stack. */
  function QuestionBank(stack: seq<string>): seq<Question> {
    if stack == [] then DEFAULT_QUESTIONS else Take(Triggered(RULES, FiresFor(stack)) + [UnfamiliarTech], 5)
  }

  /** An empty stack gets the three default questions. Otherwise there are one
      to five questions: the triggered category questions in rule order, then
      the general learning question last; the cut to five never removes
      anything. */
  lemma QuestionBankShape(stack: seq<string>)
    ensures stack == [] ==> QuestionBank(stack) == DEFAULT_QUESTIONS
    ensures stack != [] ==> QuestionBank(stack) == Triggered(RULES, FiresFor(stack)) + [UnfamiliarTech]
    ensures stack != [] ==> 1 <= |QuestionBank(stack)| <= 5
    ensures stack != [] ==> QuestionBank(stack)[|QuestionBank(stack)| - 1] == UnfamiliarTech
    ensures stack != [] ==> IsSubsequence(QuestionBank(stack)[..|QuestionBank(stack)| - 1], Questions(RULES))
  {
    if stack != [] {
      TriggeredSpec(RULES, FiresFor(stack));
      var body := Triggered(RULES, FiresFor(stack));
      assert (body + [UnfamiliarTech])[..|body|] == body;
    }
  }

  /** For a non-empty stack, a category's question is asked exactly when the
      stack names one of the category's technologies. */
  lemma QuestionBankCategories(stack: seq<string>, k: nat)
    requires stack != [] && k < |RULES|
    ensures RULES[k].question in QuestionBank(stack) <==> AnyListed(Keys(RULES[k].topic), stack)
  {
    hide AnyListed, Keys;
    QuestionBankShape(stack);
    TriggeredSpec(RULES, FiresFor(stack));
    var q := RULES[k].question;
    assert q in QuestionBank(stack) <==> q in Triggered(RULES, FiresFor(stack));
    if q in Triggered(RULES, FiresFor(stack)) {
      var j :| 0 <= j < |RULES| && RULES[j].question == q && FiresFor(stack)(RULES[j]);
      assert j == k;
    }
  }

  /** Every non-empty stack gets at least one question. */
  lemma QuestionBankNonEmpty(stack: seq<string>)
    ensures QuestionBank(stack) != []
  {
    QuestionBankShape(stack);
  }

  /** What `_handle_tech_stack_stage` says: the recognised stack and the first
      question, or a request to list the technologies again. */
  function TechStackReply(found: seq<string>, questions: seq<Question>): Said {
    if found == [] then AskStackAgain else StackNoted(found, questions)
  }

  /** What `_handle_technical_questions_stage` says to an answer given while
      question `index` was open: the next question, the closing message after
      the last one, or a holding reply past the end. */
  function AnswerReply(questions: seq<Question>, index: nat): Said {
    if index < |questions| then
      if index + 1 < |questions| then NextQuestion(questions[index + 1]) else Closing
    else Holding
  }

  // ---------------------------------------------------------------------------
  // Ending

  const ENDING_KEYWORDS: seq<string> := ["bye", "goodbye", "exit", "quit", "end", "stop", "thanks", "thank you"]

  /** `is_conversation_ending`: some keyword occurs in the lower-cased input. */
  predicate IsConversationEnding(input: string) {
    LlmClient.AnyOccurs(ENDING_KEYWORDS, Lower(input))
  }

  /** Any text containing an ending keyword, in any letter case, ends the
      conversation — "Friend" does, for it contains "end". */
  lemma EndingKeywordAnywhere(before: string, k: nat, after: string)
    requires k < |ENDING_KEYWORDS|
    ensures IsConversationEnding(before + ENDING_KEYWORDS[k] + after)
  {
    var w := ENDING_KEYWORDS[k];
    assert Lower(w) == w;
    assert Lower(before + w + after) == Lower(before) + w + Lower(after);
    SubstringOfConcat(Lower(before), w, Lower(after));
  }

  lemma FriendEndsConversation()
    ensures IsConversationEnding("Friend")
  {
    EndingKeywordAnywhere("Fri", 4, "");
    assert "Fri" + ENDING_KEYWORDS[4] + "" == "Friend";
  }

  /** Letter case never matters. */
  lemma EndingIgnoresCase(input: string)
    ensures IsConversationEnding(Lower(input)) == IsConversationEnding(input)
  {
    LowerIdempotent(input);
  }

  // ---------------------------------------------------------------------------
  // What the assistant says

  /** A reply, by what it says: the handlers decide which one is due and
      `Wording` spells it out. */
  datatype Said =
    | Welcome(name: string)         // an accepted name; the e-mail is asked next
    | AskName                       // the name again
    | Accepted(field: Field)        // an answer taken; the next detail is asked
    | BadEmail(complaint: string)   // the validators' messages, after a lead-in
    | BadPhone(complaint: string)
    | BadExperience(complaint: string)
    | AskStackAgain                 // no technology recognised
    | StackNoted(found: seq<string>, questions: seq<Question>)
    | NextQuestion(question: Question)
    | Closing                       // after the last answer
    | Holding                       // an answer with no question open
    | Generated(text: string)       // the language model's reply

  /** The text of each reply, word for word as the assistant sends it (split
      into one-word literals to keep proofs that mention it cheap; see
      PromptTexts). */
  function Wording(said: Said): string {
    match said
    case Welcome(name) =>
      "Nice " + "to " + "meet " + "you, " + name
      + ("! " + "Now, " + "could " + "you " + "please " + "provide " + "your " + "email "
         + "address?")
    case AskName =>
      "I'd " + "like " + "to " + "get " + "your " + "full " + "name " + "to " + "personalize "
      + "our " + "conversation. " + "Could " + "you " + "please " + "tell " + "me " + "your "
      + "name?"
    case Accepted(f) => AskAfter(f)
    case BadEmail(m) =>
      "That " + "doesn't " + "look " + "like " + "a " + "valid " + "email " + "address. " + m
    case BadPhone(m) =>
      "That " + "doesn't " + "look " + "like " + "a " + "valid " + "phone " + "number. " + m
    case BadExperience(m) =>
      "Please " + "provide " + "a " + "valid " + "number " + "of " + "years. " + m
    case AskStackAgain =>
      "I'd " + "like " + "to " + "learn " + "more " + "about " + "your " + "technical " + "skills. "
      + "Could " + "you " + "please " + "list " + "the " + "specific " + "programming "
      + "languages, " + "frameworks, " + "databases, " + "and " + "tools " + "you " + "use "
      + "regularly? " + "For " + "example: " + "Python, " + "React, " + "PostgreSQL, " + "Docker, "
      + "etc."
    case StackNoted(found, questions) =>
      "Excellent! " + "I " + "can " + "see " + "you " + "work " + "with " + Join(found, ", ")
      + (". " + "That's " + "a " + "great " + "tech " + "stack! " + "Now " + "I'd " + "like "
         + "to " + "ask " + "you " + "a " + "few " + "technical " + "questions " + "to " + "better "
         + "understand " + "your " + "expertise. " + "Let's " + "start " + "with " + "the "
         + "first " + "question:\n\n")
      + (if questions != [] then QuestionText(questions[0]) else
          "Can " + "you " + "tell " + "me " + "about " + "a " + "challenging " + "project " + "you "
          + "worked " + "on " + "recently?")
    case NextQuestion(q) =>
      "Thank " + "you " + "for " + "that " + "detailed " + "answer! " + "Here's " + "the " + "next "
      + "question:\n\n" + QuestionText(q)
    case Closing =>
      "\U{1F389} " + "**Excellent " + "work!** " + "You've " + "completed " + "all " + "the "
      + "technical " + "questions.\n\n"
      + "Thank " + "you " + "for " + "taking " + "the " + "time " + "to " + "go " + "through "
      + "this " + "screening " + "process. " + "Your " + "responses " + "show " + "great "
      + "technical " + "knowledge " + "and " + "experience.\n\n"
      + "**What " + "happens " + "next:**\n"
      + "- " + "Our " + "technical " + "team " + "will " + "review " + "your " + "responses "
      + "within " + "24-48 " + "hours\n"
      + "- " + "If " + "there's " + "a " + "good " + "match, " + "we'll " + "reach " + "out "
      + "to " + "schedule " + "a " + "more " + "detailed " + "interview\n"
      + "- " + "You " + "should " + "hear " + "back " + "from " + "us " + "within " + "3-5 "
      + "business " + "days\n\n"
      + "**Keep " + "an " + "eye " + "on:**\n"
      + "- " + "Your " + "email " + "for " + "updates " + "and " + "next " + "steps\n"
      + "- " + "Your " + "phone " + "for " + "potential " + "follow-up " + "calls\n\n"
      + "Thank " + "you " + "for " + "your " + "interest " + "in " + "opportunities " + "with "
      + "TalentScout. " + "We're " + "excited " + "about " + "the " + "possibility " + "of "
      + "working " + "with " + "you!\n\n"
      + "Feel " + "free " + "to " + "type " + "'bye' " + "if " + "you'd " + "like " + "to "
      + "end " + "our " + "conversation, " + "or " + "ask " + "any " + "questions " + "you "
      + "might " + "have."
    case Holding =>
      "Thank " + "you " + "for " + "your " + "response. " + "Let " + "me " + "continue " + "with "
      + "the " + "next " + "question."
    case Generated(text) => text
  }

  /** What is asked once the answer for `f` is taken. */
  function AskAfter(f: Field): string {
    match f
    case Email =>
      "Great! " + "What's " + "your " + "phone " + "number?"
    case Phone =>
      "Perfect! " + "How " + "many " + "years " + "of " + "professional " + "experience " + "do "
      + "you " + "have " + "in " + "technology?"
    case YearsExperience =>
      "Excellent! " + "What " + "type " + "of " + "positions " + "are " + "you " + "looking "
      + "for? " + "(e.g., " + "Software " + "Engineer, " + "Data " + "Scientist, " + "DevOps "
      + "Engineer)"
    case DesiredPositions =>
      "Great! " + "What's " + "your " + "current " + "location " + "or " + "preferred " + "work "
      + "location?"
    case CurrentLocation =>
      "Perfect! " + "Now, " + "could " + "you " + "tell " + "me " + "about " + "your "
      + "technical " + "expertise? " + "Please " + "list " + "the " + "main " + "programming "
      + "languages, " + "frameworks, " + "databases, " + "and " + "tools " + "you " + "work "
      + "with."
  }

  /** The welcome repeats the accepted name. */
  lemma WelcomeQuotesName(name: string)
    ensures IsSubstring(name, Wording(Welcome(name)))
  {
    var lead := "Nice " + "to " + "meet " + "you, ";
    var rest := Wording(Welcome(name))[|lead| + |name|..];
    assert Wording(Welcome(name)) == lead + name + rest;
    SubstringOfConcat(lead, name, rest);
  }

  /** A refused answer is told the validator's own message, last. */
  lemma ComplaintEndsWithMessage(said: Said)
    requires said.BadEmail? || said.BadPhone? || said.BadExperience?
    ensures EndsWith(Wording(said), said.complaint)
  {
    var w := Wording(said);
    var lead := w[..|w| - |said.complaint|];
    assert w == lead + said.complaint;
  }

  /** The noted stack names every recognised technology. */
  lemma StackNotedNamesEach(found: seq<string>, questions: seq<Question>, k: nat)
    requires k < |found|
    ensures IsSubstring(found[k], Wording(StackNoted(found, questions)))
  {
    hide QuestionText, Join;
    var w := Wording(StackNoted(found, questions));
    var lead := "Excellent! " + "I " + "can " + "see " + "you " + "work " + "with ";
    var list := Join(found, ", ");
    var rest := w[|lead| + |list|..];
    assert w == lead + list + rest;
    JoinContainsItem(found, ", ", k);
    SubstringInSuffix(found[k], lead, list);
    SubstringInPrefix(found[k], lead + list, rest);
  }

  /** A follow-up reply ends with the text of the question now open. */
  lemma NextQuestionEndsWithQuestion(q: Question)
    ensures EndsWith(Wording(NextQuestion(q)), QuestionText(q))
  {
    hide QuestionText;
    var w := Wording(NextQuestion(q));
    var lead := w[..|w| - |QuestionText(q)|];
    assert w == lead + QuestionText(q);
  }

  // ---------------------------------------------------------------------------
  // The contextual reply

  /** The messages sent to the language model once the screening is over: the
      system prompt, the context prompt, then the last four history entries. */
  function ContextMessages(history: seq<Message>, stage: string): (ms: seq<Message>)
    ensures |ms| == 2 + Min(|history|, 4)
    ensures ms[0] == Message("system", PromptTexts.SystemPrompt())
    ensures ms[1] == Message("system", Prompts.ContextPrompt(history, stage))
    ensures ms[2..] == history[|history| - Min(|history|, 4)..]
  {
    [Message("system", PromptTexts.SystemPrompt()), Message("system", Prompts.ContextPrompt(history, stage))]
      + LastN(history, 4)
  }

  // ---------------------------------------------------------------------------
  // One conversation step

  const NO_DETAILS := CandidateData("", "", "", "", "", "", [])

  /** What a candidate message can change: the stage, the candidate's details,
      the question list and the index of the open question. */
  datatype Screening = Screening(stage: Stage, details: CandidateData, questions: seq<Question>, index: nat)

  /** A freshly constructed assistant. */
  const START := Screening(Greeting, NO_DETAILS, [], 0)

  /** A message as the handlers read it: the stripped text, the verdicts of the
      e-mail, phone and experience validators on it, and the catalogue
      technologies it mentions. */
  datatype Reading = Reading(text: string, email: bool, phone: bool, experience: bool, found: seq<string>)

  function Read(input: string): Reading {
    Reading(Strip(input), Validators.ValidateEmail(input).0, Validators.ValidatePhone(input).0,
      Validators.ValidateExperience(input).0, LlmClient.Extract(input))
  }

  /** Whether the reading is taken as the answer for detail `f`. */
  function Verdict(r: Reading, f: Field): bool {
    match f
    case Email => r.email
    case Phone => r.phone
    case YearsExperience => r.experience
    case DesiredPositions => true
    case CurrentLocation => true
  }

  /** `_handle_greeting_stage`: an accepted name is kept and the personal
      details are asked next. */
  function GreetingNext(s: Screening, name: string): Screening {
    if NameAccepted(name) then s.(stage := Stage.PersonalInfo, details := s.details.(fullName := name)) else s
  }

  /** `_handle_personal_info_stage` once the validator has judged the answer:
      with every detail given the tech stack is next and nothing is stored;
      otherwise the first missing detail is filled with `value` when
      `accepted`, and answering the location moves on to the tech stack
      whatever the verdict. */
  function PersonalInfoNext(s: Screening, value: string, accepted: bool): Screening {
    var missing := MissingFields(s.details);
    if missing == [] then s.(stage := TechStack)
    else
      var f := missing[0];
      s.(stage := if f == CurrentLocation then TechStack else s.stage,
         details := if accepted then Fill(s.details, f, value) else s.details)
  }

  /** `_handle_tech_stack_stage` once the technologies `found` in the message
      are known: a non-empty list fixes the stack and its questions; an empty
      one changes nothing. */
  function TechStackNext(s: Screening, found: seq<string>): Screening {
    if found != [] then
      s.(stage := TechnicalQuestions, details := s.details.(techStack := found), questions := QuestionBank(found))
    else s
  }

  /** `_handle_technical_questions_stage`: the answer closes the open question;
      after the last one the screening is complete. */
  function QuestionsNext(s: Screening): Screening {
    if s.index < |s.questions| then
      s.(index := s.index + 1, stage := if s.index + 1 < |s.questions| then s.stage else Stage.Complete)
    else s
  }

  /** `_process_user_input` on the screening state, for a message read as `r`;
      once complete, messages only get a contextual reply. */
  function Step(s: Screening, r: Reading): Screening {
    match s.stage
    case Greeting => GreetingNext(s, r.text)
    case PersonalInfo =>
      var missing := MissingFields(s.details);
      PersonalInfoNext(s, r.text, missing != [] && Verdict(r, missing[0]))
    case TechStack => TechStackNext(s, r.found)
    case TechnicalQuestions => QuestionsNext(s)
    case Complete => s
  }

  /** The handlers' own validator calls agree with the reading. */
  lemma VerdictIsAccepts(input: string, f: Field)
    ensures Verdict(Read(input), f) == Accepts(f, input)
  {
  }

  function Next(s: Screening, input: string): Screening {
    Step(s, Read(input))
  }

  /** The reply `_process_user_input` gives in state `s`; `history` already
      holds the message being answered. */
  function Reply(s: Screening, input: string, history: seq<Message>, client: LlmClient.ClientState): Said {
    match s.stage
    case Greeting => GreetingReply(Strip(input))
    case PersonalInfo => PersonalInfoReply(s.details, input)
    case TechStack => TechStackReply(LlmClient.Extract(input), QuestionBank(LlmClient.Extract(input)))
    case TechnicalQuestions => AnswerReply(s.questions, s.index)
    case Complete => Generated(LlmClient.GenerateResponse(client, ContextMessages(history, StageName(Stage.Complete))))
  }

  /** The state after a sequence of candidate messages. */
  function Run(s: Screening, inputs: seq<string>): Screening
    decreases |inputs|
  {
    if inputs == [] then s else Run(Next(s, inputs[0]), inputs[1..])
  }

  // ---------------------------------------------------------------------------
  // What every reachable state satisfies

  /** The assistant's invariant. */
  ghost predicate Consistent(s: Screening) {
    var d := s.details;
    s.index <= |s.questions|
    && (Rank(s.stage) < Rank(TechnicalQuestions) ==> s.questions == [] && s.index == 0 && d.techStack == [])
    && (s.stage == TechnicalQuestions ==> s.index < |s.questions|)
    && (s.stage == Stage.Complete ==> s.index == |s.questions|)
    && (Rank(s.stage) >= Rank(TechnicalQuestions) ==> d.techStack != [] && s.questions == QuestionBank(d.techStack) && KnownStack(d.techStack))
    && (s.stage == Greeting ==> d == NO_DETAILS)
    && (s.stage != Greeting ==> NameAccepted(d.fullName))
    && (Rank(s.stage) >= Rank(TechStack) ==> FirstFourFilled(d))
    && FilledInOrder(d)
  }

  /** Catalogue technologies, each listed once. */
  ghost predicate KnownStack(stack: seq<string>) {
    NoDuplicates(stack) && forall t :: t in stack ==> Catalogue.Listed(t)
  }

  /** Every message names catalogue technologies only, each once. */
  lemma ReadKnown(input: string)
    ensures KnownStack(Read(input).found)
  {
    LlmClient.ExtractNoDuplicates(input);
    LlmClient.ExtractCatalogueOrder(input);
    Catalogue.ListedIff();
  }

  lemma StartConsistent()
    ensures Consistent(START)
  {
  }

  lemma GreetingConsistent(s: Screening, name: string)
    requires Consistent(s) && s.stage == Greeting
    ensures Consistent(GreetingNext(s, name))
  {
  }

  /** The tech stack is reached only once the first four details are given. */
  lemma PersonalInfoConsistent(s: Screening, value: string, accepted: bool)
    requires Consistent(s) && s.stage == Stage.PersonalInfo
    ensures Consistent(PersonalInfoNext(s, value, accepted))
  {
    var missing := MissingFields(s.details);
    if missing != [] {
      FillFirstMissing(s.details, value);
      if missing[0] == CurrentLocation {
        assert forall x :: x in missing ==> FieldRank(CurrentLocation) <= FieldRank(x);
        assert Email !in missing && Phone !in missing && YearsExperience !in missing && DesiredPositions !in missing;
      }
    }
  }

  /** A recognised stack has questions. */
  lemma TechStackConsistent(s: Screening, found: seq<string>)
    requires Consistent(s) && s.stage == TechStack && KnownStack(found)
    ensures Consistent(TechStackNext(s, found))
  {
    if found != [] {
      QuestionBankNonEmpty(found);
    }
  }

  lemma QuestionsConsistent(s: Screening)
    requires Consistent(s) && s.stage == TechnicalQuestions
    ensures Consistent(QuestionsNext(s))
  {
  }

  /** Every step keeps the invariant, whatever the validators decide. */
  lemma StepConsistent(s: Screening, r: Reading)
    requires Consistent(s) && KnownStack(r.found)
    ensures Consistent(Step(s, r))
  {
    match s.stage
    case Greeting => GreetingConsistent(s, r.text);
    case PersonalInfo =>
      var missing := MissingFields(s.details);
      PersonalInfoConsistent(s, r.text, missing != [] && Verdict(r, missing[0]));
    case TechStack => TechStackConsistent(s, r.found);
    case TechnicalQuestions => QuestionsConsistent(s);
    case Complete =>
  }

  /** Every message keeps the invariant. */
  lemma NextConsistent(s: Screening, input: string)
    requires Consistent(s)
    ensures Consistent(Next(s, input))
  {
    ReadKnown(input);
    StepConsistent(s, Read(input));
  }

  /** Every state a conversation reaches satisfies the invariant. */
  lemma {:induction false} RunConsistent(s: Screening, inputs: seq<string>)
    requires Consistent(s)
    ensures Consistent(Run(s, inputs))
    decreases |inputs|
  {
    if inputs != [] {
      NextConsistent(s, inputs[0]);
      RunConsistent(Next(s, inputs[0]), inputs[1..]);
    }
  }

  /** The stage moves at most one step per message, and only forward. */
  lemma StepAdvances(s: Screening, r: Reading)
    ensures Rank(s.stage) <= Rank(Step(s, r).stage) <= Rank(s.stage) + 1
  {
  }

  /** Over a whole conversation the stage never moves back, and moves at most
      one step per message. */
  lemma {:induction false} RunAdvances(s: Screening, inputs: seq<string>)
    ensures Rank(s.stage) <= Rank(Run(s, inputs).stage) <= Rank(s.stage) + |inputs|
    decreases |inputs|
  {
    if inputs != [] {
      StepAdvances(s, Read(inputs[0]));
      RunAdvances(Next(s, inputs[0]), inputs[1..]);
    }
  }

  /** When each stage is left: the greeting on an accepted name, the personal
      details once the location is answered (or nothing is missing), the tech
      stack once a technology is recognised, the questions after the last
      answer; the complete stage is never left and changes nothing. */
  lemma StepStageIff(s: Screening, r: Reading)
    requires Consistent(s)
    ensures s.stage == Greeting ==> (Step(s, r).stage == Stage.PersonalInfo <==> NameAccepted(r.text))
    ensures s.stage == Stage.PersonalInfo ==>
      (Step(s, r).stage == TechStack
       <==> MissingFields(s.details) == [] || MissingFields(s.details)[0] == CurrentLocation)
    ensures s.stage == TechStack ==> (Step(s, r).stage == TechnicalQuestions <==> r.found != [])
    ensures s.stage == TechnicalQuestions ==>
      Step(s, r).index == s.index + 1
      && (Step(s, r).stage == Stage.Complete <==> Step(s, r).index == |s.questions|)
    ensures s.stage == Stage.Complete ==> Step(s, r) == s
  {
  }

  /** An answer once stored is never overwritten: the name, every personal
      detail and the tech stack keep their first non-empty value. */
  lemma StepKeepsAnswers(s: Screening, r: Reading)
    requires Consistent(s)
    ensures s.details.fullName != "" ==> Step(s, r).details.fullName == s.details.fullName
    ensures forall f :: Get(s.details, f) != "" ==> Get(Step(s, r).details, f) == Get(s.details, f)
    ensures s.details.techStack != [] ==> Step(s, r).details.techStack == s.details.techStack
  {
    if s.stage == Stage.PersonalInfo {
      var missing := MissingFields(s.details);
      if missing != [] {
        assert Get(s.details, missing[0]) == "";
      }
    }
  }

  /** Only the question stage moves the question index, and only the tech
      stack stage sets the questions. */
  lemma StepIndex(s: Screening, r: Reading)
    ensures s.stage != TechnicalQuestions ==> Step(s, r).index == s.index
    ensures s.stage != TechStack ==> Step(s, r).questions == s.questions
  {
  }

  // ---------------------------------------------------------------------------
  // The reply announces the step

  /** The greeting welcomes exactly the names it stores. */
  lemma GreetingReplyAgrees(s: Screening, name: string)
    requires s.stage == Greeting
    ensures var said, t := GreetingReply(name), GreetingNext(s, name);
      (said.Welcome? <==> t.stage == Stage.PersonalInfo)
      && (said.Welcome? ==> said.name == t.details.fullName)
      && (!said.Welcome? ==> said == AskName && t == s)
  {
  }

  /** A personal detail is acknowledged by asking the next one: the request
      for the tech stack exactly when that stage is reached, the request after
      detail `f` only once `f` is stored; a complaint changes nothing. */
  lemma PersonalInfoReplyAgrees(s: Screening, input: string)
    requires s.stage == Stage.PersonalInfo
    ensures hide Validators.ValidateEmail, Validators.ValidatePhone, Validators.ValidateExperience, Strip;
      var missing := MissingFields(s.details);
      var said := PersonalInfoReply(s.details, input);
      var t := PersonalInfoNext(s, Strip(input), missing != [] && Accepts(missing[0], input));
      (said == Accepted(CurrentLocation) <==> t.stage == TechStack)
      && (said.Accepted? && said.field != CurrentLocation ==>
            Get(s.details, said.field) == "" && Get(t.details, said.field) == Strip(input) && t.stage == s.stage)
      && ((said.BadEmail? || said.BadPhone? || said.BadExperience?) ==> t == s)
  {
    hide Validators.ValidateEmail, Validators.ValidatePhone, Validators.ValidateExperience, Strip;
    var missing := MissingFields(s.details);
    if missing != [] {
      assert missing[0] in missing;
    }
  }

  /** The stack is praised exactly when it is stored, and the reply carries
      the stored stack and question list. */
  lemma TechStackReplyAgrees(s: Screening, found: seq<string>)
    requires s.stage == TechStack
    ensures var said, t := TechStackReply(found, QuestionBank(found)), TechStackNext(s, found);
      (said.StackNoted? <==> t.stage == TechnicalQuestions)
      && (said.StackNoted? ==> said.found == t.details.techStack && said.questions == t.questions)
      && (!said.StackNoted? ==> said == AskStackAgain && t == s)
  {
  }

  /** During the questions every answer is followed by the question now open,
      or by the closing message exactly when the screening completes. */
  lemma AnswerReplyAgrees(s: Screening)
    requires Consistent(s) && s.stage == TechnicalQuestions
    ensures var said, t := AnswerReply(s.questions, s.index), QuestionsNext(s);
      (said == Closing <==> t.stage == Stage.Complete)
      && (said.NextQuestion? ==> t.index < |t.questions| && said.question == t.questions[t.index])
      && (said.NextQuestion? || said == Closing)
  {
  }

  /** The history alternates candidate and assistant messages, candidate first. */
  ghost predicate Alternating(history: seq<Message>) {
    |history| % 2 == 0
    && forall i :: 0 <= i < |history| ==> history[i].role == if i % 2 == 0 then "user" else "assistant"
  }

  /** One exchange keeps the history alternating. */
  lemma AlternatingExtend(history: seq<Message>, input: string, reply: string)
    requires Alternating(history)
    ensures Alternating(history + [Message("user", input), Message("assistant", reply)])
  {
  }

  // ---------------------------------------------------------------------------
  // The candidate record

  /** `CandidateInfo`: the details gathered so far; empty strings stand for
      "not given yet". */
  class CandidateInfo {
    var fullName: string
    var email: string
    var phone: string
    var yearsExperience: string
    var desiredPositions: string
    var currentLocation: string
    var techStack: seq<string>

    constructor()
      ensures Snapshot() == NO_DETAILS
    {
      fullName, email, phone := "", "", "";
      yearsExperience, desiredPositions, currentLocation := "", "", "";
      techStack := [];
    }

    /** The record's current values, as the data handler receives them. */
    function Snapshot(): CandidateData
      reads this
    {
      CandidateData(fullName, email, phone, yearsExperience, desiredPositions, currentLocation, techStack)
    }
  }

  // ---------------------------------------------------------------------------
  // The assistant

  class HiringAssistant {
    var conversationEnded: bool
    var stage: Stage
    const info: CandidateInfo
    var technicalQuestions: seq<Question>
    var history: seq<Message>
    var questionIndex: nat
    const store: DataHandler

    /** The screening state held in the assistant's fields. */
    function State(): Screening
      reads this`stage, this`technicalQuestions, this`questionIndex, info
    {
      Screening(stage, info.Snapshot(), technicalQuestions, questionIndex)
    }

    ghost predicate Valid()
      reads this`stage, this`technicalQuestions, this`questionIndex, this`history, info
    {
      Consistent(State()) && Alternating(history)
    }

    constructor(prims: Primitives, files: map<string, StoredFile>, exportFiles: map<string, ExportFile>, log: seq<LogEntry>)
      ensures Valid()
      ensures State() == START && history == [] && !conversationEnded
      ensures store.prims == prims && store.encrypted == files && store.exports == exportFiles && store.log == log
      ensures fresh(info) && fresh(store)
    {
      conversationEnded := false;
      stage := Greeting;
      info := new CandidateInfo();
      technicalQuestions := [];
      history := [];
      questionIndex := 0;
      store := new DataHandler(prims, files, exportFiles, log);
      StartConsistent();
    }

    /** `generate_response`: record the candidate's message, answer it, record
        the answer. */
    method GenerateResponse(input: string, client: LlmClient.ClientState) returns (reply: string)
      requires Valid()
      modifies this, info
      ensures Valid()
      ensures State() == Next(old(State()), input)
      ensures reply == Wording(Reply(old(State()), input, old(history) + [Message("user", input)], client))
      ensures history == old(history) + [Message("user", input), Message("assistant", reply)]
      ensures conversationEnded == old(conversationEnded)
    {
      hide Next, Reply, Wording, Consistent, Alternating;
      NextConsistent(State(), input);
      ghost var h := history;
      history := history + [Message("user", input)];
      var said := ProcessUserInput(input, client);
      reply := Wording(said);
      history := history + [Message("assistant", reply)];
      assert history == h + [Message("user", input), Message("assistant", reply)];
      AlternatingExtend(h, input, reply);
    }

    /** `_process_user_input`: hand the message to the current stage's handler;
        after the questions, ask the language model. */
    method ProcessUserInput(input: string, client: LlmClient.ClientState) returns (said: Said)
      modifies this`stage, this`technicalQuestions, this`questionIndex, info
      ensures State() == Next(old(State()), input)
      ensures said == Reply(old(State()), input, history, client)
    {
      hide Validators.ValidateEmail, Validators.ValidatePhone, Validators.ValidateExperience, Strip;
      hide LlmClient.Extract, LlmClient.GenerateResponse, ContextMessages, QuestionBank;
      match stage {
        case Greeting => said := HandleGreeting(input);
        case PersonalInfo =>
          ghost var missing := MissingFields(info.Snapshot());
          if missing != [] {
            VerdictIsAccepts(input, missing[0]);
          }
          said := HandlePersonalInfo(input);
        case TechStack => said := HandleTechStack(input);
        case TechnicalQuestions => said := HandleTechnicalQuestions();
        case Complete =>
          var text := ContextualResponse(client);
          said := Generated(text);
      }
    }

    /** `_handle_greeting_stage` */
    method HandleGreeting(input: string) returns (said: Said)
      modifies this`stage, info`fullName
      ensures State() == GreetingNext(old(State()), Strip(input))
      ensures said == GreetingReply(Strip(input))
    {
      var name := Strip(input);
      if |name| > 2 && !HasDigit(name) {
        info.fullName := name;
        stage := Stage.PersonalInfo;
      }
      said := GreetingReply(name);
    }

    /** `_handle_personal_info_stage`: list the missing details, then take this
        message as the first of them. */
    method HandlePersonalInfo(input: string) returns (said: Said)
      modifies this`stage, info`email, info`phone, info`yearsExperience, info`desiredPositions, info`currentLocation
      ensures var missing := MissingFields(old(info.Snapshot()));
        State() == PersonalInfoNext(old(State()), Strip(input), missing != [] && Accepts(missing[0], input))
      ensures said == PersonalInfoReply(old(info.Snapshot()), input)
    {
      var missing := ListMissing();
      if missing == [] {
        stage := TechStack;
        said := FieldReply(CurrentLocation, input);
      } else {
        said := TakeAnswer(missing[0], input);
      }
    }

    /** The `missing_fields` list of `_handle_personal_info_stage`, built by
        appends in asking order. */
    method ListMissing() returns (missing: seq<Field>)
      ensures missing == MissingFields(info.Snapshot())
    {
      ghost var d := info.Snapshot();
      missing := [];
      if info.email == "" { missing := missing + [Email]; }
      assert missing == MissingAmong(d, 1);
      if info.phone == "" { missing := missing + [Phone]; }
      assert missing == MissingAmong(d, 2);
      if info.yearsExperience == "" { missing := missing + [YearsExperience]; }
      assert missing == MissingAmong(d, 3);
      if info.desiredPositions == "" { missing := missing + [DesiredPositions]; }
      assert missing == MissingAmong(d, 4);
      if info.currentLocation == "" { missing := missing + [CurrentLocation]; }
    }

    /** The branch of `_handle_personal_info_stage` for the detail `f` that is
        asked next: validate, store the stripped answer when it is accepted,
        and reply. */
    method TakeAnswer(f: Field, input: string) returns (said: Said)
      modifies this`stage, info`email, info`phone, info`yearsExperience, info`desiredPositions, info`currentLocation
      ensures info.Snapshot() == if Accepts(f, input) then Fill(old(info.Snapshot()), f, Strip(input)) else old(info.Snapshot())
      ensures stage == if f == CurrentLocation then TechStack else old(stage)
      ensures said == FieldReply(f, input)
    {
      hide Validators.ValidateEmail, Validators.ValidatePhone, Validators.ValidateExperience, Strip;
      ghost var d := info.Snapshot();
      match f {
        case Email =>
          var (ok, _) := Validators.ValidateEmail(input);
          if ok {
            info.email := Strip(input);
            assert info.Snapshot() == Fill(d, Email, Strip(input));
          }
        case Phone =>
          var (ok, _) := Validators.ValidatePhone(input);
          if ok {
            info.phone := Strip(input);
            assert info.Snapshot() == Fill(d, Phone, Strip(input));
          }
        case YearsExperience =>
          var (ok, _) := Validators.ValidateExperience(input);
          if ok {
            info.yearsExperience := Strip(input);
            assert info.Snapshot() == Fill(d, YearsExperience, Strip(input));
          }
        case DesiredPositions =>
          info.desiredPositions := Strip(input);
          assert info.Snapshot() == Fill(d, DesiredPositions, Strip(input));
        case CurrentLocation =>
          info.currentLocation := Strip(input);
          assert info.Snapshot() == Fill(d, CurrentLocation, Strip(input));
          stage := TechStack;
      }
      said := FieldReply(f, input);
    }

    /** `_handle_tech_stack_stage`: keep the extracted technologies and move on
        to the questions only when some technology was recognised. */
    method HandleTechStack(input: string) returns (said: Said)
      modifies this`stage, this`technicalQuestions, info`techStack
      ensures State() == TechStackNext(old(State()), LlmClient.Extract(input))
      ensures said == TechStackReply(LlmClient.Extract(input), QuestionBank(LlmClient.Extract(input)))
    {
      var extracted := LlmClient.ExtractTechStack(input);
      if extracted != [] {
        info.techStack := extracted;
        stage := TechnicalQuestions;
        GenerateTechnicalQuestions();
      }
      said := TechStackReply(extracted, technicalQuestions);
    }

    /** `_generate_technical_questions`, built by appends as the source does. */
    method GenerateTechnicalQuestions()
      modifies this`technicalQuestions
      ensures technicalQuestions == QuestionBank(info.techStack)
    {
      hide AnyListed, Keys;
      var stack := info.techStack;
      if stack == [] {
        technicalQuestions := DEFAULT_QUESTIONS;
        return;
      }
      var questions: seq<Question> := [];
      assert RULES[..0] == [];
      TriggeredPrefix(RULES, 1, FiresFor(stack));
      if AnyListed(Keys(Languages), stack) { questions := questions + [SyncAsync]; }
      assert questions == Triggered(RULES[..1], FiresFor(stack));
      TriggeredPrefix(RULES, 2, FiresFor(stack));
      if AnyListed(Keys(Frameworks), stack) { questions := questions + [StateManagement]; }
      assert questions == Triggered(RULES[..2], FiresFor(stack));
      TriggeredPrefix(RULES, 3, FiresFor(stack));
      if AnyListed(Keys(Databases), stack) { questions := questions + [SlowQuery]; }
      assert questions == Triggered(RULES[..3], FiresFor(stack));
      TriggeredPrefix(RULES, 4, FiresFor(stack));
      if AnyListed(Keys(Cloud), stack) { questions := questions + [Deployment]; }
      assert RULES[..4] == RULES;
      questions := questions + [UnfamiliarTech];
      technicalQuestions := Take(questions, 5);
    }

    /** `_handle_technical_questions_stage`: each answer moves to the next
        question; the answer after the last question completes the screening.
        The answer text itself is not kept. */
    method HandleTechnicalQuestions() returns (said: Said)
      modifies this`stage, this`questionIndex
      ensures State() == QuestionsNext(old(State()))
      ensures said == AnswerReply(technicalQuestions, old(questionIndex))
    {
      var answered := questionIndex;
      if questionIndex < |technicalQuestions| {
        questionIndex := questionIndex + 1;
        if questionIndex >= |technicalQuestions| {
          stage := Stage.Complete;
        }
      }
      said := AnswerReply(technicalQuestions, answered);
    }

    /** `_generate_contextual_response` */
    method ContextualResponse(client: LlmClient.ClientState) returns (reply: string)
      ensures reply == LlmClient.GenerateResponse(client, ContextMessages(history, StageName(stage)))
    {
      var context := Prompts.ConversationContextPrompt(history, StageName(stage));
      var messages := [Message("system", PromptTexts.SystemPrompt()), Message("system", context)];
      var recent := if |history| > 4 then history[|history| - 4..] else history;
      messages := messages + recent;
      reply := LlmClient.GenerateResponse(client, messages);
    }

    /** `save_session_data` */
    method SaveSessionData(sessionId: string, now: int) returns (ok: bool)
      modifies store`encrypted, store`log
      ensures ok
      ensures store.encrypted == old(store.encrypted)[CandidateFile(sessionId) :=
        Record(BuildRecord(store.prims, info.Snapshot(), sessionId, history, now))]
      ensures store.log == Cap(old(store.log) + [LogEntry(now, SAVE, sessionId,
        SaveMeta(info.fullName != "", info.email != "", |info.techStack|))])
    {
      ok := store.Save(info.Snapshot(), sessionId, history, now);
    }

    /** `export_session_data`, in the default JSON format. */
    method ExportSessionData(sessionId: string, now: int) returns (filename: Option<string>)
      modifies store`exports, store`log
      ensures var loaded := LoadResult(store.prims, store.encrypted, sessionId);
        if loaded.None? then
          filename.None? && store.exports == old(store.exports) && store.log == old(store.log)
        else
          filename == Some(ExportName(sessionId, ExportStamp(now)))
          && store.exports == old(store.exports)[ExportName(sessionId, ExportStamp(now)) :=
               ExportFile(MakeBundle(loaded.value, sessionId, "json", now), now)]
          && store.log == Cap(old(store.log) + [LogEntry(now, LOAD, sessionId, NoMeta),
                                                LogEntry(now, EXPORT, sessionId, ExportMeta("json"))])
    {
      filename := store.Export(sessionId, "json", now);
    }

    /** `delete_session_data`, with the reason `user_request`. */
    method DeleteSessionData(sessionId: string, now: int) returns (ok: bool)
      modifies store`encrypted, store`exports, store`log
      ensures ok == (CandidateFile(sessionId) in old(store.encrypted))
      ensures ok ==> store.encrypted == old(store.encrypted) - {CandidateFile(sessionId)}
      ensures ok ==> store.exports == WithoutPrefix(old(store.exports), ExportPrefix(sessionId))
      ensures ok ==> store.log == Cap(old(store.log) + [LogEntry(now, DELETE, sessionId, DeleteMeta("user_request"))])
      ensures !ok ==> store.encrypted == old(store.encrypted) && store.exports == old(store.exports) && store.log == old(store.log)
    {
      ok := store.Delete(sessionId, "user_request", now);
    }
  }
}

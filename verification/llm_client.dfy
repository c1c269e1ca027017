/** LLMClient without the hosted model: keyword extraction of a tech stack
    against the catalogue, and the canned replies used when no API client is
    configured or the API call fails. */
module LlmClient {
  import opened Types
  import opened Strings
  import opened Sequences
  import opened Catalogue

  // ---------------------------------------------------------------------------
  // extract_tech_stack

  /** The spellings looked for: the lower-cased name, and the lower-cased name
      with every '.', every ' ' or every '-' removed. */
  function Variations(tech: string): (vs: seq<string>)
    ensures |vs| == 4 && vs[0] == Lower(tech)
    ensures vs[1] == RemoveChar(vs[0], '.') && vs[2] == RemoveChar(vs[0], ' ') && vs[3] == RemoveChar(vs[0], '-')
    ensures forall k :: 0 <= k < 4 ==> |vs[k]| <= |tech|
  {
    var l := Lower(tech);
    [l, RemoveChar(l, '.'), RemoveChar(l, ' '), RemoveChar(l, '-')]
  }

  /** Some spelling of `tech` occurs in the lower-cased input. */
  predicate Mentioned(tech: string, lowered: string) {
    exists k :: 0 <= k < 4 && IsSubstring(Variations(tech)[k], lowered)
  }

  /** What the loop has found after visiting `techs`: each mentioned technology,
      added the first time it is visited. */
  function Collect(techs: seq<string>, lowered: string): seq<string> {
    if techs == [] then []
    else
      var found := Collect(techs[..|techs| - 1], lowered);
      var tech := techs[|techs| - 1];
      if Mentioned(tech, lowered) && tech !in found then found + [tech] else found
  }

  /** The technologies `extract_tech_stack` reports for `input`. */
  function Extract(input: string): seq<string> {
    Collect(AllTechs(), Lower(input))
  }

  lemma {:induction false} CollectMembers(techs: seq<string>, lowered: string)
    ensures forall t :: t in Collect(techs, lowered) <==> t in techs && Mentioned(t, lowered)
  {
    if techs != [] {
      var init := techs[..|techs| - 1];
      CollectMembers(init, lowered);
      assert techs == init + [techs[|techs| - 1]];
    }
  }

  lemma {:induction false} CollectNoDuplicates(techs: seq<string>, lowered: string)
    ensures NoDuplicates(Collect(techs, lowered))
  {
    if techs != [] {
      CollectNoDuplicates(techs[..|techs| - 1], lowered);
    }
  }

  /** Found technologies are listed in the order of their first occurrence in
      `techs`. */
  lemma {:induction false} CollectOrder(techs: seq<string>, lowered: string)
    ensures InOrderOf(Collect(techs, lowered), techs)
  {
    if techs != [] {
      var init := techs[..|techs| - 1];
      var tech := techs[|techs| - 1];
      CollectOrder(init, lowered);
      assert techs == init + [tech];
      if Mentioned(tech, lowered) && tech !in Collect(init, lowered) {
        CollectMembers(init, lowered);
        InOrderOfSnoc(Collect(init, lowered), init, tech);
      } else {
        InOrderOfExtend(Collect(init, lowered), init, tech);
      }
    }
  }

  /** A technology is reported iff it is in the catalogue and one of its four
      spellings occurs in the lower-cased input. */
  lemma ExtractIff(input: string, tech: string)
    ensures tech in Extract(input) <==> tech in AllTechs() && Mentioned(tech, Lower(input))
  {
    CollectMembers(AllTechs(), Lower(input));
  }

  /** No technology is reported twice, although Docker and Kubernetes are listed
      twice in the catalogue. */
  lemma ExtractNoDuplicates(input: string)
    ensures NoDuplicates(Extract(input))
  {
    CollectNoDuplicates(AllTechs(), Lower(input));
  }

  /** The result follows catalogue order, whatever order the user wrote. */
  lemma ExtractCatalogueOrder(input: string)
    ensures forall t :: t in Extract(input) ==> t in AllTechs()
    ensures forall i, j :: 0 <= i < j < |Extract(input)| ==>
      FirstIndex(AllTechs(), Extract(input)[i]) < FirstIndex(AllTechs(), Extract(input)[j])
  {
    CollectOrder(AllTechs(), Lower(input));
  }

  /** Extraction ignores case. */
  lemma ExtractIgnoresCase(input: string)
    ensures Extract(Lower(input)) == Extract(input)
  {
    LowerIdempotent(input);
  }

  lemma {:induction false} CollectOfNothingMentioned(techs: seq<string>, lowered: string)
    requires forall t :: t in techs ==> !Mentioned(t, lowered)
    ensures Collect(techs, lowered) == []
  {
    if techs != [] {
      CollectOfNothingMentioned(techs[..|techs| - 1], lowered);
    }
  }

  /** A name starting with a letter has no empty spelling, so the empty input
      does not mention it. */
  lemma NotMentionedInEmpty(tech: string)
    requires tech != [] && IsAsciiLetter(tech[0])
    ensures !Mentioned(tech, "")
  {
    var vs := Variations(tech);
    assert Lower(tech)[0] == LowerChar(tech[0]);
    forall k | 0 <= k < 4
      ensures !IsSubstring(vs[k], "")
    {
      SubstringOfEmpty(vs[k]);
    }
  }

  lemma ExtractFromEmpty(techs: seq<string>)
    requires forall t :: t in techs ==> t != [] && IsAsciiLetter(t[0])
    ensures Collect(techs, "") == []
  {
    forall t | t in techs
      ensures !Mentioned(t, "")
    {
      NotMentionedInEmpty(t);
    }
    CollectOfNothingMentioned(techs, "");
  }

  /** The empty input mentions nothing. */
  lemma ExtractEmpty()
    ensures Extract("") == []
  {
    EntriesStartWithLetter();
    ExtractFromEmpty(AllTechs());
  }

  /** `extract_tech_stack`: flatten the catalogue, then look for each of its
      technologies in the lower-cased input. */
  method ExtractTechStack(userInput: string) returns (found: seq<string>)
    ensures found == Extract(userInput)
  {
    var lowered := Lower(userInput);
    var all := CollectAllTechs();
    found := FindMentioned(all, lowered);
  }

  /** The loop of `extract_tech_stack`: for every technology, try its spellings
      in turn and stop at the first that occurs in the input. */
  method FindMentioned(techs: seq<string>, lowered: string) returns (found: seq<string>)
    ensures found == Collect(techs, lowered)
  {
    found := [];
    for i := 0 to |techs|
      invariant found == Collect(techs[..i], lowered)
    {
      var tech := techs[i];
      var variations := Variations(tech);
      assert techs[..i + 1] == techs[..i] + [tech];
      var k := 0;
      while k < |variations|
        invariant 0 <= k <= |variations|
        invariant forall m :: 0 <= m < k ==> !IsSubstring(variations[m], lowered)
        invariant found == Collect(techs[..i], lowered)
      {
        if IsSubstring(variations[k], lowered) {
          if tech !in found {
            found := found + [tech];
          }
          break;
        }
        k := k + 1;
      }
    }
    assert techs[..|techs|] == techs;
  }

  // ---------------------------------------------------------------------------
  // Canned replies

  /** The canned replies: the seven keyword-chosen ones, the default one, and
      the apology sent when the API call fails. */
  datatype Canned =
    | AskEmail | AskPhone | AskExperience | AskPositions | AskLocation | AskTech | FirstQuestion
    | MockDefault | Fallback

  /** The text of each canned reply, in one-word literals as in PromptTexts. */
  function CannedText(c: Canned): string {
    match c
    case AskEmail =>
      "Thank " + "you! " + "Now, " + "could " + "you " + "please " + "provide " + "your " + "email "
      + "address?"
    case AskPhone =>
      "Great! " + "What's " + "your " + "phone " + "number?"
    case AskExperience =>
      "Perfect! " + "How " + "many " + "years " + "of " + "professional " + "experience " + "do "
      + "you " + "have " + "in " + "technology?"
    case AskPositions =>
      "Excellent! " + "What " + "type " + "of " + "positions " + "are " + "you " + "looking "
      + "for? " + "(e.g., " + "Software " + "Engineer, " + "Data " + "Scientist, " + "DevOps "
      + "Engineer)"
    case AskLocation =>
      "Great! " + "What's " + "your " + "current " + "location " + "or " + "preferred " + "work "
      + "location?"
    case AskTech =>
      "Perfect! " + "Now, " + "could " + "you " + "tell " + "me " + "about " + "your "
      + "technical " + "expertise? " + "Please " + "list " + "the " + "main " + "programming "
      + "languages, " + "frameworks, " + "databases, " + "and " + "tools " + "you " + "work "
      + "with."
    case FirstQuestion =>
      "Excellent " + "tech " + "stack! " + "Now " + "I'd " + "like " + "to " + "ask " + "you "
      + "a " + "few " + "technical " + "questions " + "to " + "better " + "understand " + "your "
      + "expertise. " + "Let's " + "start " + "with: " + "Can " + "you " + "explain " + "the "
      + "difference " + "between " + "synchronous " + "and " + "asynchronous " + "programming, "
      + "and " + "when " + "you " + "would " + "use " + "each " + "approach?"
    case MockDefault =>
      "Thank " + "you " + "for " + "that " + "information. " + "Could " + "you " + "tell " + "me "
      + "more " + "about " + "your " + "background?"
    case Fallback =>
      "I " + "apologize, " + "but " + "I'm " + "experiencing " + "some " + "technical "
      + "difficulties. " + "Could " + "you " + "please " + "repeat " + "your " + "last "
      + "response?"
  }

  const NONZERO_DIGITS := ["1", "2", "3", "4", "5", "6", "7", "8", "9"]
  const ROLE_WORDS := ["engineer", "developer", "scientist", "analyst", "manager"]
  const LOCATION_WORDS := ["city", "remote", "location", "state", "country"]
  const TECH_WORDS := ["python", "javascript", "java", "react", "node", "sql", "aws", "docker"]

  /** `any(word in text for word in words)` */
  predicate AnyOccurs(words: seq<string>, text: string) {
    exists k :: 0 <= k < |words| && IsSubstring(words[k], text)
  }

  /** The lower-cased content of the last message, "" when there is none. */
  function LastLowered(messages: seq<Message>): string {
    if messages != [] then Lower(messages[|messages| - 1].content) else ""
  }

  /** The lower-cased content of the message before the last, if any. */
  function PrevLowered(messages: seq<Message>): Option<string> {
    if |messages| > 1 then Some(Lower(messages[|messages| - 2].content)) else None
  }

  /** The keyword test of each rule of `_get_mock_response`; the default and
      the apology have none. */
  predicate Fires(c: Canned, messages: seq<Message>) {
    var last, prev := LastLowered(messages), PrevLowered(messages);
    match c
    case AskEmail => IsSubstring("name", last) && |messages| <= 3
    case AskPhone => IsSubstring("@", last)
    case AskExperience => HasDigit(last) && prev.Some? && IsSubstring("phone", prev.value)
    case AskPositions => IsSubstring("year", last) || AnyOccurs(NONZERO_DIGITS, last)
    case AskLocation => AnyOccurs(ROLE_WORDS, last)
    case AskTech => AnyOccurs(LOCATION_WORDS, last)
    case FirstQuestion => AnyOccurs(TECH_WORDS, last)
    case MockDefault => false
    case Fallback => false
  }

  /** The rules in the order `_get_mock_response` tries them. */
  const RULES: seq<Canned> := [AskEmail, AskPhone, AskExperience, AskPositions, AskLocation, AskTech, FirstQuestion]

  /** `_get_mock_response`: the reply of the first rule whose keywords occur
      in the last message (and, for the phone rule, in the one before it);
      the default reply when none does; never the apology. */
  function MockChoice(messages: seq<Message>): (c: Canned)
    ensures c != Fallback
    ensures c == AskEmail <==> Fires(AskEmail, messages)
    ensures c != MockDefault ==> Fires(c, messages)
    ensures c == MockDefault <==>
      !Fires(AskEmail, messages) && !Fires(AskPhone, messages) && !Fires(AskExperience, messages)
      && !Fires(AskPositions, messages) && !Fires(AskLocation, messages) && !Fires(AskTech, messages)
      && !Fires(FirstQuestion, messages)
  {
    if Fires(AskEmail, messages) then AskEmail
    else if Fires(AskPhone, messages) then AskPhone
    else if Fires(AskExperience, messages) then AskExperience
    else if Fires(AskPositions, messages) then AskPositions
    else if Fires(AskLocation, messages) then AskLocation
    else if Fires(AskTech, messages) then AskTech
    else if Fires(FirstQuestion, messages) then FirstQuestion
    else MockDefault
  }

  /** The choice is the reply of the first rule, in the order of RULES, whose
      test holds, and the default reply exactly when no rule's test holds. */
  lemma MockChoiceFirstRule(messages: seq<Message>)
    ensures MockChoice(messages) == MockDefault <==> forall k :: 0 <= k < |RULES| ==> !Fires(RULES[k], messages)
    ensures MockChoice(messages) != MockDefault ==>
      exists k :: 0 <= k < |RULES| && RULES[k] == MockChoice(messages) && Fires(RULES[k], messages)
        && forall j :: 0 <= j < k ==> !Fires(RULES[j], messages)
  {
    var c := MockChoice(messages);
    var k := if c == MockDefault then |RULES| else
      match c
      case AskEmail => 0 case AskPhone => 1 case AskExperience => 2 case AskPositions => 3
      case AskLocation => 4 case AskTech => 5 case _ => 6;
    assert k < |RULES| ==> RULES[k] == c;
    forall j | 0 <= j < k
      ensures !Fires(RULES[j], messages)
    {
      assert j == 0 || j == 1 || j == 2 || j == 3 || j == 4 || j == 5 || j == 6;
    }
  }

  /** Whether an API client was configured, and what the API call produced:
      the reply text, or None when the call raised. */
  datatype ClientState = NoClient | ApiClient(outcome: Option<string>)

  /** `generate_response`: a mock reply without a client, the stripped API
      reply with one, the apology when the call fails. */
  function GenerateResponse(client: ClientState, messages: seq<Message>): (r: string)
    ensures client.NoClient? ==> r == CannedText(MockChoice(messages))
    ensures client.NoClient? ==> exists c :: c != Fallback && r == CannedText(c)
    ensures client == ApiClient(None) ==> r == CannedText(Fallback)
    ensures client.ApiClient? && client.outcome.Some? ==> r == Strip(client.outcome.value)
    ensures client.ApiClient? && client.outcome.Some? ==>
      |r| <= |client.outcome.value| && (r != [] ==> !IsSpace(r[0]) && !IsSpace(r[|r| - 1]))
  {
    hide CannedText, Fires, Strip;
    match client
    case NoClient => CannedText(MockChoice(messages))
    case ApiClient(None) => CannedText(Fallback)
    case ApiClient(Some(reply)) => Strip(reply)
  }

  /** The choice reads the messages only through their lower-cased contents:
      lower-casing any one message changes nothing. */
  lemma MockIgnoresCase(messages: seq<Message>, k: nat)
    requires k < |messages|
    ensures MockChoice(messages[k := Message(messages[k].role, Lower(messages[k].content))]) == MockChoice(messages)
  {
    var ms := messages[k := Message(messages[k].role, Lower(messages[k].content))];
    LowerIdempotent(messages[k].content);
    hide AnyOccurs, IsSubstring, HasDigit, Lower;
    assert forall i :: 0 <= i < |ms| ==> Lower(ms[i].content) == Lower(messages[i].content);
    assert LastLowered(ms) == LastLowered(messages) && PrevLowered(ms) == PrevLowered(messages);
  }

  lemma NoneOccurInEmpty(words: seq<string>)
    requires forall k :: 0 <= k < |words| ==> words[k] != []
    ensures !AnyOccurs(words, "")
  {
    forall k | 0 <= k < |words|
      ensures !IsSubstring(words[k], "")
    {
      SubstringOfEmpty(words[k]);
    }
  }

  /** With no client and no messages the reply is the default one. */
  lemma NoClientEmptyConversation()
    ensures GenerateResponse(NoClient, []) == CannedText(MockDefault)
  {
    SubstringOfEmpty("name");
    SubstringOfEmpty("@");
    SubstringOfEmpty("year");
    NoneOccurInEmpty(NONZERO_DIGITS);
    NoneOccurInEmpty(ROLE_WORDS);
    NoneOccurInEmpty(LOCATION_WORDS);
    NoneOccurInEmpty(TECH_WORDS);
  }
}

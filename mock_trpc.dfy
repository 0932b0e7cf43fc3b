/**
 * The client-side mock of the definition service: a fixed dictionary keyed by
 * lower-case word, a resolver that falls back to template text for unknown
 * words, and a chat responder that picks one of four canned replies by
 * keyword priority. The artificial delays are left out: both resolvers are
 * plain functions, and the clock read for the conversation id is a parameter.
 */
module MockTrpc {
  import opened Wrappers
  import opened Text

  /** What a lookup returns: the headword, a prose definition and example sentences. */
  datatype DefinitionRecord = DefinitionRecord(word: string, definition: string, examples: seq<string>)

  /** What the chat responder returns. */
  datatype ChatResponse = ChatResponse(response: string, conversationId: string)

  // ---------------------------------------------------------------------------
  // The dictionary and the definition resolver
  // ---------------------------------------------------------------------------

  /** The static dictionary; every key is the lower-case headword of its entry. */
  const MockDefinitions: map<string, DefinitionRecord> := map[
    "artificial" := DefinitionRecord(
      "artificial",
      "Made or produced by human beings rather than occurring naturally, especially as a copy of something natural.",
      ["The artificial flowers looked surprisingly realistic.",
       "Artificial intelligence is transforming modern technology."]),
    "intelligence" := DefinitionRecord(
      "intelligence",
      "The ability to acquire and apply knowledge and skills; the capacity for logic, understanding, self-awareness, learning, emotional knowledge, reasoning, planning, creativity, and problem-solving.",
      ["She showed great intelligence in solving the complex puzzle.",
       "Emotional intelligence is just as important as cognitive ability."]),
    "algorithms" := DefinitionRecord(
      "algorithms",
      "A step-by-step procedure or formula for solving a problem or completing a task, especially in computing and mathematics.",
      ["Search engines use complex algorithms to rank results.",
       "The sorting algorithm efficiently organized the data."]),
    "neural" := DefinitionRecord(
      "neural",
      "Relating to a nerve or the nervous system; in computing, refers to artificial systems inspired by biological neural networks.",
      ["Neural pathways in the brain process sensory information.",
       "Neural networks power modern AI applications."]),
    "technology" := DefinitionRecord(
      "technology",
      "The application of scientific knowledge for practical purposes, especially in industry; machinery and equipment developed from scientific knowledge.",
      ["Modern technology has revolutionized communication.",
       "Green technology aims to reduce environmental impact."]),
    "sophisticated" := DefinitionRecord(
      "sophisticated",
      "Having a refined knowledge of the ways of the world; complex, advanced, or developed to a high degree of complexity.",
      ["The smartphone contains sophisticated electronics.",
       "She had a sophisticated understanding of art history."]),
    "transforming" := DefinitionRecord(
      "transforming",
      "The act of changing in form, appearance, or structure; undergoing a marked change.",
      ["Digital tools are transforming how we work and learn.",
       "The caterpillar is transforming into a butterfly."]),
    "interact" := DefinitionRecord(
      "interact",
      "To act in such a way as to have an effect on another; to communicate or engage with others.",
      ["Children learn by interacting with their environment.",
       "The molecules interact to form new compounds."]),
    "context" := DefinitionRecord(
      "context",
      "The circumstances that form the setting for an event, statement, or idea, and in terms of which it can be fully understood.",
      ["You need to understand the historical context.",
       "The word has different meanings depending on context."]),
    "generate" := DefinitionRecord(
      "generate",
      "To cause something to arise or come into being; to produce or create.",
      ["Solar panels generate electricity from sunlight.",
       "The discussion generated many new ideas."]),
    "creative" := DefinitionRecord(
      "creative",
      "Relating to or involving the use of imagination or original ideas to create something.",
      ["She has a creative approach to problem-solving.",
       "Creative writing helps develop imagination."]),
    "content" := DefinitionRecord(
      "content",
      "Information or material created for an audience, especially in a digital format; also, a state of peaceful happiness.",
      ["The website features high-quality content.",
       "She felt content with her achievements."]),
    "engage" := DefinitionRecord(
      "engage",
      "To occupy or attract someone's interest or attention; to participate or become involved in.",
      ["The teacher uses games to engage students.",
       "They decided to engage in meaningful dialogue."]),
    "meaningful" := DefinitionRecord(
      "meaningful",
      "Having meaning, purpose, or significance; communicating something that is not explicitly stated.",
      ["We had a meaningful conversation about life.",
       "Meaningful work brings satisfaction and purpose."]),
    "conversations" := DefinitionRecord(
      "conversations",
      "Informal exchanges of ideas and information between two or more people; discussions.",
      ["They engaged in deep conversations about philosophy.",
       "AI systems can now hold natural conversations."])
  ]

  /** `"${word}"`: a word wrapped in double quotes, as the templates embed it. */
  function Quote(word: string): string {
    "\"" + word + "\""
  }

  /** The record synthesised for a word the dictionary does not hold. */
  function FallbackDefinition(word: string): (r: DefinitionRecord)
    ensures r.word == word && |r.examples| == 2
    ensures Contains(r.definition, Quote(word))
    ensures forall e :: e in r.examples ==> Contains(e, Quote(word))
  {
    var r := DefinitionRecord(
      word,
      "A simulated AI-powered definition for " + Quote(word) + ". This demonstrates how Word Lens provides instant, context-aware explanations for any word you select.",
      ["Example sentence using " + Quote(word) + " in context.",
       "Another way to use " + Quote(word) + " naturally."]);
    ContainsInfix("A simulated AI-powered definition for ", Quote(word), ". This demonstrates how Word Lens provides instant, context-aware explanations for any word you select.");
    ContainsInfix("Example sentence using ", Quote(word), " in context.");
    ContainsInfix("Another way to use ", Quote(word), " naturally.");
    r
  }

  /** `getMockDefinition`: case-insensitive lookup, else the fallback record. */
  function GetMockDefinition(word: string): (r: DefinitionRecord)
    ensures Lower(word) in MockDefinitions ==> r == MockDefinitions[Lower(word)]
    ensures Lower(word) !in MockDefinitions ==>
      && r.word == word
      && Contains(r.definition, Quote(word))
      && forall e :: e in r.examples ==> Contains(e, Quote(word))
    ensures |r.examples| == 2
    ensures Lower(r.word) == Lower(word)
  {
    var wordLower := Lower(word);
    if wordLower in MockDefinitions then
      HeadwordsAreKeys();
      TwoExamplesEach();
      LowerIdempotent(word);
      MockDefinitions[wordLower]
    else
      FallbackDefinition(word)
  }

  /** Each entry is filed under its own headword, which is lower case, and has two examples. */
  lemma DictionaryWellFormed()
    ensures forall k :: k in MockDefinitions ==>
      && MockDefinitions[k].word == k
      && IsLower(k)
      && |MockDefinitions[k].examples| == 2
  {
    HeadwordsAreKeys();
    KeysAreLowerCase();
    TwoExamplesEach();
  }

  lemma HeadwordsAreKeys()
    ensures forall k :: k in MockDefinitions ==> MockDefinitions[k].word == k
  {
  }

  lemma KeysAreLowerCase()
    ensures forall k :: k in MockDefinitions ==> IsLower(k)
  {
    MockHeadwords();
    LowerCaseHeadwords();
  }

  /** The fifteen headwords of the dictionary. */
  const Headwords: set<string> := {
    "artificial", "intelligence", "algorithms", "neural", "technology", "sophisticated", "transforming",
    "interact", "context", "generate", "creative", "content", "engage", "meaningful", "conversations"}

  lemma MockHeadwords()
    ensures MockDefinitions.Keys == Headwords
  {
  }

  lemma LowerCaseHeadwords()
    ensures forall k :: k in Headwords ==> IsLower(k)
  {
  }

  lemma TwoExamplesEach()
    ensures forall k :: k in MockDefinitions ==> |MockDefinitions[k].examples| == 2
  {
  }

  /** Every entry is what a lookup of its own key returns. */
  lemma DictionaryEntriesReachable()
    ensures forall k :: k in MockDefinitions ==> GetMockDefinition(k) == MockDefinitions[k]
  {
    KeysAreLowerCase();
    forall k | k in MockDefinitions
      ensures GetMockDefinition(k) == MockDefinitions[k]
    {
      LowerOfLower(k);
    }
  }

  /** Spellings that differ only in letter case resolve to the same dictionary entry. */
  lemma CaseVariantsAgree(a: string, b: string)
    requires Lower(a) == Lower(b) && Lower(a) in MockDefinitions
    ensures GetMockDefinition(a) == GetMockDefinition(b) == MockDefinitions[Lower(a)]
  {
  }

  lemma NeuralCaseVariants()
    ensures GetMockDefinition("Neural") == GetMockDefinition("NEURAL") == MockDefinitions["neural"]
  {
    assert Lower("Neural") == "neural" == Lower("NEURAL");
    CaseVariantsAgree("Neural", "NEURAL");
  }

  /** A fallback record keeps the caller's spelling, so case variants of an unknown word differ. */
  lemma UnknownWordKeepsSpelling(a: string, b: string)
    requires Lower(a) == Lower(b) && Lower(a) !in MockDefinitions && a != b
    ensures GetMockDefinition(a).word == a && GetMockDefinition(b).word == b
    ensures GetMockDefinition(a) != GetMockDefinition(b)
  {
  }

  // ---------------------------------------------------------------------------
  // The chat responder
  // ---------------------------------------------------------------------------

  /** `word || placeholder`: an absent or empty word is replaced by the placeholder. */
  function OrDefault(word: Option<string>, placeholder: string): string {
    if word.Some? && word.value != [] then word.value else placeholder
  }

  // Each template below is written as its first word followed by the rest of
  // its text; the pieces concatenate to the reply the responder sends, and the
  // first words ("Here's", "Some", "This", "That's") tell the four replies apart.

  const UsageTail: string :=
    " demonstrates the importance of understanding language in depth.\" Would you like more examples?"

  function UsageReply(word: Option<string>): (r: string)
    ensures |r| >= 3 && r[..3] == "Her"
  {
    "Here's " + "how you might use " + Quote(OrDefault(word, "this word")) + " in context: \""
    + ("The " + OrDefault(word, "concept") + UsageTail)
  }

  const RelatedReply: string :=
    "Some "
    + "related words include: related, comparable, analogous, and equivalent. Each has slightly different connotations. Would you like me to explain the differences?"

  const EtymologyReply: string :=
    "This "
    + "word has fascinating linguistic roots! In the full Word Lens extension, I can trace the etymology and historical usage. Would you like to learn more?"

  const DeferralTail: string :=
    "! In the full Word Lens extension, I provide detailed, context-aware answers powered by AI. This is just a demo to show how the conversational interface works."

  function DeferralReply(word: Option<string>): (r: string)
    ensures |r| >= 3 && r[..3] == "Tha"
  {
    "That's " + "a great question about " + Quote(OrDefault(word, "this topic")) + DeferralTail
  }

  lemma FixedReplyOpenings()
    ensures |RelatedReply| >= 3 && RelatedReply[..3] == "Som"
    ensures |EtymologyReply| >= 3 && EtymologyReply[..3] == "Thi"
  {
  }

  /** `demo_${Date.now()}`, with the clock reading passed in. */
  function ConversationId(now: nat): string {
    "demo_" + DecimalString(now)
  }

  /** The message asks for examples of use: it mentions "example" or "use", in any letter case. */
  predicate AsksForUsage(message: string) {
    Contains(Lower(message), "example") || Contains(Lower(message), "use")
  }

  predicate AsksForRelated(message: string) {
    Contains(Lower(message), "synonym") || Contains(Lower(message), "similar")
  }

  predicate AsksForOrigin(message: string) {
    Contains(Lower(message), "origin") || Contains(Lower(message), "etymology")
  }

  /** `getMockChatResponse`: the first keyword group the lower-cased message mentions picks the reply. */
  function GetMockChatResponse(message: string, word: Option<string>, now: nat): (r: ChatResponse)
    ensures |r.response| >= 3
    ensures |r.conversationId| > 5 && r.conversationId[..5] == "demo_"
  {
    var messageLower := Lower(message);
    var response :=
      if Contains(messageLower, "example") || Contains(messageLower, "use") then
        UsageReply(word)
      else if Contains(messageLower, "synonym") || Contains(messageLower, "similar") then
        RelatedReply
      else if Contains(messageLower, "origin") || Contains(messageLower, "etymology") then
        EtymologyReply
      else
        DeferralReply(word);
    FixedReplyOpenings();
    ChatResponse(response, ConversationId(now))
  }

  // ---------------------------------------------------------------------------
  // A table-driven reference for the responder's keyword priority
  // ---------------------------------------------------------------------------

  datatype ReplyKind = Usage | Related | Etymology | Deferral

  datatype KeywordGroup = KeywordGroup(keywords: seq<string>, kind: ReplyKind)

  /** The keyword groups in the order they are tested; a message matching none gets a deferral. */
  const KeywordPriority: seq<KeywordGroup> := [
    KeywordGroup(["example", "use"], Usage),
    KeywordGroup(["synonym", "similar"], Related),
    KeywordGroup(["origin", "etymology"], Etymology)
  ]

  predicate MentionsAny(text: string, keywords: seq<string>) {
    exists k :: k in keywords && Contains(text, k)
  }

  /** The kind of the first group that `text` mentions. */
  function FirstMatchingKind(text: string, groups: seq<KeywordGroup>): ReplyKind {
    if groups == [] then Deferral
    else if MentionsAny(text, groups[0].keywords) then groups[0].kind
    else FirstMatchingKind(text, groups[1..])
  }

  function Classify(message: string): ReplyKind {
    FirstMatchingKind(Lower(message), KeywordPriority)
  }

  function ReplyText(kind: ReplyKind, word: Option<string>): (r: string)
    ensures |r| >= 3
  {
    FixedReplyOpenings();
    match kind
    case Usage => UsageReply(word)
    case Related => RelatedReply
    case Etymology => EtymologyReply
    case Deferral => DeferralReply(word)
  }

  /** The reply text determines which template produced it. */
  lemma ReplyTextDeterminesKind(k1: ReplyKind, w1: Option<string>, k2: ReplyKind, w2: Option<string>)
    requires ReplyText(k1, w1) == ReplyText(k2, w2)
    ensures k1 == k2
  {
    FixedReplyOpenings();
    assert ReplyText(k1, w1)[..3] == ReplyText(k2, w2)[..3];
  }

  lemma MentionsEither(text: string, a: string, b: string)
    ensures MentionsAny(text, [a, b]) <==> Contains(text, a) || Contains(text, b)
  {
    if Contains(text, a) {
      assert a in [a, b];
    } else if Contains(text, b) {
      assert b in [a, b];
    }
  }

  /** Which group wins, stated as the priority order: each group loses to every earlier one. */
  lemma ClassifyByPriority(message: string)
    ensures Classify(message) == Usage <==> AsksForUsage(message)
    ensures Classify(message) == Related <==> !AsksForUsage(message) && AsksForRelated(message)
    ensures Classify(message) == Etymology <==>
      !AsksForUsage(message) && !AsksForRelated(message) && AsksForOrigin(message)
    ensures Classify(message) == Deferral <==>
      !AsksForUsage(message) && !AsksForRelated(message) && !AsksForOrigin(message)
  {
    var text := Lower(message);
    MentionsEither(text, "example", "use");
    MentionsEither(text, "synonym", "similar");
    MentionsEither(text, "origin", "etymology");
    var g0 := KeywordPriority;
    var g1 := g0[1..];
    var g2 := g1[1..];
    var g3 := g2[1..];
    assert g0[0] == KeywordGroup(["example", "use"], Usage);
    assert g1[0] == KeywordGroup(["synonym", "similar"], Related);
    assert g2[0] == KeywordGroup(["origin", "etymology"], Etymology);
    assert g3 == [];
    assert FirstMatchingKind(text, g2) == if AsksForOrigin(message) then Etymology else Deferral;
    assert FirstMatchingKind(text, g1) ==
      if AsksForRelated(message) then Related else FirstMatchingKind(text, g2);
    assert Classify(message) ==
      if AsksForUsage(message) then Usage else FirstMatchingKind(text, g1);
  }

  /** The if-else chain of the responder agrees with the table-driven classification. */
  lemma ChatResponseFollowsPriority(message: string, word: Option<string>, now: nat)
    ensures GetMockChatResponse(message, word, now).response == ReplyText(Classify(message), word)
  {
    ClassifyByPriority(message);
  }

  /** Both directions: the reply is a given template exactly when the message is of that kind. */
  lemma ChatReplyIffKind(message: string, word: Option<string>, now: nat, kind: ReplyKind)
    ensures GetMockChatResponse(message, word, now).response == ReplyText(kind, word)
        <==> Classify(message) == kind
  {
    ChatResponseFollowsPriority(message, word, now);
    if GetMockChatResponse(message, word, now).response == ReplyText(kind, word) {
      ReplyTextDeterminesKind(Classify(message), word, kind, word);
    }
  }

  /** "example" or "use" selects the usage reply, whatever other keywords the message holds. */
  lemma UsageBeatsOtherKeywords(message: string, word: Option<string>, now: nat)
    requires AsksForUsage(message)
    ensures GetMockChatResponse(message, word, now).response == UsageReply(word)
  {
  }

  /** The related-words and etymology replies do not mention the subject word. */
  lemma FixedRepliesIgnoreWord(message: string, w1: Option<string>, w2: Option<string>, now: nat)
    requires Classify(message) == Related || Classify(message) == Etymology
    ensures GetMockChatResponse(message, w1, now).response == GetMockChatResponse(message, w2, now).response
  {
    ChatResponseFollowsPriority(message, w1, now);
    ChatResponseFollowsPriority(message, w2, now);
  }

  /** The usage reply quotes the subject word (or "this word") and then names it (or "concept"). */
  lemma UsageReplyMentionsWord(word: Option<string>)
    ensures Contains(UsageReply(word), Quote(OrDefault(word, "this word")))
    ensures Contains(UsageReply(word), "The " + OrDefault(word, "concept"))
  {
    var w1, w2 := OrDefault(word, "this word"), OrDefault(word, "concept");
    var head := "Here's " + "how you might use ";
    var sentence := "The " + w2 + UsageTail;
    ContainsInfix(head, Quote(w1), "");
    assert head + Quote(w1) + "" == head + Quote(w1);
    ContainsExtend(head + Quote(w1), Quote(w1), " in context: \"");
    ContainsExtend(head + Quote(w1) + " in context: \"", Quote(w1), sentence);
    ContainsInfix("", "The " + w2, UsageTail);
    assert "" + ("The " + w2) + UsageTail == sentence;
    ContainsPrepend(head + Quote(w1) + " in context: \"", sentence, "The " + w2);
  }

  /** The deferral reply quotes the subject word, or "this topic". */
  lemma DeferralReplyMentionsWord(word: Option<string>)
    ensures Contains(DeferralReply(word), Quote(OrDefault(word, "this topic")))
  {
    ContainsInfix("That's " + "a great question about ", Quote(OrDefault(word, "this topic")), DeferralTail);
  }

  /** A present, non-empty subject word is quoted in the usage and deferral replies. */
  lemma RepliesQuoteWord(message: string, word: string, now: nat)
    requires word != []
    ensures Classify(message) == Usage || Classify(message) == Deferral ==>
      Contains(GetMockChatResponse(message, Some(word), now).response, Quote(word))
  {
    ChatResponseFollowsPriority(message, Some(word), now);
    UsageReplyMentionsWord(Some(word));
    DeferralReplyMentionsWord(Some(word));
  }

  /** An absent or empty word is replaced by "this word" and "concept", or by "this topic". */
  lemma RepliesUsePlaceholders(message: string, word: Option<string>, now: nat)
    requires word.None? || word.value == []
    ensures Classify(message) == Usage ==>
      && Contains(GetMockChatResponse(message, word, now).response, Quote("this word"))
      && Contains(GetMockChatResponse(message, word, now).response, "The concept")
    ensures Classify(message) == Deferral ==>
      Contains(GetMockChatResponse(message, word, now).response, Quote("this topic"))
  {
    ChatResponseFollowsPriority(message, word, now);
    UsagePlaceholders(word);
    DeferralReplyMentionsWord(word);
  }

  lemma UsagePlaceholders(word: Option<string>)
    requires word.None? || word.value == []
    ensures Contains(UsageReply(word), Quote("this word")) && Contains(UsageReply(word), "The concept")
  {
    UsageReplyMentionsWord(word);
    assert "The " + OrDefault(word, "concept") == "The concept";
  }

  /** Only the lower-cased message matters: lower-casing it first changes nothing. */
  lemma ChatResponseIgnoresMessageCase(message: string, word: Option<string>, now: nat)
    ensures GetMockChatResponse(Lower(message), word, now) == GetMockChatResponse(message, word, now)
  {
    LowerIdempotent(message);
  }

  /** The conversation id is "demo_" followed by the clock reading in decimal. */
  lemma ConversationIdEncodesClock(now: nat)
    ensures ConversationId(now)[..5] == "demo_"
    ensures ParseDecimal(ConversationId(now)[5..]) == now
  {
    assert ConversationId(now)[5..] == DecimalString(now);
    ParseDecimalString(now);
  }

  /** Calls made at different clock readings get different conversation ids, whatever they ask. */
  lemma ConversationIdsDistinct(m1: string, w1: Option<string>, t1: nat, m2: string, w2: Option<string>, t2: nat)
    requires t1 != t2
    ensures GetMockChatResponse(m1, w1, t1).conversationId != GetMockChatResponse(m2, w2, t2).conversationId
  {
    assert GetMockChatResponse(m1, w1, t1).conversationId == ConversationId(t1);
    assert GetMockChatResponse(m2, w2, t2).conversationId == ConversationId(t2);
    if ConversationId(t1) == ConversationId(t2) {
      assert ConversationId(t1)[5..] == DecimalString(t1);
      assert ConversationId(t2)[5..] == DecimalString(t2);
      DecimalStringInjective(t1, t2);
    }
  }

  // ---------------------------------------------------------------------------
  // Replies to particular messages, in any letter case
  // ---------------------------------------------------------------------------

  lemma ExampleQuestionAsksForUsage(message: string)
    requires Lower(message) == "can you give an example?"
    ensures AsksForUsage(message)
  {
    ContainsAt(Lower(message), "example", 16);
  }

  /** Asked for an example about a word such as "intelligence", the reply quotes that word. */
  lemma ExampleQuestionGetsUsageReply(message: string, word: string, now: nat)
    requires Lower(message) == "can you give an example?" && word != []
    ensures GetMockChatResponse(message, Some(word), now).response == UsageReply(Some(word))
    ensures Contains(GetMockChatResponse(message, Some(word), now).response, Quote(word))
  {
    ExampleQuestionAsksForUsage(message);
    UsageBeatsOtherKeywords(message, Some(word), now);
    UsageReplyMentionsWord(Some(word));
  }

  lemma SynonymQuestionGetsRelatedReply(message: string, word: Option<string>, now: nat)
    requires Lower(message) == "what's a synonym?"
    ensures GetMockChatResponse(message, word, now).response == RelatedReply
  {
    SynonymQuestionAsksForRelated(message);
  }

  lemma SynonymQuestionAsksForRelated(message: string)
    requires Lower(message) == "what's a synonym?"
    ensures !AsksForUsage(message) && AsksForRelated(message)
  {
    var m := Lower(message);
    NotContainsMissingChar(m, "example", 'x');
    NotContainsMissingChar(m, "use", 'u');
    ContainsAt(m, "synonym", 9);
  }

  lemma GreetingGetsDeferralReply(message: string, word: Option<string>, now: nat)
    requires Lower(message) == "hello"
    ensures GetMockChatResponse(message, word, now).response == DeferralReply(word)
  {
    var m := Lower(message);
    NotContainsMissingChar(m, "example", 'x');
    NotContainsMissingChar(m, "use", 'u');
    NotContainsMissingChar(m, "synonym", 'y');
    NotContainsMissingChar(m, "similar", 'm');
    NotContainsMissingChar(m, "origin", 'r');
    NotContainsMissingChar(m, "etymology", 'y');
  }

  /** Keywords are matched as substrings: "confused" holds "use", which outranks "synonym". */
  lemma KeywordInsideAnotherWord(message: string, word: Option<string>, now: nat)
    requires Lower(message) == "what is a synonym for confused?"
    ensures GetMockChatResponse(message, word, now).response == UsageReply(word)
  {
    ContainsAt(Lower(message), "use", 26);
  }
}

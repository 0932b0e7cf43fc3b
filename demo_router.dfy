/**
 * The server-side procedures of the demo router: `getDefinition`, which holds
 * its own six-word dictionary and the same fallback text as the client mock,
 * and `sendMessage`, which repeats the mock's keyword-priority replies but
 * echoes the caller's conversation id. Input validation is expressed by the
 * input types: the words and messages are strings and the conversation id is
 * required, while the subject word of a message is optional.
 */
module DemoRouter {
  import opened Wrappers
  import opened Text
  import opened MockTrpc

  datatype GetDefinitionInput = GetDefinitionInput(word: string)

  datatype SendMessageInput = SendMessageInput(message: string, conversationId: string, word: Option<string>)

  // ---------------------------------------------------------------------------
  // getDefinition
  // ---------------------------------------------------------------------------

  /** The router's own dictionary, six of the mock's entries written out again. */
  const Definitions: map<string, DefinitionRecord> := map[
    "artificial" := DefinitionRecord(
      "artificial",
      "Made or produced by human beings rather than occurring naturally, especially as a copy of something natural.",
      ["The artificial flowers looked surprisingly realistic.",
       "Artificial intelligence is transforming modern technology."]),
    "intelligence" := DefinitionRecord(
      "intelligence",
      "The ability to acquire and apply knowledge and skills; the capacity for logic, understanding, self-awareness, learning, emotional knowledge, reasoning, planning, creativity, and problem-solving.",
      ["She showed great intelligence in solving the complex puzzle.",
       "Emotional intelligence is just as important as cognitive ability."]),
    "algorithms" := DefinitionRecord(
      "algorithms",
      "A step-by-step procedure or formula for solving a problem or completing a task, especially in computing and mathematics.",
      ["Search engines use complex algorithms to rank results.",
       "The sorting algorithm efficiently organized the data."]),
    "neural" := DefinitionRecord(
      "neural",
      "Relating to a nerve or the nervous system; in computing, refers to artificial systems inspired by biological neural networks.",
      ["Neural pathways in the brain process sensory information.",
       "Neural networks power modern AI applications."]),
    "technology" := DefinitionRecord(
      "technology",
      "The application of scientific knowledge for practical purposes, especially in industry; machinery and equipment developed from scientific knowledge.",
      ["Modern technology has revolutionized communication.",
       "Green technology aims to reduce environmental impact."]),
    "sophisticated" := DefinitionRecord(
      "sophisticated",
      "Having a refined knowledge of the ways of the world; complex, advanced, or developed to a high degree of complexity.",
      ["The smartphone contains sophisticated electronics.",
       "She had a sophisticated understanding of art history."])
  ]

  /** The router's fallback record, written out again with the same text as the mock's. */
  function GenericDefinition(word: string): (r: DefinitionRecord)
    ensures r.word == word && |r.examples| == 2
  {
    DefinitionRecord(
      word,
      "A simulated AI-powered definition for " + Quote(word) + ". This demonstrates how Word Lens provides instant, context-aware explanations for any word you select.",
      ["Example sentence using " + Quote(word) + " in context.",
       "Another way to use " + Quote(word) + " naturally."])
  }

  /** `getDefinition`: case-insensitive lookup in the six-word dictionary, else the fallback. */
  function GetDefinition(input: GetDefinitionInput): (r: DefinitionRecord)
    ensures Lower(input.word) in Definitions ==> r == Definitions[Lower(input.word)]
    ensures Lower(input.word) !in Definitions ==> r.word == input.word && |r.examples| == 2
  {
    var wordLower := Lower(input.word);
    if wordLower in Definitions then Definitions[wordLower] else GenericDefinition(input.word)
  }

  /** The router's dictionary holds exactly six headwords. */
  lemma RouterHeadwords()
    ensures Definitions.Keys == {"artificial", "intelligence", "algorithms", "neural", "technology", "sophisticated"}
  {
  }

  /** Every router entry is, under the same key, exactly the mock's entry. */
  lemma RouterEntryIsMockEntry(k: string)
    requires k in Definitions
    ensures k in MockDefinitions && Definitions[k] == MockDefinitions[k]
  {
    RouterHeadwords();
  }

  /** The two fallback texts are the same, character for character. */
  lemma FallbacksAgree(word: string)
    ensures GenericDefinition(word) == FallbackDefinition(word)
  {
  }

  /** The two resolvers agree on every word except the mock's nine extra headwords. */
  lemma ResolversAgreeOutsideExtraWords(word: string)
    requires Lower(word) !in MockDefinitions.Keys - Definitions.Keys
    ensures GetDefinition(GetDefinitionInput(word)) == GetMockDefinition(word)
  {
    if Lower(word) in Definitions {
      RouterEntryIsMockEntry(Lower(word));
    }
    FallbacksAgree(word);
  }

  /**
   * On the nine extra headwords the router falls back while the mock returns
   * its entry, so the two resolvers give them different records.
   */
  lemma ResolversDifferOnExtraWords(word: string)
    requires Lower(word) in MockDefinitions.Keys - Definitions.Keys
    ensures GetDefinition(GetDefinitionInput(word)) == FallbackDefinition(word)
    ensures GetMockDefinition(word) == MockDefinitions[Lower(word)]
    ensures GetDefinition(GetDefinitionInput(word)) != GetMockDefinition(word)
  {
    FallbacksAgree(word);
    ExtraDefinitionsAreShort(Lower(word));
    FallbackDefinitionLength(word);
  }

  /** Each of the nine extra entries has a definition shorter than any fallback's. */
  lemma ExtraDefinitionsAreShort(k: string)
    requires k in MockDefinitions.Keys - Definitions.Keys
    ensures |MockDefinitions[k].definition| < 143
  {
    MockHeadwords();
    RouterHeadwords();
  }

  lemma FallbackDefinitionLength(word: string)
    ensures |FallbackDefinition(word).definition| == 143 + |word|
  {
  }

  // ---------------------------------------------------------------------------
  // sendMessage
  // ---------------------------------------------------------------------------

  // As in the mock, each template is its first word followed by the rest of its
  // text, so that `AnswersMatchMockReplies` compares the pieces one by one.

  function UsageAnswer(word: Option<string>): string {
    "Here's " + "how you might use " + Quote(OrDefault(word, "this word")) + " in context: \""
    + ("The " + OrDefault(word, "concept")
       + " demonstrates the importance of understanding language in depth.\" Would you like more examples?")
  }

  const RelatedAnswer: string :=
    "Some "
    + "related words include: related, comparable, analogous, and equivalent. Each has slightly different connotations. Would you like me to explain the differences?"

  const EtymologyAnswer: string :=
    "This "
    + "word has fascinating linguistic roots! In the full Word Lens extension, I can trace the etymology and historical usage. Would you like to learn more?"

  function DeferralAnswer(word: Option<string>): string {
    "That's " + "a great question about " + Quote(OrDefault(word, "this topic"))
    + "! In the full Word Lens extension, I provide detailed, context-aware answers powered by AI. This is just a demo to show how the conversational interface works."
  }

  /** `sendMessage`: the mock's keyword priority, with the caller's conversation id echoed. */
  function SendMessage(input: SendMessageInput): (r: ChatResponse)
    ensures r.conversationId == input.conversationId
  {
    var message := Lower(input.message);
    var response :=
      if Contains(message, "example") || Contains(message, "use") then
        UsageAnswer(input.word)
      else if Contains(message, "synonym") || Contains(message, "similar") then
        RelatedAnswer
      else if Contains(message, "origin") || Contains(message, "etymology") then
        EtymologyAnswer
      else
        DeferralAnswer(input.word);
    ChatResponse(response, input.conversationId)
  }

  /** The server's four reply texts are the mock's, character for character. */
  lemma AnswersMatchMockReplies(word: Option<string>)
    ensures UsageAnswer(word) == UsageReply(word)
    ensures RelatedAnswer == RelatedReply && EtymologyAnswer == EtymologyReply
    ensures DeferralAnswer(word) == DeferralReply(word)
  {
  }

  /** The server and the mock send the same reply to every message and subject word. */
  lemma SendMessageMatchesMock(input: SendMessageInput, now: nat)
    ensures SendMessage(input).response == GetMockChatResponse(input.message, input.word, now).response
  {
    AnswersMatchMockReplies(input.word);
  }
}

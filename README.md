# Word Lens demo: definition resolver, chat responder and tooltip

This project models the logic behind the Word Lens marketing site's live demo, in Dafny.

- **The client-side mock service** (`src/lib/mockTrpc.ts`, module `MockTrpc`):
  - a fixed dictionary of fifteen words;
  - `getMockDefinition`, which looks a word up without regard to letter case and otherwise builds a fallback record quoting the word;
  - `getMockChatResponse`, which picks one of four canned replies by case-insensitive keyword tests in a fixed priority order.
- **The server router** (`src/server/routers/demo.ts`, module `DemoRouter`):
  - `getDefinition`, with its own six-word dictionary and the same fallback text;
  - `sendMessage`, with the same keyword priority, which echoes the caller's conversation id.
- **The demo tooltip** (`src/components/LiveDemo/DemoTooltip.tsx`, module `LiveDemo`):
  - the positioning effect, which clamps the tooltip into the viewport with a 20-pixel margin;
  - the definition-fetching effect, whose `cancelled` flag discards a result that arrives after the word changed;
  - the chat send handler, which guards against blank input and double sends, appends the user's turn, and then appends the reply.

Two helper modules support these:

- `Wrappers` holds `Option`, which stands for an optional TypeScript value.
- `Text` holds the JavaScript string operations the source relies on, over `seq<char>`:
  - `toLowerCase`;
  - `includes`, as an existential substring test;
  - `trim`, with the ECMAScript whitespace set;
  - the decimal rendering of `Date.now()` inside a template literal.

## How the model is built

Both resolvers and both chat responders are pure functions, as in the source.

For the chat responder there is also an independent, table-driven reference: `KeywordPriority` with `FirstMatchingKind` and `Classify`. `ChatResponseFollowsPriority` proves that the if/else chain agrees with it. `ClassifyByPriority` then states the priority order as four if-and-only-ifs.

The router repeats the mock's dictionary entries and reply templates word for word, as the source does.

- `RouterEntryIsMockEntry`, `FallbacksAgree` and `AnswersMatchMockReplies` prove that the repeated text is identical.
- `ResolversAgreeOutsideExtraWords` and `SendMessageMatchesMock` lift this to the two procedures.

The tooltip is imperative, so it is modelled as state that methods change:

- its React state becomes the fields of class `DemoTooltip`;
- each run of the fetching effect is a `FetchEffect` object holding its own `cancelled` flag;
- `ComputeSmartPosition` reassigns `left` and `top` through the four `if`s of the source.

`ComputeSmartPosition` has a partner: `Clamp`, a raise-then-lower reference. The method is proved equal to `Clamp` on each axis, and the bounds are stated in its `ensures`.

The send handler is split at its `await`:

- `BeginSend` runs up to the call;
- `FinishSend` runs when the reply arrives or the call fails;
- `HandleSendMessage` composes the two when nothing happens in between.

`Valid()` keeps four facts:

- the tooltip's current fetch is for its current word and has not been cancelled, which is what lets `StaleDefinitionIsIgnored` tell the old lookup from the new one;
- the transcript is well formed: user turns are non-blank, and each assistant turn follows a user turn;
- `isLoading` holds exactly while no definition is shown;
- while a send is pending, the last turn is the user's.

Both resolvers are functions, so equal inputs always give equal records. No separate lemma states this.

### Clamp order within an axis

The two axes are clamped independently, but within one axis the clamps run in order.

- The bottom clamp (src/components/LiveDemo/DemoTooltip.tsx:57-59) runs after the top clamp and can undo it. A tooltip taller than the viewport height minus 40 pixels ends above the top margin.
- The right clamp wins over the left clamp in the same way.

`Clamp` lets the upper bound win, as the code does. `OversizedTooltipKeepsBottomMargin` exhibits this.

### Behaviour worth knowing

Keywords are matched as substrings of the lower-cased message.

- A message such as "What is a synonym for confused?" contains "use" inside "confused", so it gets the usage reply, not the related-words reply.
- `KeywordInsideAnotherWord` states this.

## Model

| member | source | states |
|---|---|---|
| Text.Lower | src/lib/mockTrpc.ts:131 | lower-casing keeps the length, maps each character through `LowerChar`, and leaves no upper-case ASCII letter |
| Text.LowerIdempotent | src/lib/mockTrpc.ts:131 | lower-casing twice is the same as lower-casing once |
| Text.LowerOfLower | src/lib/mockTrpc.ts:131 | an already lower-case string is left as it is |
| Text.Contains | src/lib/mockTrpc.ts:153-158 | `includes`: the pattern occurs at some index of the text; `ContainsInfix` and `NotContainsMissingChar` characterise it |
| Text.NotContainsMissingChar | src/lib/mockTrpc.ts:153-157 | `includes` fails when the pattern holds a character the text lacks |
| Text.ContainsInfix | src/lib/mockTrpc.ts:154 | a string embedded in a concatenation is found by `includes` |
| Text.Trim | src/components/LiveDemo/DemoTooltip.tsx:76 | `trim` yields the empty string exactly when the input is all whitespace, and otherwise starts and ends with a non-whitespace character |
| Text.TrimStart | src/components/LiveDemo/DemoTooltip.tsx:76 | the result is a suffix of the input; the removed prefix is all whitespace; the result does not start with whitespace |
| Text.TrimEnd | src/components/LiveDemo/DemoTooltip.tsx:76 | the result is a prefix of the input; the removed suffix is all whitespace; the result does not end with whitespace |
| Text.DecimalString | src/lib/mockTrpc.ts:165 | the rendering of a clock reading is a non-empty string of decimal digits |
| Text.ParseDecimalString | src/lib/mockTrpc.ts:165 | reading the rendered digits back gives the original number |
| Text.DecimalStringInjective | src/lib/mockTrpc.ts:165 | distinct numbers render as distinct strings |
| MockTrpc.FallbackDefinition | src/lib/mockTrpc.ts:136-143 | the fallback keeps the caller's spelling as `word`; its definition and both of its examples contain the word in double quotes |
| MockTrpc.GetMockDefinition | src/lib/mockTrpc.ts:127-144 | a hit on the lower-cased word returns the entry verbatim; a miss returns a record with the original word quoted in its definition and its examples; there are always two examples; the record's word equals the input up to letter case |
| MockTrpc.MockDefinitions | src/lib/mockTrpc.ts:4-125 | the fifteen entries, text for text; `DictionaryWellFormed`, `MockHeadwords` and `TwoExamplesEach` state its shape |
| MockTrpc.DictionaryWellFormed | src/lib/mockTrpc.ts:4-125 | every entry is filed under its own headword, every key is lower case, and every entry has two examples |
| MockTrpc.HeadwordsAreKeys | src/lib/mockTrpc.ts:4-125 | each entry's `word` field equals its key |
| MockTrpc.KeysAreLowerCase | src/lib/mockTrpc.ts:4-125 | every key is lower case, so a lower-cased lookup can reach it |
| MockTrpc.MockHeadwords | src/lib/mockTrpc.ts:4-125 | the dictionary's keys are exactly the fifteen headwords |
| MockTrpc.LowerCaseHeadwords | src/lib/mockTrpc.ts:4-125 | each of the fifteen headwords is lower case |
| MockTrpc.TwoExamplesEach | src/lib/mockTrpc.ts:4-125 | every entry carries exactly two examples |
| MockTrpc.DictionaryEntriesReachable | src/lib/mockTrpc.ts:127-134 | looking up any key returns that key's entry |
| MockTrpc.CaseVariantsAgree | src/lib/mockTrpc.ts:131-134 | two spellings that differ only in letter case resolve to the same entry |
| MockTrpc.NeuralCaseVariants | src/lib/mockTrpc.ts:131-134 | "Neural" and "NEURAL" both resolve to the "neural" entry |
| MockTrpc.UnknownWordKeepsSpelling | src/lib/mockTrpc.ts:136-137 | for an unknown word, case variants get different records, each carrying its own spelling |
| MockTrpc.UsageReply | src/lib/mockTrpc.ts:154 | the usage reply opens with "Her" |
| MockTrpc.DeferralReply | src/lib/mockTrpc.ts:160 | the deferral reply opens with "Tha" |
| MockTrpc.RelatedReply | src/lib/mockTrpc.ts:156 | the related-words template; `FixedReplyOpenings` and `FixedRepliesIgnoreWord` state what sets it apart |
| MockTrpc.EtymologyReply | src/lib/mockTrpc.ts:158 | the etymology template; `FixedReplyOpenings` and `FixedRepliesIgnoreWord` state what sets it apart |
| MockTrpc.FixedReplyOpenings | src/lib/mockTrpc.ts:156-158 | the related-words and etymology replies open with "Som" and "Thi" |
| MockTrpc.GetMockChatResponse | src/lib/mockTrpc.ts:146-167 | the reply is never empty, and the conversation id starts with "demo_" and has more after it |
| MockTrpc.ReplyText | src/lib/mockTrpc.ts:153-161 | every template is non-empty |
| MockTrpc.ReplyTextDeterminesKind | src/lib/mockTrpc.ts:153-161 | the four templates are pairwise distinct, whatever the subject word |
| MockTrpc.MentionsEither | src/lib/mockTrpc.ts:153-158 | a group of two keywords is mentioned exactly when one of its keywords occurs |
| MockTrpc.ClassifyByPriority | src/lib/mockTrpc.ts:153-161 | the usage kind is chosen exactly when "example" or "use" occurs; related exactly when neither occurs but "synonym" or "similar" does; etymology exactly when none of those four occurs but "origin" or "etymology" does; deferral exactly when none of the six occurs |
| MockTrpc.ChatResponseFollowsPriority | src/lib/mockTrpc.ts:150-161 | the responder's if/else chain gives the template of the table-driven classification |
| MockTrpc.ChatReplyIffKind | src/lib/mockTrpc.ts:150-161 | the reply equals a given template exactly when the message is of that kind |
| MockTrpc.UsageBeatsOtherKeywords | src/lib/mockTrpc.ts:153-154 | a message with "example" or "use" gets the usage reply, whatever other keywords it holds |
| MockTrpc.FixedRepliesIgnoreWord | src/lib/mockTrpc.ts:155-158 | the related-words and etymology replies do not depend on the subject word |
| MockTrpc.UsageReplyMentionsWord | src/lib/mockTrpc.ts:154 | the usage reply quotes the subject word or "this word", and contains "The " followed by the word or "concept" |
| MockTrpc.DeferralReplyMentionsWord | src/lib/mockTrpc.ts:160 | the deferral reply quotes the subject word or "this topic" |
| MockTrpc.RepliesQuoteWord | src/lib/mockTrpc.ts:153-161 | a present, non-empty word is quoted in the usage and deferral replies |
| MockTrpc.RepliesUsePlaceholders | src/lib/mockTrpc.ts:153-161 | an absent or empty word gives "this word" and "The concept" in the usage reply, and "this topic" in the deferral reply |
| MockTrpc.UsagePlaceholders | src/lib/mockTrpc.ts:154 | with no usable word, the usage reply quotes "this word" and contains "The concept" |
| MockTrpc.ChatResponseIgnoresMessageCase | src/lib/mockTrpc.ts:150 | only the lower-cased message matters: lower-casing it first changes nothing |
| MockTrpc.ConversationId | src/lib/mockTrpc.ts:165 | the id built from the clock; `ConversationIdEncodesClock` and `ConversationIdsDistinct` state that it encodes the reading and tells readings apart |
| MockTrpc.ConversationIdEncodesClock | src/lib/mockTrpc.ts:165 | the conversation id is "demo_" followed by digits that read back as the clock value |
| MockTrpc.ConversationIdsDistinct | src/lib/mockTrpc.ts:165 | any two calls made at different clock readings get different conversation ids, whatever their messages and words |
| MockTrpc.ExampleQuestionAsksForUsage | src/lib/mockTrpc.ts:153 | "can you give an example?", in any letter case, mentions a usage keyword |
| MockTrpc.ExampleQuestionGetsUsageReply | src/lib/mockTrpc.ts:153-154 | asked for an example about a word, the responder sends the usage reply, which quotes that word |
| MockTrpc.SynonymQuestionAsksForRelated | src/lib/mockTrpc.ts:153-155 | "what's a synonym?" mentions no usage keyword but a related-words keyword |
| MockTrpc.SynonymQuestionGetsRelatedReply | src/lib/mockTrpc.ts:155-156 | "what's a synonym?" gets the related-words reply |
| MockTrpc.GreetingGetsDeferralReply | src/lib/mockTrpc.ts:159-160 | "hello" matches no keyword and gets the deferral reply |
| MockTrpc.KeywordInsideAnotherWord | src/lib/mockTrpc.ts:153-154 | "what is a synonym for confused?" gets the usage reply, because "confused" contains "use" |
| DemoRouter.GenericDefinition | src/server/routers/demo.ts:70-77 | the router's fallback keeps the caller's word and has two examples |
| DemoRouter.GetDefinition | src/server/routers/demo.ts:64-77 | a hit on the lower-cased word returns the router's entry; a miss returns a record for the original word with two examples |
| DemoRouter.Definitions | src/server/routers/demo.ts:13-62 | the six entries; `RouterHeadwords` and `RouterEntryIsMockEntry` state its keys and that each entry is the mock's |
| DemoRouter.RouterHeadwords | src/server/routers/demo.ts:13-62 | the router's dictionary holds exactly six headwords |
| DemoRouter.RouterEntryIsMockEntry | src/server/routers/demo.ts:13-62 | every router entry is also a mock entry, identical under the same key |
| DemoRouter.FallbacksAgree | src/server/routers/demo.ts:70-77 | the router's fallback record is the mock's, character for character |
| DemoRouter.ResolversAgreeOutsideExtraWords | src/server/routers/demo.ts:64-77 | the two resolvers return the same record for every word except the mock's nine extra headwords |
| DemoRouter.ResolversDifferOnExtraWords | src/server/routers/demo.ts:64-77 | on those nine headwords the router returns the fallback while the mock returns its entry, and the two records differ |
| DemoRouter.SendMessage | src/server/routers/demo.ts:87-107 | `sendMessage` returns the caller's conversation id unchanged |
| DemoRouter.UsageAnswer | src/server/routers/demo.ts:95 | the server's usage template; `AnswersMatchMockReplies` proves it is the mock's for every word |
| DemoRouter.RelatedAnswer | src/server/routers/demo.ts:97 | the server's related-words template; `AnswersMatchMockReplies` proves it is the mock's |
| DemoRouter.EtymologyAnswer | src/server/routers/demo.ts:99 | the server's etymology template; `AnswersMatchMockReplies` proves it is the mock's |
| DemoRouter.DeferralAnswer | src/server/routers/demo.ts:101 | the server's deferral template; `AnswersMatchMockReplies` proves it is the mock's for every word |
| DemoRouter.AnswersMatchMockReplies | src/server/routers/demo.ts:94-101 | each of the server's four reply templates equals the mock's for every subject word |
| DemoRouter.SendMessageMatchesMock | src/server/routers/demo.ts:91-102 | `sendMessage` replies exactly as `getMockChatResponse` does, for every message and word |
| LiveDemo.Clamp | src/components/LiveDemo/DemoTooltip.tsx:51-69 | the reference clamp never exceeds the upper bound; it reaches the lower bound when the bounds are ordered; it keeps a value already between them; the upper bound wins when they cross |
| LiveDemo.ComputeSmartPosition | src/components/LiveDemo/DemoTooltip.tsx:47-71 | the four sequential clamps equal `Clamp` on each axis; the tooltip's bottom and right edges always keep the margin; its top and left edges keep it when the tooltip fits; an anchor already inside the margin box is kept; the transform is always "translateX(-50%)" |
| LiveDemo.AnchorNearTheTop | src/components/LiveDemo/DemoTooltip.tsx:47-71 | a 300×200 tooltip anchored at (400, 10) in a 1000×800 viewport moves to (400, 20) |
| LiveDemo.OversizedTooltipKeepsBottomMargin | src/components/LiveDemo/DemoTooltip.tsx:52-59 | a tooltip taller than the viewport minus both margins is pinned to the bottom margin and overflows the top one |
| LiveDemo.SendEnabled | src/components/LiveDemo/DemoTooltip.tsx:76 | the guard shared by the handler and the send button; `SendEnabledIffNotBlank` states when it passes |
| LiveDemo.SendEnabledIffNotBlank | src/components/LiveDemo/DemoTooltip.tsx:76 | the send guard passes exactly for input that is not all whitespace while no send is pending |
| LiveDemo.ExchangeKeepsTranscriptWellFormed | src/components/LiveDemo/DemoTooltip.tsx:79-85 | appending a non-blank user turn and then a reply keeps a transcript well formed |
| LiveDemo.FetchEffect.constructor | src/components/LiveDemo/DemoTooltip.tsx:24-27 | a new run of the fetching effect remembers its word and starts not cancelled |
| LiveDemo.FetchEffect.Cleanup | src/components/LiveDemo/DemoTooltip.tsx:34-36 | the effect's cleanup sets `cancelled` |
| LiveDemo.DemoTooltip.constructor | src/components/LiveDemo/DemoTooltip.tsx:14-27 | the initial state: no chat mode, empty input and transcript, no data, loading, not sending, the anchor as position; and a first, uncancelled fetch for the word |
| LiveDemo.DemoTooltip.ChangeWord | src/components/LiveDemo/DemoTooltip.tsx:24-37 | a different word cancels the previous fetch and starts a fresh one; the same word reruns nothing; nothing else changes |
| LiveDemo.DemoTooltip.ChangePosition | src/components/LiveDemo/DemoTooltip.tsx:39-72 | a new anchor is recorded and the invariant is kept |
| LiveDemo.DemoTooltip.Unmount | src/components/LiveDemo/DemoTooltip.tsx:34-36 | unmounting cancels the pending fetch |
| LiveDemo.DemoTooltip.DefinitionArrives | src/components/LiveDemo/DemoTooltip.tsx:27-32 | a result for a cancelled effect changes neither `data` nor `isLoading`; otherwise it is shown and loading ends |
| LiveDemo.DemoTooltip.CompleteFetch | src/components/LiveDemo/DemoTooltip.tsx:27-32 | the same, with the result being the mock's record for the effect's word |
| LiveDemo.DemoTooltip.Reposition | src/components/LiveDemo/DemoTooltip.tsx:40-72 | with no rendered tooltip the position is unchanged; otherwise it is the clamped position, keeping the bottom and right margins |
| LiveDemo.DemoTooltip.OpenChat | src/components/LiveDemo/DemoTooltip.tsx:174-175 | the follow-up button turns chat mode on |
| LiveDemo.DemoTooltip.SetChatInput | src/components/LiveDemo/DemoTooltip.tsx:189 | typing replaces the chat input |
| LiveDemo.DemoTooltip.BeginSend | src/components/LiveDemo/DemoTooltip.tsx:74-81 | blank input or a pending send leaves the transcript, input and pending flag unchanged; otherwise the user's turn is appended, the input cleared and the send marked pending |
| LiveDemo.DemoTooltip.FinishSend | src/components/LiveDemo/DemoTooltip.tsx:83-88 | a reply is appended after the user's turn unless the call failed; either way the send is no longer pending |
| LiveDemo.DemoTooltip.HandleSendMessage | src/components/LiveDemo/DemoTooltip.tsx:74-89 | a rejected send changes nothing; an accepted one clears the input, ends not pending, and appends exactly the user's turn and the reply, the reply left out only on failure, with earlier turns unchanged |
| LiveDemo.StaleDefinitionIsIgnored | src/components/LiveDemo/DemoTooltip.tsx:24-37 | after the word changes, the old lookup's result is discarded and the new lookup's result is shown |

## Left out

- Timing: the `setTimeout` delays (src/lib/mockTrpc.ts:129,148; src/server/routers/demo.ts:10,88) are not modelled. Both resolvers are synchronous functions.
- The clock: `Date.now()` (src/lib/mockTrpc.ts:165) becomes the parameter `now`.
- React scheduling: effects and handlers do not run on their own. They are methods the caller invokes in the order React would.
- Measurements: `getBoundingClientRect`, `window.innerWidth` and `window.innerHeight` are parameters of `Reposition`. A null `tooltipRef` is an absent `rect`.
- `onClose`, `preventDefault` and all rendering are not modelled. This includes the loading spinner, the examples list, the transcript view and framer-motion. From the markup, only the follow-up button, the chat input's `onChange` (`SetChatInput`) and the send button's disabled condition are modelled; that condition is the same guard as the handler's.
- Failure: a rejected chat call is the flag `failed`. The error it rethrows after clearing `isSending` is not modelled.
- Input validation: zod and the tRPC procedure wiring become the Dafny types of the inputs. A non-string input cannot be expressed.
- Lower-casing is ASCII only, not Unicode-aware `toLowerCase`.
- Lookups: the tables are true maps. The JavaScript quirk that `mockDefinitions["constructor"]` is truthy on a plain object is not modelled.
- Pixel coordinates are exact `real`s, not IEEE doubles.
- LiveDemo.DemoTooltip.DefinitionArrives: the callback takes the resolved record as an argument and does not say which lookup produced it. `CompleteFetch` is the path that passes the mock's record for the effect's word.
- LiveDemo.StaleDefinitionIsIgnored: the two resolved records are arguments, not lookups of the two words. The scenario is about the `cancelled` guard, not the record's content.
- LiveDemo.DemoTooltip.Unmount: the invariant `Valid()` no longer holds after unmounting, since the tooltip is gone.
- src/app/page.tsx, src/components/FeaturePlayground.tsx, src/components/LiveDemo/DemoEditor.tsx and src/server/routers/_app.ts are not part of this model. They hold markup, animation, DOM selection handling and router wiring.

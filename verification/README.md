# Symptom decoder and assistant chat, modelled in Dafny

The landing page of a biodecoding therapist has two pieces of logic. The
rest of the page is presentation.

- **The symptom decoder** (`handleDecode` in App.tsx):
  - The visitor types a symptom; a blank symptom is ignored.
  - The symptom is lower-cased and matched against an ordered chain of
    fifteen unanchored regular expressions, one per body area.
  - The first expression that matches picks a canned analysis and a
    follow-up question. When none matches, a default pair is used.
  - After a timer, the card shows the analysis, the question and a fixed
    disclaimer, joined by blank lines. The card splits the text back on
    blank lines to display it.
  - A "new query" button clears the card.
- **The assistant chat** (components/AIChat.tsx and
  services/geminiService.ts):
  - The transcript opens with a greeting.
  - `handleSend` appends the user's turn and hands the text to
    `sendMessageToGemini`, then appends the reply.
  - The service creates one chat session lazily and reuses it.
  - It turns every outcome into a string: a missing API key gives a
    maintenance notice, an empty reply gives a request to rephrase, and an
    exception gives a network notice.

## Modules

- `Wrappers`: `Option`.
- `Text`: JavaScript's `trim`, `toLowerCase` on the capitals of ASCII and
  Latin-1 (which include the Spanish ones), substring search, `split` and
  `join`.
- `Pattern`: a matcher for the regular-expression subset the chain uses:
  literal characters and `[...]` classes, unanchored. It is proved equal to
  "one of the expression's literal keywords occurs in the text".
- `Prose`: the canned texts. Each is cut into short lines, so that "contains
  no line break" is cheap to prove.
- `Bundles`: the sixteen categories and their texts.
- `Decoder`: the chain, the result text and the card's three-part view.
- `DecoderFacts`: first-match semantics, case-insensitivity, rule shadowing,
  and the round trip from result text to view.
- `DecoderExamples`: classifications of concrete symptoms.
- `DecoderWidget`: the decoder card as a state machine of typing, clicking,
  the timer firing and resetting, with its invariant.
- `GeminiService`: the lazily created session and `sendMessageToGemini`.
  The SDK is an oracle.
- `AIChat`: the chat window as a state machine, and a full turn composed
  with the service.

Facts of the code that shape the model:

- The page builds no link of its own from the decoder result.
- Replies are not streamed: `sendMessageToGemini` resolves to one string.
- A canned answer has only an analysis and a question.
- With no API key, the reply is the maintenance notice.
- A thrown error gives the network-interruption notice, and an empty or
  absent reply text gives the request to rephrase.

## Model

| member | source | states |
|---|---|---|
| Text.Trim | App.tsx:114 | the trimmed text is a slice of the input with only whitespace cut from either end, and when non-empty it starts and ends with a non-whitespace character |
| Text.TrimEmptyIffBlank | App.tsx:114 | `symptom.trim()` is empty exactly when every character of the symptom is whitespace |
| Text.LowerChar | App.tsx:117 | each ASCII or Latin-1 capital becomes its own small letter, 32 code points above it; every other character is left as it is |
| Text.LowerSpec | App.tsx:117 | the modelled lower-casing keeps the length, lower-cases each character in place, leaves no capital, and is the identity on text without capitals |
| Text.SpanishCapitals | App.tsx:117 | "ABCDEFGHIJKLMNOPQRSTUVWXYZÁÉÍÓÚÑÜ" lower-cases to "abcdefghijklmnopqrstuvwxyzáéíóúñü" |
| Text.LowerIdempotent | App.tsx:117 | lower-casing an already lower-cased symptom changes nothing |
| Text.Split | App.tsx:547-554 | `split('\n\n')` yields at least one piece; joining the pieces with the separator gives the text back, no piece contains the separator, and each cut is at the leftmost occurrence: none starts inside a piece that a separator follows |
| Text.SplitJoin | App.tsx:547-554 | splitting a join of pieces that lack the separator's first character gives the pieces back |
| Pattern.MatchAtIff | App.tsx:124-169 | the matcher succeeds at a position exactly when the characters there spell the expression's sequence of literal and class atoms |
| Pattern.MatchesIffKeywordOccurs | App.tsx:124-169 | an unanchored alternative matches exactly when one of its literal keywords occurs somewhere in the text |
| Pattern.PlainMatches | App.tsx:124 | an alternative without a class matches exactly when it occurs as a substring |
| Bundles.AnalysisOneLine | App.tsx:120-168 | no analysis paragraph, default included, contains a line break |
| Bundles.HookOneLine | App.tsx:121-168 | no follow-up question, default included, contains a line break |
| Prose.DisclaimerOneLine | App.tsx:173 | the closing disclaimer contains no line break |
| Decoder.Rank | App.tsx:124-169 | each of the fifteen rules has its position in the chain, and the default comes after all of them |
| Decoder.RuleTableShape | App.tsx:124-166 | the rule table, copied alternative by alternative in chain order, gives every rule at least one alternative and the default none, and no alternative is empty |
| Decoder.Classify | App.tsx:117-169 | the chosen rule fires on the lower-cased symptom and no earlier rule does; the default is chosen exactly when no rule fires |
| Decoder.ResultText | App.tsx:173 | a category's result text splits on blank lines into exactly its analysis, its question and the disclaimer |
| Decoder.DecoderResult | App.tsx:117-173 | the text handed to the timer splits into the analysis and question of the category the chain selects, then the disclaimer |
| Decoder.View | App.tsx:547-554 | the card shows a footer only when a question part exists and the footer part is non-empty |
| DecoderFacts.FiresIffKeywordOccurs | App.tsx:124-169 | a rule fires exactly when some keyword of one of its alternatives occurs in the lower-cased text |
| DecoderFacts.ClassifyIgnoresCase | App.tsx:117 | a symptom and its lower-cased form select the same category |
| DecoderFacts.FiringRuleBoundsChoice | App.tsx:124-169 | if a rule fires, the chosen category is that rule or an earlier one, never the default |
| DecoderFacts.ChosenIff | App.tsx:124-169 | a rule is chosen exactly when it fires and no earlier rule fires |
| DecoderFacts.KeywordBoundsChoice | App.tsx:124-169 | if a keyword of a rule's alternative occurs in the lower-cased symptom, the choice is that rule or an earlier one |
| DecoderFacts.MenteSelectsHead | App.tsx:124 | any symptom containing "mente", such as an adverb ending in "-mente", selects the head rule |
| DecoderFacts.VertigoNeverReachesEars | App.tsx:154-157 | unaccented "vertigo" contains "ver", so the eyes rule always shadows the ears rule's `vertigo` alternative |
| Decoder.ThreeParagraphsRoundTrip | App.tsx:547-554 | three one-line paragraphs joined by blank lines split back into exactly those three, and the card shows each in its place |
| DecoderFacts.ResultRoundTrip | App.tsx:173 | every category's result text splits into its analysis, its question and the disclaimer, all three shown |
| DecoderExamples.ShoutedHeadache | App.tsx:117-124 | "ME DUELE LA CABEZA" and its lower-case form both select the head rule |
| DecoderExamples.AdverbSelectsHead | App.tsx:124 | "frecuentemente" selects the head rule through "mente" |
| DecoderExamples.UnaccentedVertigoSelectsEyes | App.tsx:154 | "vertigo" selects the eyes rule |
| DecoderExamples.AccentedVertigoSelectsEars | App.tsx:157 | "vértigo" escapes every earlier rule and selects the ears rule |
| DecoderExamples.KneeSelectsBones | App.tsx:145 | "Rodilla" selects the bones rule |
| DecoderExamples.AnxietyFallsThrough | App.tsx:120-121 | "Ansiedad" matches no rule and gets the default answer |
| DecoderWidget.Init | App.tsx:82-84 | the card starts with an empty symptom, not decoding, and no result |
| DecoderWidget.HandleDecode | App.tsx:113-116 | a blank symptom changes nothing; any other starts decoding with the answer computed from the symptom at click time |
| DecoderWidget.TimerFires | App.tsx:171-174 | when the timer fires, decoding stops and the pending answer becomes the result |
| DecoderWidget.NewQuery | App.tsx:567 | "new query" clears both the result and the symptom |
| DecoderWidget.Step | App.tsx:502-521 | an event the card does not offer leaves it unchanged; typing replaces the symptom |
| DecoderWidget.StepInv | App.tsx:113-174 | every event keeps the card's invariant: the flag is up exactly while a timer is armed, the form stays up while decoding, and every answer is the decoding of a non-blank symptom |
| DecoderWidget.RunInv | App.tsx:113-174 | every sequence of events keeps the invariant |
| DecoderWidget.BlankClickIsNoOp | App.tsx:114 | the button accepts a whitespace-only symptom, but the click is then a no-op, and only then |
| DecoderWidget.DecodingLocksButtons | App.tsx:520 | while decoding, neither the decode nor the reset button can be used, and the timer is armed |
| DecoderWidget.EditsDoNotChangePending | App.tsx:117-171 | edits made while the timer is armed do not change the answer it will deliver |
| DecoderWidget.ClickThenTickShowsDecoding | App.tsx:171-173 | a click followed by the timer shows the decoding of the symptom as it was at the click |
| DecoderWidget.ResetRestoresInit | App.tsx:567 | resetting a card that shows a result returns it to its initial state |
| DecoderWidget.ShownResultHasThreeParts | App.tsx:547-554 | on the page, every shown result is non-empty, hides the form, and has a question and a footer |
| GeminiService.Load | services/geminiService.ts:8-10 | the module loads with its key, no session and an empty call log |
| GeminiService.InitializeChat | services/geminiService.ts:12-56 | an existing session is returned as it is; otherwise a session is created and stored only if creation returns; if it throws, nothing changes |
| GeminiService.SendMessageToGemini | services/geminiService.ts:58-71 | a missing key gives the maintenance notice and touches nothing; every reply is one of the three fixed notices or the session's own non-empty text |
| GeminiService.MissingKeyShortCircuits | services/geminiService.ts:59-61 | with no key, no session is created, no message is sent, and the reply is the maintenance notice |
| GeminiService.InitializeChatIdempotent | services/geminiService.ts:13 | once a session exists, a further call returns it and creates nothing |
| GeminiService.FailedCreationIsRetried | services/geminiService.ts:63-70 | a failed creation gives the network notice, leaves no session, and the next call tries to create one again |
| GeminiService.ReplyMapping | services/geminiService.ts:64-66 | non-empty text is returned verbatim, empty or absent text gives the rephrase request, an exception gives the network notice, and exactly one call goes to the session |
| GeminiService.SendKeepsSingleSession | services/geminiService.ts:10-17 | one call keeps "at most one session ever, every message sent to it", adding at most one call-log entry at the end |
| GeminiService.ConverseKeepsSingleSession | services/geminiService.ts:10-17 | over any sequence of calls, at most one session is ever created, every message goes to it, and the call log only grows |
| AIChat.Init | components/AIChat.tsx:14-18 | the window starts with just the greeting, an empty input, and not loading |
| AIChat.HandleSend | components/AIChat.tsx:35-45 | a blank input changes nothing and sends nothing; otherwise the untrimmed input is appended as a user turn and sent, the input is cleared, and loading starts |
| AIChat.ReceiveReply | components/AIChat.tsx:47-48 | the reply is appended as a model turn and loading stops |
| AIChat.Step | components/AIChat.tsx:130-141 | typing replaces the input; Enter sends a non-blank input even while loading; the button sends only when nothing is loading; a blank input is never sent; an arriving reply is appended and stops loading |
| AIChat.BlankSendIsNoOp | components/AIChat.tsx:36 | nothing is sent exactly when the input trims to nothing |
| AIChat.EnterIgnoresLoading | components/AIChat.tsx:130-141 | while loading, Enter still sends a non-blank input, though the button does nothing |
| AIChat.RunAppendOnly | components/AIChat.tsx:35-49 | no sequence of events removes or changes an earlier turn |
| AIChat.GreetingStaysFirst | components/AIChat.tsx:14-16 | the greeting is the first turn of every reachable transcript |
| AIChat.Turn | components/AIChat.tsx:35-49 | a turn with a blank input changes neither the window nor the service |
| AIChat.TurnAppendsExchange | components/AIChat.tsx:38-48 | a non-blank turn appends exactly the user's text and the service's reply to that text, clears the input and stops loading |
| AIChat.MissingKeyTurn | components/AIChat.tsx:45-47 | with no key, every non-blank turn is answered with the maintenance notice and the service is untouched |

## Left out

- Layout, animation, scrolling and styling of the page. Also left out:
  navigation, the contact links (the WhatsApp and mail constants) and the
  components DynamicArt, FluidBackground and GlitchText. None of them has
  logic the decoder or the chat depend on.
- The 1800 ms delay of the decoder's timer. The timer is one abstract
  `Tick` event; only the order of events matters to the card.
- The SDK, the network and the system prompt given when the session is
  created. The SDK is an oracle: whether creation succeeds, and what a
  call returns, are parameters. The prompt's text affects nothing the
  service computes.
- `console.error` logging in the service. It has no effect on state or
  replies.
- Interleaving of overlapping sends. The arrival of a reply is an event
  that is not tied to the request that caused it. Any arrival clears the
  loading flag, as the source does after every awaited reply.
- AIChat.Turn: states only the blank case in its own contract. The
  non-blank case is stated by `AIChat.TurnAppendsExchange` and
  `AIChat.MissingKeyTurn`.
- GeminiService.Converse: its contract states only the length of the
  reply list and that the key is kept. The single-session history is
  stated by `GeminiService.ConverseKeepsSingleSession`.
- Text.LowerChar: lower-cases only the capitals of ASCII and Latin-1, not
  all of Unicode's case mapping. Other capitals, such as Greek, Cyrillic or
  'Ł', are left as they are. Mappings that change the length are not
  modelled either. JavaScript turns U+0130 'İ' into "i̇", which is two code
  units long. So "CARDİ" selects the heart rule in JavaScript, because
  "cardi̇" contains "cardi". The model leaves 'İ' as it is and gives the
  default answer.
- Pattern.MatchesIffKeywordOccurs: only literal characters and `[...]`
  classes are modelled. No expression in the chain uses anything else.
- The `isError` field of a chat message. No code path ever sets it.
- The decoder card's logic is stated for any decoding function. Only
  `DecoderWidget.ShownResultHasThreeParts` uses the page's own decoder.

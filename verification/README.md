# A verified model of the WhatsApp conversation machine

This project models, in Dafny 4.11, the parts of the platform whose guarantees hold
over whole runs rather than inside one function: the bot engine and the runtime that
drives it over Redis and the leads table, the pipeline that merges an untrusted bot
configuration, the idempotent upload of customer files, and six smaller timed
mechanisms. `dafny verify dfyconfig.toml` checks everything.

## How it is organised

| file | subject |
|---|---|
| `BotModel`, `BotEngine`, `EngineLoops` | settings, the engine's turn, its scans as loops |
| `EngineLaws`, `InputLaws`, `AnswerLaws`, `ReplyLaws`, `Questionnaire` | what a turn guarantees, reachable states, how a message is read, which answers can be stored, what the customer is told, the questionnaire as a form |
| `BotConfig`, `ConfigModels`, `ConfigLaws`, `ValidationLaws` | validation of a configuration: readers, in-place model validators, fixpoint and image, and each field from input to output |
| `BotBuilder`, `BuilderLaws`, `MergeLaws`, `KeyLaws`, `StepKeyLaws` | slugging, de-duplication, merge, salvage, the gate; a change from input to output; keys from names; step keys through validation |
| `ChatKeys` | Redis key texts and the chat reference |
| `Conversations` | one operation on the whole world: chats, tenant index, leads, funnel events |
| `ConversationStore`, `LeadTable`, `BotRuntime` | the same operations step by step on expiring Redis keys and lead rows, proved to do to them what `Conversations` says |
| `RuntimeTimes`, `RuntimeListing`, `RuntimeLeads`, `RuntimeRows`, `RuntimeOutcomes`, `RuntimeHandoff`, `RuntimeScenario`, `RuntimeTranscript`, `RuntimeKeys` | theorems over every run of operations, and two runs in full |
| `UploadProtocol`, `MediaDoor`, `UploadIds` | interleaved uploads; the endpoint itself; both in terms of the ids as they are sent |
| `RateLimiter`, `BookingReminders`, `BookingWorkers`, `AuthStore`, `SendChain`, `DecryptRecovery`, `Reconnect` | the timed and bounded mechanisms |
| `Text`, `OrderedDict`, `Intervals`, `Wrappers` | shared vocabulary |

Code that works by changing things is a class with methods: each method's `ensures`
equates the whole new state with a function of the old one, and the theorems are about
runs of those functions. The central link is `BotRuntime.Runtime`: its ghost field
`chats` holds one abstract chat per conversation (whole transcript, one deadline), and
`Valid()` says that the hash, the transcript key (last 200 lines) and the unread counter
of every chat agree with it, expiry included. The intermediate states of a turn, in
which they do not agree, are the predicates `HeardAs` and `MidTurn`. `Runtime.Execute`
carries out a whole run and ends in the state the theorems speak of
(`RuntimeKeys.KeysAfterRun`); so do the `Execute` methods of the limiter, the reminders, the
credential store, the sender, its sent-message log, the recovery and the reconnecting session.

The main results: `RuntimeLeads.LifecycleHolds` and `FinishedLeadsStay`, `RuntimeRows.RowsFollowStates`,
`RuntimeOutcomes.StoredEngineIsReached`, `RuntimeTimes.RetentionHolds`, `RuntimeListing.ListedExactlyWhen`,
`RuntimeHandoff.HandoffEndsOnlyBy` and `SilenceLasts`, `RuntimeTranscript.TranscriptAndBadge`,
`RuntimeKeys.StoredKeys` and `KeyTextsAreLocal`, `Questionnaire.CompletesOnLastAcceptedAnswer`,
`AnswerLaws.AcceptedAnswersAreTheFittingOnes`, `ReplyLaws.OpenStepIsAsked`,
`ValidationLaws.ValidatesExactlyWhen`, `ConfigLaws.ValidationIsFixpoint`, `MergeLaws.EditIs` and `RebuildIs`,
`UploadIds.SameFileExactlyWhen`, `UploadProtocol.EveryObjectIsAccountedFor`, `RateLimiter.SixteenInAnyInterval`,
`BookingReminders.OncePerAppointment`, `AuthStore.WritesCarryAllEarlierChanges`,
`SendChain.SendRateIsBounded`.

## Where the code and its documentation part

The lemmas named are about the code as it is.

- A message that is blank and carries no usable file goes to the menu from every phase
  (`EngineLaws.BlankTurnDropsAnswers`, `PausedChat`): it reopens a handed-off engine
  state and never skips an optional file step.
- A choice option made of digits is read as a position, not as its text
  (`EngineLaws.TypedOptionIsItself` gives the exact condition, `DigitOptionsSwap` an input).
- A conversation handed back to the bot while the engine state is handed off answers every
  message that is not blank with the handoff notice (`RuntimeHandoff.HandedBackChatIsStuck`).
- A handoff keyword that is a single digit takes every phone number with that digit; any other
  keyword leaves a way to write the number (`AnswerLaws.PhoneCanBeSaid`).
- The abandoned sweep closes whatever chat a lead points at, even one a human is busy with
  or that has a newer lead (`RuntimeHandoff.AbandonedSweepOn`, `OlderLeadClosesBusyChat`, and a
  run that gets there: `RuntimeScenario.BusyChatIsClosed`).
- A tenant's index can expire while one of its chats waits for a human, and then the stale
  sweep does not see that chat (`RuntimeTimes.WaitingChatOutlivesIndex`, and a run that gets
  there: `RuntimeScenario.WaitingChatIsPassedBy`). A live chat is listed if
  and only if its tenant's index has not expired since some operation stored the chat
  (`RuntimeListing.ListedExactlyWhen`); within 72 hours of its last activity it is
  (`RuntimeTimes.RetentionHolds`).
- Making a key of a key is the identity only if the cut to 40 characters left no underscore or
  space at the end (`BuilderLaws.SlugIsStable`, `CutKeyIsUnstable`); a de-duplicated key breaks
  the 40-character pattern exactly when the suffix does not fit (`FreshNameFits`,
  `FreshNameFitsExactlyWhen`), and then even
  a full rebuild is refused (`CollidingLongNamesSinkRebuild`).
- A conversation id ending in `:log`, `:unread` or `:outbox` makes the hash of one chat the
  key of another (`ChatKeys.CollisionsWithinTenant`, both directions).
- Approving a booking again sends again after seven days
  (`BookingReminders.QueuedUnlessRecent`, `ReapprovalAfterAWeekSendsAgain`).
- Sending an old message id again does not refresh it in the loop guard
  (`SendChain.RepeatIsNotRefreshed`).
- The one-minute cooldown on clearing a user's sessions does not protect a user named beside
  another one (`DecryptRecovery.CompanionIsClearedAgain`). Within the minute after a user's own
  clear the user is cleared again if and only if a companion's failures ask for it
  (`HitWithinTheMinuteExactlyWhen`).
- A booking moved within seven days of a confirmation or reminder gets none for its new time
  (`BookingReminders.QueuedForTheCurrentTime`, both directions, `MovedBookingIsNotRemindedAgain`,
  and a run: `MovedBookingKeepsItsOldReminder`).
- A worker that takes five days or more from reading a booking to queueing its message can queue
  it twice; a quicker one cannot, in any interleaving (`BookingWorkers.SlowWorkerConfirmsAgain`,
  `OncePerAppointmentInterleaved`).
- Step keys handed out as distinct collide after validation, which strips them, exactly when they
  are the same but for spaces at the end (`StepKeyLaws.KeysStayDistinctExactlyWhen`); the longer one
  is then a name cut at 40 characters, and the flow is refused (`SpaceCutSinksFlow`).
- The builder strips `message` from every flow it receives, so a flow text can only be kept by
  not rewriting the flow (`BuilderLaws.IncomingFlowsCarryNoMessage`); names in `deleteFlows` are
  not made into keys before they are looked up (`DeletedNamesAreNotMadeKeys`).
- A working copy that names no handoff keywords has none after a merge, while a configuration
  validated without any gets four defaults (`BuilderLaws.RebuildFromNothing`,
  `ConfigLaws.DefaultKeywordsAreClean`).

One disagreement is between two constants in words only: the expiry of a chat the bot drives is
72 hours, and the comment on the policy says about 30 minutes
(backend/app/services/conversation_state.py:58, :564).

## Model

| member | source | states |
|---|---|---|
| EngineLaws.TurnShape | backend/app/services/bot_engine.py:116-199 | every turn answers exactly once, never goes back to the greeting phase, carries a lead exactly when it completes one, and each event determines the next state |
| EngineLaws.InFlowShape | backend/app/services/bot_engine.py:202-280 | the state, event and lead of a turn in a questionnaire: it is entered only from the menu at step 0, and otherwise stays or moves one step within the same flow (what is asked: `ReplyLaws.OpenStepIsAsked`) |
| EngineLaws.PausedChat | backend/app/services/bot_engine.py:161-169 | a handed-off state stays as it is exactly while messages are not blank |
| ReplyLaws.OpenStepIsAsked | backend/app/services/bot_engine.py:236-280 | whenever a turn enters or advances a questionnaire, its one reply puts the step the new state is at: it begins with that step's question and ends with the hint, with every option numbered or every wanted kind of file named |
| ReplyLaws.QuestionIsPut | backend/app/services/bot_engine.py:501-522 | the text of a question with the hint has every option of a choice on a line with its number |
| ReplyLaws.FileQuestionIsPut | backend/app/services/bot_engine.py:501-522 | the text of a file question names every kind the owner accepts, and the skip exactly for an optional one |
| ReplyLaws.RejectionIsExplained | backend/app/services/bot_engine.py:226-234 | a rejected answer leaves the state and is answered with the owner's error, else the reason, else the default, and the hint |
| ReplyLaws.MenuIsShown | backend/app/services/bot_engine.py:161-175 | whenever a turn leads to the menu without an event the reply shows every line of the numbered menu, under the owner's greeting, the default greeting or the nudge, as the turn came there |
| ReplyLaws.CompletionIsTold | backend/app/services/bot_engine.py:525-529 | a completing turn replies with the flow's own text, else the default |
| ReplyLaws.HandoffIsTold | backend/app/services/bot_engine.py:532-552 | a handoff replies with the text of the flow picked, or of the first handoff flow where a keyword asked, else with the owner's escalation text, else the default |
| ReplyLaws.BookingIsTold | backend/app/services/bot_engine.py:284-299 | a booking replies with the flow's own text, else the prompt, with the demo link in the place of the placeholder |
| ReplyLaws.LinkIsPut | backend/app/services/bot_engine.py:284-299 | replacing a text's one placeholder by a link leaves the rest as it is |
| ReplyLaws.PhraseNames | backend/app/services/bot_engine.py:400-407 | the phrase for a list of kinds contains the label of each |
| ReplyLaws.MimeTable | backend/app/services/bot_engine.py:60-104 | which stored type counts as which kind, and which word names it |
| EngineLaws.BlankTurnDropsAnswers | backend/app/services/bot_engine.py:161-163 | a blank message without media goes to the menu from every phase |
| EngineLaws.CompletesExactlyWhen | backend/app/services/bot_engine.py:202-249 | completion happens if and only if an unblocked message is an accepted answer to the last step; and then the lead is everything collected plus that answer |
| EngineLaws.HandsOffExactlyWhen | backend/app/services/bot_engine.py:171-197 | a human is asked for if and only if a handoff keyword is not overruled by a menu keyword or an awaited file, or a handoff flow is picked |
| EngineLaws.BooksExactlyWhen | backend/app/services/bot_engine.py:254-299 | booking is asked for if and only if an unblocked message picks a booking flow at the menu |
| EngineLaws.AbandonsExactlyWhen | backend/app/services/bot_engine.py:161-219 | a questionnaire is left for the menu if and only if the message is blank, a menu keyword, or the open step no longer exists |
| EngineLaws.AcceptedFits | backend/app/services/bot_engine.py:305-391 | an accepted answer satisfies its step: at least 9 digits, an email shape, a listed option, a file of an accepted kind in its normal form, or an allowed skip |
| AnswerLaws.StoresMeans | backend/app/services/bot_engine.py:171-249 | a turn stores an answer under the open step if and only if no keyword or blank takes the message and the step accepts it as that answer |
| AnswerLaws.AcceptedAnswersAreTheFittingOnes | backend/app/services/bot_engine.py:171-391 | over everything a customer can send, the open step can store an answer if and only if it fits the step and is an attachment or can be put in words that no keyword takes |
| AnswerLaws.WithoutHandoffKeywordsOnlyMenuWordsShadow | backend/app/services/bot_engine.py:305-391 | where the owner set no handoff keywords, an answer is storable if and only if it fits and is an attachment, a phone number, a choice, a text that is no menu keyword, or a skip for which some skip word is none |
| AnswerLaws.PhoneCanBeSaid | backend/app/services/bot_engine.py:339-343 | under validated settings a phone number can be given if and only if no handoff keyword is one of its digits |
| AnswerLaws.ChoiceCanBeSaid | backend/app/services/bot_engine.py:350-362 | an option can be chosen if and only if no keyword takes its own text, when that is no number, or its place's numeral with some zeros in front |
| EngineLaws.TurnKeepsConsistent | backend/app/services/bot_engine.py:202-249 | for validated settings one turn keeps the reachable-state invariant, and a completed lead answers every step and nothing else |
| EngineLaws.ReachableIsConsistent | backend/app/services/bot_engine.py:116-249 | in every conversation the open flow and step exist and exactly the earlier steps are answered with fitting answers |
| EngineLaws.PrintedNumberPicksItsFlow | backend/app/services/bot_engine.py:454-498 | the numeral printed on menu line i picks flow i, and no other numeral does |
| EngineLaws.PrintedNumberPicksItsOption | backend/app/services/bot_engine.py:345-362 | the numeral printed on option line i answers with option i |
| EngineLaws.TypedOptionIsItself | backend/app/services/bot_engine.py:345-362 | typing an option answers with it if and only if it is not a digit string pointing elsewhere |
| EngineLaws.DigitOptionsSwap | backend/app/services/bot_engine.py:353-357 | of the options "2" and "1", typing either gives the other |
| EngineLaws.LabelPicksFirstMatch | backend/app/services/bot_engine.py:474-479 | a typed label picks flow i if and only if i is the first flow whose label contains it or is contained in it |
| InputLaws.PickIs | backend/app/services/bot_engine.py:454-480 | a text picks flow i if and only if it is a number and i + 1, or no number and flow i is the first whose label holds it or is held by it, ignoring case |
| InputLaws.MenuWordIs | backend/app/services/bot_engine.py:607-620 | a message is a menu word if and only if it is, ignoring case, one of the owner's non-blank words, or of the stock ones where the owner has none |
| InputLaws.HandoffWordIs | backend/app/services/bot_engine.py:623-631 | a message asks for a human if and only if some stretch of it is, ignoring case, one of the owner's non-blank words |
| InputLaws.SkipWordIs | backend/app/services/bot_engine.py:410-413 | a text is a skip word if and only if it is one of them, ignoring case |
| InputLaws.EmailIs | backend/app/services/bot_engine.py:62-63 | a text has the shape of an address if and only if it is a name, an at sign, a host, a dot and an ending, each without white space or at signs |
| Text.OnlyDigitsJoin | backend/app/services/bot_engine.py:339-343 | the digits of a text are the digits of its parts, in order |
| EngineLaws.NormalizedState | backend/app/services/bot_engine.py:555-580 | states the engine wrote are read back unchanged, each ill-typed field and a negative index takes its default, and what is no object is a new conversation |
| EngineLaws.UntrustedStateIsTamed | backend/app/services/bot_engine.py:142-197 | from any client state one turn leads to the clean menu, a handoff, or a step that exists |
| EngineLoops.FlowNamed | backend/app/services/bot_engine.py:444-451 | the scan finds the first flow of that name, none for an empty one |
| EngineLoops.PickFlowAt | backend/app/services/bot_engine.py:454-480 | the scan is the pick by number or first matching label that the laws speak of |
| EngineLoops.MenuListText | backend/app/services/bot_engine.py:492-498 | the printed menu is the numbered lines in flow order |
| EngineLoops.IsMenuKeyword | backend/app/services/bot_engine.py:607-620 | true exactly when the whole message equals some non-blank keyword, ignoring case |
| EngineLoops.IsHandoffKeyword | backend/app/services/bot_engine.py:623-631 | true exactly when the message contains some non-blank keyword, ignoring case |
| Questionnaire.PickingStarts | backend/app/services/bot_engine.py:254-280 | picking a lead flow with steps at the menu starts it at its first step |
| Questionnaire.SheetIsExact | backend/app/services/bot_engine.py:236-238 | the filled form maps each answered step's key to its answer and nothing else |
| Questionnaire.RunIsTheForm | backend/app/services/bot_engine.py:202-249 | over any on-topic inputs, rejected ones included, the engine state is the form filled in so far |
| Questionnaire.CompletesOnLastAcceptedAnswer | backend/app/services/bot_engine.py:202-249 | a questionnaire of n steps completes on exactly the n-th accepted answer and the lead is the filled form |
| Questionnaire.FromMenuToLead | backend/app/services/bot_engine.py:171-280 | from the menu, picking a lead flow and answering it, rejected answers interleaved, completes if and only if the n-th answer is accepted, and hands over the form |
| ConfigModels.CleanKeywordList | backend/app/models/bot_builder.py:410-427 | the loop yields the stripped non-blank keywords, first of each ignoring case, or refuses |
| ConfigModels.CleanChoiceOptions | backend/app/models/bot_builder.py:104-130 | the loop yields the stripped distinct options when 2 to 12 of at most 80 characters remain, or refuses |
| ConfigModels.CleanFileKinds | backend/app/models/bot_builder.py:130-148 | the loop yields the distinct known kinds, every kind for an empty list, or refuses an unknown one |
| ConfigModels.StepModel.EnforceOptionsRule | backend/app/models/bot_builder.py:104-148 | the step object is refused or left with exactly the lists its type may carry |
| ConfigModels.FlowModel.EnforceFlowRules | backend/app/models/bot_builder.py:171-188 | the flow object is refused for repeated keys, a lead flow without steps or a handoff flow with steps, and otherwise loses a service name it cannot have |
| ConfigModels.CountsDistinctKeys | backend/app/models/bot_builder.py:184-186 | the set of step keys is as large as the list if and only if the keys are distinct |
| ConfigLaws.DedupeLaws | backend/app/models/bot_builder.py:410-427 | what is kept is distinct, comes from the list, and stands for every item of it |
| ConfigLaws.ValidatedIsWithin | backend/app/models/bot_builder.py:62-252 | everything that validates satisfies every bound; what each field becomes is `ValidationLaws.ValidatesExactlyWhen` |
| ConfigLaws.WithinIsFixed | backend/app/models/bot_builder.py:62-252 | everything within the bounds validates to itself |
| ConfigLaws.ValidationIsFixpoint | backend/app/models/bot_builder.py:104-252 | re-validating the dump of a validated configuration returns it unchanged |
| ConfigLaws.BoundsAreTheImage | backend/app/models/bot_builder.py:62-252 | the image of validation: a configuration satisfies the bounds if and only if some input validates to it |
| ValidationLaws.ValidatesExactlyWhen | backend/app/models/bot_builder.py:62-252 | an input validates to a configuration if and only if that reads as the input, field by field, and is within the bounds: given texts stripped, absent ones their default, null refused or none, types, flags, language and minutes as given, flows under their names and steps in their order, lists as the first of each kind in order |
| ValidationLaws.FlowIff | backend/app/models/bot_builder.py:151-188 | a flow validates to another if and only if label, type, steps, service name and message read as given and are within the bounds |
| ValidationLaws.StepIff | backend/app/models/bot_builder.py:62-148 | a step validates to another if and only if its eight fields read as given and are within the bounds |
| ValidationLaws.ProfileIff | backend/app/models/bot_builder.py:191-226 | a profile validates to another if and only if its eight fields read as given and are within the bounds |
| ValidationLaws.KeywordsIff | backend/app/models/bot_builder.py:410-427 | a keyword list is cleaned to another if and only if that holds the first of each kind, ignoring case, in order, stripped, and fits |
| ValidationLaws.ReadingIs | backend/app/models/bot_builder.py:410-427 | the positions that are kept are exactly those of the first non-blank item of each kind, and they determine the list |
| ValidationLaws.AcceptIff | backend/app/models/bot_builder.py:130-148 | an accept list is cleaned to another if and only if every non-blank item names a kind and that holds the first of each, or all four kinds where none is named |
| ValidationLaws.KeyAlphabet | backend/app/models/bot_builder.py:28-40 | the key alphabet and length, character by character |
| ConfigLaws.ValidatedIsWellFormed | backend/app/models/bot_builder.py:171-188 | a validated configuration has the distinct keys and non-empty lead flows the engine relies on |
| ConfigLaws.DefaultKeywordsAreClean | backend/app/models/bot_builder.py:228-230 | the default handoff keywords, which no validator looks at, satisfy the bounds |
| BotBuilder.FreeIndex | backend/app/services/bot_builder_ai.py:455-458 | the suffix search ends, at the first free suffix |
| BotBuilder.UniqueName | backend/app/services/bot_builder_ai.py:455-458 | the loop hands out the plain key if free and otherwise the first free `_2, _3, ...` |
| BotBuilder.TakenIsBounded | backend/app/services/bot_builder_ai.py:456-457 | distinct suffixes below i that are taken number at most the names seen, so the search cannot go on |
| BotBuilder.NormalizeSteps | backend/app/services/bot_builder_ai.py:443-462 | the loop is the step-by-step fold the laws speak of |
| BotBuilder.NormalizeFlows | backend/app/services/bot_builder_ai.py:465-488 | the loop is the flow-by-flow fold the laws speak of |
| BotBuilder.SalvageFlows | backend/app/services/bot_builder_ai.py:491-504 | the loop keeps what `SalvageLaws` says |
| BotBuilder.MergeChanges | backend/app/services/bot_builder_ai.py:266-352 | the step-by-step merge, from the coerced working copy on, yields `Changed`, of which `MergeLaws` says field by field what it is |
| MergeLaws.EditIs | backend/app/services/bot_builder_ai.py:286-349 | an edit yields a configuration if and only if every field of it has arrived, from the change where that gives the field and from the working copy where not, and it is within the bounds |
| MergeLaws.RebuildIs | backend/app/services/bot_builder_ai.py:286-352 | the same for a rebuild: the flows are the incoming ones that validate, and a missing name or prompt is filled in |
| MergeLaws.EditOfAConfiguration | backend/app/services/bot_builder_ai.py:297-323 | each of the eight profile fields, the handoff keywords and the published flag of a validated configuration stays where an edit does not give it and is what validation reads of the given one where it does |
| MergeLaws.RebuildOfAConfiguration | backend/app/services/bot_builder_ai.py:325-338 | the same for a rebuild, where a name given as null or blank becomes the stock name and such a prompt is written around the name |
| MergeLaws.EditKeepsOrder | backend/app/services/bot_builder_ai.py:303-317 | after an edit the menu has the old flows in their order, then the new ones in the order of the change, less the deleted ones |
| MergeLaws.GateSalvages | backend/app/services/bot_builder_ai.py:340-352 | the gate of a rebuild is validation of the flows that validate on their own |
| KeyLaws.KeyIsMadeFrom | backend/app/services/bot_builder_ai.py:429-440 | before the cut a key is the stripped, lowered name with each run of other characters as one underscore and none at the ends, every other character kept in order |
| KeyLaws.KeyIsCut | backend/app/services/bot_builder_ai.py:437-440 | a key is that text up to its fortieth character, and "flow" exactly where nothing is left |
| KeyLaws.FlowsAreNamed | backend/app/services/bot_builder_ai.py:472-482 | each flow of a change comes under the key of its own name, or, where an earlier flow has it, under that with the first free number from 2 |
| KeyLaws.StepsAreNamed | backend/app/services/bot_builder_ai.py:450-461 | each step with a usable key gets the key made of it, told apart in the same way from the steps before it only |
| KeyLaws.IncomingFlowIs | backend/app/services/bot_builder_ai.py:483-488 | a flow of a change keeps its label, type and service name and loses unknown fields and its message; its steps keep all but unknown fields and keys |
| BuilderLaws.SlugIsKey | backend/app/services/bot_builder_ai.py:429-440 | every key is non-empty, at most 40 long, in the alphabet, with no double underscore |
| BuilderLaws.SlugIsStable | backend/app/services/bot_builder_ai.py:429-440 | making a key of a key changes nothing if and only if it does not end in an underscore or a space |
| BuilderLaws.SlugSettles | backend/app/services/bot_builder_ai.py:429-440 | making a key twice always settles |
| BuilderLaws.CutKeyIsUnstable | backend/app/services/bot_builder_ai.py:440 | an input whose key changes when made a key again |
| BuilderLaws.FreshNameLaws | backend/app/services/bot_builder_ai.py:455-458 | a name handed out is new, in the alphabet, and the plain key when that is free |
| BuilderLaws.FreshNameFits | backend/app/services/bot_builder_ai.py:455-482 | a de-duplicated key satisfies the key pattern if and only if its suffix fits in 40 characters |
| BuilderLaws.FreshNameFitsExactlyWhen | backend/app/services/bot_builder_ai.py:455-482 | for up to 97 names before it a key fits if and only if it is free, at most 37 long, or 38 long with a free suffix up to 9 |
| BuilderLaws.StepsLoseNothing | backend/app/services/bot_builder_ai.py:443-462 | one step out per object in, in order, under pairwise distinct keys |
| BuilderLaws.FlowsLoseNothing | backend/app/services/bot_builder_ai.py:465-488 | one flow out per object in, in order, under pairwise distinct names |
| BuilderLaws.SalvageLaws | backend/app/services/bot_builder_ai.py:491-504 | salvage keeps exactly the flows that validate on their own and is the identity when all do |
| BuilderLaws.SalvageKeepsOrder | backend/app/services/bot_builder_ai.py:497-504 | what salvage keeps stands in its order, at exactly the positions of the valid flows |
| BuilderLaws.MergeIsWithin | backend/app/services/bot_builder_ai.py:340-352 | whatever a merge returns satisfies every bound |
| BuilderLaws.RebuildKeepsTheValidFlows | backend/app/services/bot_builder_ai.py:286-352 | a full rebuild succeeds if and only if the merged profile and keywords validate and the salvaged flows fit in number and name, and returns precisely the salvaged flows |
| BuilderLaws.RebuildFromNothing | backend/app/services/bot_builder_ai.py:286-352 | over an empty working copy a rebuild of flows alone succeeds if and only if the salvaged flows fit in number and name, and has no handoff keywords |
| BuilderLaws.EditIsAllOrNothing | backend/app/services/bot_builder_ai.py:286-349 | an incremental edit is applied if and only if every flow, every name, the profile and the keywords of the merged configuration validate |
| BuilderLaws.EditTouchesOnlyNamedFlows | backend/app/services/bot_builder_ai.py:303-317 | an incremental edit changes only the flows it names or deletes |
| BuilderLaws.CollidingLongNamesSinkRebuild | backend/app/services/bot_builder_ai.py:478-504 | two flows whose names become the same long key sink a whole rebuild |
| BuilderLaws.MissingProfileTextsAreFilled | backend/app/services/bot_builder_ai.py:325-338 | a rebuild fills whichever of name and prompt is blank, and the profile then validates if and only if the other fields, a given name, and the given or made-up prompt do |
| BuilderLaws.IncomingFlowsCarryNoMessage | backend/app/services/bot_builder_ai.py:406-422 | no flow of a change carries a customer message |
| BuilderLaws.DeletedNamesAreNotMadeKeys | backend/app/services/bot_builder_ai.py:313-317 | deleting a name that is no flow's key leaves the flow whose key it would become |
| StepKeyLaws.CollideExactlyWhen | backend/app/models/bot_builder.py:70-102 | two handed-out keys are stripped to one if and only if they are the same but for spaces at the end, and the longer is then a name cut at 40 characters |
| StepKeyLaws.KeysStayDistinctExactlyWhen | backend/app/models/bot_builder.py:184-188 | of steps that each validate, the keys handed out stay distinct if and only if no two are the same but for spaces at the end |
| StepKeyLaws.SpaceCutSinksFlow | backend/app/services/bot_builder_ai.py:443-504 | a flow whose two distinct handed-out keys validate to one is refused, so a rebuild drops it |
| ChatKeys.SplitInvertsChatRef | backend/app/services/abandoned_sweep.py:57-72 | a reference splits into a business and a conversation if and only if it was built from them, the business non-empty and colon-free, the conversation non-empty |
| ChatKeys.TenantKeysAreApart | backend/app/services/conversation_state.py:132-166 | no key of one tenant is a key of another, whatever the conversation ids |
| ChatKeys.CollisionsWithinTenant | backend/app/services/conversation_state.py:132-166 | within a tenant two keys collide if and only if one conversation id is the other followed by that key's suffix |
| ChatKeys.OrdinaryKeysAreDistinct | backend/app/services/conversation_state.py:132-166 | for ids without such endings distinct keys have distinct texts |
| ChatKeys.OwnsOnlyOwnKeys | backend/app/services/conversation_state.py:169-175 | the ownership check accepts a key if and only if it is the tenant's own |
| ConversationStore.RecentGrows | backend/app/services/conversation_state.py:405-452 | trimming after every line keeps the last 200 of all lines |
| ConversationStore.Store.SetState | backend/app/services/conversation_state.py:203-219 | the state is stored, the hash gets 72 hours whatever its status, the chat is listed |
| ConversationStore.Store.SetStatus | backend/app/services/conversation_state.py:288-308 | status and activity are stored and all existing keys and the index get the expiry of the new status |
| ConversationStore.Store.ApplyTtl | backend/app/services/conversation_state.py:552-594 | waiting and human persist, closed gets 30 days, anything else 72 hours, on existing keys only |
| ConversationStore.Store.AppendMessage | backend/app/services/conversation_state.py:405-452 | one line more, the last 200 kept, every key of the chat on the expiry of its current status |
| ConversationStore.Store.IncrUnread | backend/app/services/conversation_state.py:482-506 | the counter is one more and expires as the status says |
| ConversationStore.Store.MarkRead | backend/app/services/conversation_state.py:509-519 | the counter is gone |
| ConversationStore.Store.ResetConversation | backend/app/services/conversation_state.py:232-262 | hash, transcript and counter are gone and the chat is unlisted |
| ConversationStore.Store.AppendReply | backend/app/services/conversation_state.py:368-402 | the reply is queued for 72 hours and on the transcript, the chat on the expiry of its status |
| ConversationStore.Store.ListConversations | backend/app/services/conversation_state.py:313-365 | the listed chats whose hash exists and has the status asked for, each once, newest activity first, the listed ones without a hash pruned from the index |
| LeadTable.Leads.CreateLead | backend/app/services/leads/crud.py:32-68 | a new row in progress under a fresh id with the chat's reference |
| LeadTable.Leads.UpdateLead | backend/app/services/leads/crud.py:71-110 | the row is progressed if it is the tenant's: answers, step and clock, as `RuntimeLeads.RecordTurnLaws` and `RuntimeRows.RowsFollowStates` spell out |
| LeadTable.Leads.CompleteLead | backend/app/services/leads/crud.py:113-153 | the row gets the final answers and leaves progress if it is the tenant's |
| LeadTable.Leads.ActiveLeadByConversation | backend/app/services/leads/query.py:188-213 | the chat's lead with the latest activity |
| LeadTable.Leads.SweepAbandonedLeads | supabase/migrations/0031_sweeps_skip_demo.sql:29-71 | exactly the in-progress leads idle for over an hour outside the demo tenants are flipped, with one event and one returned reference each |
| BotRuntime.Runtime.RunTurn | backend/app/services/bot_runtime.py:117-343 | one inbound message does to every key and row what `InboundTurn` says, and keeps the keys of every chat consistent |
| BotRuntime.Runtime.RecordSilently | backend/app/services/bot_runtime.py:141-163 | the silent path records the line, the badge and the newest lead's clock and nothing else |
| BotRuntime.Runtime.Answer | backend/app/services/bot_runtime.py:181-343 | the answering path, despite the 72 hours put on the hash mid-turn, ends with all keys on the clock of the final status |
| BotRuntime.Runtime.PersistTurn | backend/app/services/bot_runtime.py:208-285 | the lead and event writes of one turn are `RecordTurn`, whose rows `RuntimeLeads.RecordTurnLaws` spells out |
| BotRuntime.Runtime.SaveTurn | backend/app/services/bot_runtime.py:242-301 | between the engine state write and the first reply the hash alone is off its clock |
| BotRuntime.Runtime.AppendReplies | backend/app/services/bot_runtime.py:318-323 | a non-empty series of replies puts every key back on its status' clock |
| BotRuntime.Runtime.SetConversationStatus | backend/app/api/dashboard.py:488-508 | an owner status write is `SetStatus` on the chat |
| BotRuntime.Runtime.ReplyToConversation | backend/app/api/dashboard.py:511-532 | an owner reply is `OwnerReply` on the chat |
| BotRuntime.Runtime.OpenConversation | backend/app/api/dashboard.py:411-441 | opening a chat zeroes its badge and nothing else |
| BotRuntime.Runtime.SetLeadStatus | backend/app/services/leads/crud.py:256-317 | an owner's lead status changes that tenant's row and its activity clock, no chat |
| BotRuntime.Runtime.SweepBusiness | backend/app/services/stale_handoff_sweep.py:118-167 | one tenant's pass closes exactly the listed, open, idle chats, prunes the index, and counts them |
| BotRuntime.Runtime.StaleHandoffSweep | backend/app/services/stale_handoff_sweep.py:111-169 | the pass over the tenants is `StaleSweep` and returns the number of chats it closed |
| BotRuntime.Runtime.AbandonedLeadSweep | backend/app/services/abandoned_sweep.py:75-121 | the pass is `AbandonedSweep` and returns the number of flipped leads |
| BotRuntime.Runtime.Execute | backend/app/services/bot_runtime.py:117-343 | any sequence of operations leaves keys, index and rows as the run of their one-piece forms |
| RuntimeTimes.RetentionHolds | backend/app/services/conversation_state.py:552-594 | after every operation of every run each chat's deadline is the one its status calls for, counted from its last activity, and recent chats are listed |
| RuntimeTimes.WhatRetentionMeans | backend/app/services/conversation_state.py:49-62 | a chat survives a wait if and only if it is with a human or within its window, unchanged |
| RuntimeTimes.WaitingChatOutlivesIndex | backend/app/services/conversation_state.py:594-603 | the index expires while a waiting chat lives on and the stale sweep then passes it by |
| RuntimeListing.ListedAfter | backend/app/services/conversation_state.py:594-603 | after an operation a live chat is listed if and only if the operation stored it, or it was listed and the index has not expired |
| RuntimeListing.ListedExactlyWhen | backend/app/services/conversation_state.py:594-603 | in every run a live chat is listed if and only if its tenant's index has not expired since some operation stored it |
| RuntimeListing.SweepReachesExactlyWhen | backend/app/services/stale_handoff_sweep.py:118-167 | an open idle chat is closed by a pass if and only if its tenant is swept and its index has not expired since the chat was stored |
| RuntimeKeys.StoredKeys | backend/app/services/conversation_state.py:405-594 | where the keys refine a run, every existing key of a chat carries the one expiry of its status, the transcript key the last 200 lines of the history, the counter key the unseen messages |
| RuntimeKeys.KeysAfterRun | backend/app/services/conversation_state.py:405-594 | a runtime that executes any run of operations ends with exactly those keys |
| RuntimeKeys.ContentIsStored | backend/app/services/conversation_state.py:132-155 | the hash, transcript and counter keys of a valid runtime hold what the world keeps under them |
| RuntimeKeys.KeyTextsAreLocal | backend/app/services/conversation_state.py:132-175 | a run of other tenants' operations changes nothing under any text that is the text of one of a tenant's keys |
| RuntimeLeads.LifecycleHolds | backend/app/services/bot_runtime.py:192-301 | in every run a saved state carries a lead id if and only if it is in a flow, and that lead is this chat's own, open, and nobody else's |
| RuntimeLeads.StoredLeadsAreApart | backend/app/services/bot_runtime.py:295-301 | no two conversations store the same lead |
| RuntimeLeads.EachLeadEndsOnce | backend/app/services/bot_runtime.py:348-411 | each lead is started, completed and handed off at most once, and only a sweep event may follow completion or handoff |
| RuntimeLeads.FinishedLeadsStay | backend/app/services/bot_runtime.py:371-411 | once a lead was completed or handed off nothing of its row but status and clock ever changes again, in any run |
| RuntimeLeads.CompletionFinalisesOpenLead | backend/app/services/bot_runtime.py:234-240 | a completing turn has an open lead, stores exactly the engine's answers in it, and closes the chat |
| RuntimeLeads.RecordTurnLaws | backend/app/services/bot_runtime.py:208-285 | what one turn does to leads and events, event by event, and to the row it writes: a started row is titled after the flow, a step turn leaves the row with the answers and the step of the new state, and every written row has the clock of the turn |
| RuntimeLeads.TurnIsWritten | backend/app/services/bot_runtime.py:348-411 | the row a turn writes, by the state and event it leads to |
| RuntimeRows.RowsFollowStates | backend/app/services/bot_runtime.py:192-301 | in every run the lead of a stored in-flow state has exactly the answers and the step of that state |
| RuntimeRows.NewestIs | backend/app/services/leads/query.py:188-213 | the newest lead of a chat is the one of its own rows with the latest activity, the latest row among equals |
| RuntimeRows.SilentTurnMovesOneClock | backend/app/services/bot_runtime.py:141-163 | a message kept for a human sets the clock of the chat's newest lead to now and changes no other row, answer, status or event |
| RuntimeOutcomes.AnsweredMessage | backend/app/services/bot_runtime.py:117-343 | an answered message leaves the chat with the engine state, status and replies of the engine's turn on the state it met, and every other chat as it was |
| RuntimeOutcomes.StoredEngineIsReached | backend/app/services/bot_runtime.py:117-301 | in every run the stored engine state is the one the engine reaches over the messages it answered since the chat last started over |
| RuntimeOutcomes.RealLinkIsSent | backend/app/services/bot_runtime.py:303-317 | where a booking link is given the booking reply carries it in the place of the placeholder, and no demo link |
| RuntimeOutcomes.OwnerStatusStands | backend/app/api/dashboard.py:488-508 | an owner status write sets status and clock and leaves engine state, lines, badge, leads and other chats |
| RuntimeOutcomes.OwnerReplyOnlySpeaks | backend/app/api/dashboard.py:511-532 | an owner reply adds one line and moves the clock, and changes neither status, engine state, badge, leads nor other chats |
| RuntimeOutcomes.LeadStatusStands | backend/app/services/leads/crud.py:256-317 | an owner's lead status changes status and clock of that row if it is the tenant's, and nothing else |
| RuntimeOutcomes.AbandonedSweepMarks | supabase/migrations/0031_sweeps_skip_demo.sql:29-71 | a row is abandoned by a pass if and only if it is in progress, idle for over an hour and of no demo tenant; nothing else of it changes |
| RuntimeOutcomes.AbandonedSweepLogs | supabase/migrations/0031_sweeps_skip_demo.sql:29-71 | a pass appends one swept event for each row it abandons and none else |
| RuntimeOutcomes.StaleSweepCloses | backend/app/services/stale_handoff_sweep.py:111-169 | a chat the pass closes keeps its engine state and badge and gets the closing notice as its last line and thirty days |
| RuntimeOutcomes.ClosableMeans | backend/app/services/stale_handoff_sweep.py:60-167 | a chat is due for closing exactly when it is listed, open and idle for over an hour |
| RuntimeHandoff.SilenceWhileHuman | backend/app/services/bot_runtime.py:141-163 | while a human is on a chat that is not idle nothing is answered, and engine state, status and leads stay except for the clocks |
| RuntimeHandoff.RepliesPerMessage | backend/app/services/bot_runtime.py:303-323 | a message kept for a human gets no reply, one that revives an idle handoff gets the closing notice first and one more, any other exactly one |
| RuntimeHandoff.HandoffTurnLeavesChatWaiting | backend/app/services/bot_runtime.py:242-269 | a turn that asks for a human leaves the chat waiting with a lead attached |
| RuntimeHandoff.StaleSweepOn | backend/app/services/stale_handoff_sweep.py:111-169 | a chat is closed by the pass if and only if its tenant is swept and it is listed, open and idle over an hour |
| RuntimeHandoff.AbandonedSweepOn | backend/app/services/abandoned_sweep.py:99-121 | a chat is closed by the pass if and only if one of its in-progress leads is idle over an hour |
| RuntimeHandoff.HandoffEndsOnlyBy | backend/app/services/bot_runtime.py:117-163 | a chat stays with the human through an operation if and only if it is not an owner release, a message after an idle hour, or a sweep that finds the chat or a lead idle |
| RuntimeHandoff.SilenceLasts | backend/app/services/bot_runtime.py:117-163 | over any run of operations that do not end the handoff the engine state never moves and messages get no reply |
| RuntimeHandoff.EngineNeverLeavesHandoff | backend/app/services/bot_runtime.py:117-179 | in every run without owner status writes the engine is never run on a handed-off state |
| RuntimeHandoff.HandedBackChatIsStuck | backend/app/services/bot_engine.py:166-169 | a chat handed back to the bot answers non-blank messages with the handoff notice and stays |
| RuntimeHandoff.OlderLeadClosesBusyChat | backend/app/services/abandoned_sweep.py:99-115 | an older idle lead closes a chat in which the customer has just written to a human |
| RuntimeScenario.BusyChatIsClosed | backend/app/services/abandoned_sweep.py:99-115 | a run from the empty state in which that happens: a questionnaire begun, back to the menu, a human asked for, a message every half hour |
| RuntimeScenario.APlotExists | backend/app/services/abandoned_sweep.py:99-115 | a configuration within the bounds of validation, and messages, for both runs |
| RuntimeScenario.WaitingChatIsPassedBy | backend/app/services/conversation_state.py:594-603 | a run from the empty state after which a chat waits for a human, idle for three days, and the stale sweep does nothing |
| RuntimeHandoff.StoredEnginesAreConsistent | backend/app/services/bot_engine.py:202-249 | with fixed validated settings every stored engine state of every run satisfies the reachable-state invariant |
| RuntimeHandoff.RunIsLocal | backend/app/services/conversation_state.py:132-175 | a run of other tenants' operations leaves a tenant's chats, transcripts, counters, index and leads as they were |
| RuntimeTranscript.TranscriptAndBadge | backend/app/services/bot_runtime.py:142-190 | in every run a chat's lines are its history since it last started over or expired, in order, and its badge counts customer messages since the owner last opened it |
| UploadProtocol.StepKeeps | backend/app/api/internal_media.py:125-262 | every step of every upload keeps the protocol's invariant |
| UploadProtocol.OneRowPerMessage | backend/app/api/internal_media.py:184-208 | in every interleaving an id that counts has at most one row, whose object exists with the content and size of an upload of that id (ids as sent: `UploadIds.SameFileExactlyWhen`) |
| UploadProtocol.ReceiptsAreRows | backend/app/api/internal_media.py:224-262 | every successful response is the receipt of a row of that message, and the branch without a winner is never taken |
| UploadProtocol.ReceiptsAgree | backend/app/api/internal_media.py:128-145 | all successful uploads under one id that counts are told the same file (ids as sent: `UploadIds.SameFileExactlyWhen`) |
| UploadProtocol.EveryObjectIsAccountedFor | backend/app/api/internal_media.py:209-232 | an object exists if and only if a row, an upload at work, or a failed deletion accounts for it, and only one of them does |
| UploadProtocol.NoOrphansAtRest | backend/app/api/internal_media.py:209-232 | once all uploads have answered the objects are the recorded files and those whose deletion failed |
| UploadProtocol.RecordedFilesStay | backend/app/api/internal_media.py:209-232 | no step changes a recorded row or its object |
| UploadProtocol.NoUploadIsBlocked | backend/app/api/internal_media.py:125-262 | an upload's own next step always takes it closer to its answer, whatever fails |
| UploadProtocol.OthersStayPut | backend/app/api/internal_media.py:125-262 | no upload's step moves another upload |
| UploadProtocol.SixStepsAtMost | backend/app/api/internal_media.py:125-262 | in every interleaving an upload moves at most six times, and not after its answer |
| MediaDoor.ReadCapped | backend/app/api/internal_media.py:67-94 | the body comes back whole, empty and oversized ones are refused, and reading stops within one chunk past the cap |
| MediaDoor.Door.UploadMedia | backend/app/api/internal_media.py:97-262 | one request served alone takes exactly the steps of `Alone`, for every fault; how it is answered is `UploadIds.AnsweredAlone` and `RetryChangesNothing` |
| MediaDoor.AloneIsARun | backend/app/api/internal_media.py:97-262 | serving one request extends a run to a run |
| MediaDoor.RetryIsAnsweredFromTheRow | backend/app/api/internal_media.py:128-145 | a request whose id has a row gets the row's receipt and changes neither table nor bucket (as sent: `UploadIds.RetryChangesNothing`) |
| UploadIds.SameFileExactlyWhen | backend/app/api/internal_media.py:115-262 | in every interleaving two requests that are both answered with a file are told the same file if and only if they are of one business and were sent ids with the same first 200 characters; a request without an id shares its file with none |
| UploadIds.ShortIdsAreApart | backend/app/api/internal_media.py:121-145 | sent ids of at most 200 characters that differ are never told the same file |
| UploadIds.RetryChangesNothing | backend/app/api/internal_media.py:121-145 | a request with the business and id of one answered before gets the same file and changes neither table nor bucket, whatever body it brings and whatever fails |
| UploadIds.AnsweredAlone | backend/app/api/internal_media.py:97-262 | the answer to a request that is not recorded, in the order of the checks, with the whole new table, bucket and lost objects for every fault |
| UploadIds.WithoutAnIdAlwaysAnew | backend/app/api/internal_media.py:121-262 | a file sent without an id is recorded anew each time |
| UploadIds.SentIsKept | backend/app/api/internal_media.py:115-127 | an upload's request is the one that was sent, but for the bound on its id |
| UploadIds.BoundedIdIs | backend/app/api/internal_media.py:121 | an empty id counts as none, one of up to 200 characters as it is, a longer one by its first 200 |
| RateLimiter.Limiter.CheckRateLimit | backend/app/api/public_booking.py:82-97 | the counter after one attempt and whether it is let through |
| RateLimiter.Limiter.Execute | backend/app/api/public_booking.py:82-97 | a whole run of attempts and waits, with the times at which one bucket was let through |
| RateLimiter.BucketsAreApart | backend/app/api/public_booking.py:89 | distinct pages or clients never share a bucket when slugs hold no colon |
| RateLimiter.AdmissionsFillWindows | backend/app/api/public_booking.py:90-93 | admissions fall into non-overlapping windows of 600 s of at most eight |
| RateLimiter.SixteenInAnyInterval | backend/app/api/public_booking.py:56-97 | any closed interval of 600 s of any run holds at most sixteen admissions of a bucket |
| RateLimiter.RefusedOnlyWhenFull | backend/app/api/public_booking.py:94-97 | an attempt is refused if and only if its window has let eight through, all within the last 600 s |
| BookingReminders.Reminders.QueueTouch | backend/app/services/booking_reminders.py:109-135 | a message is queued and marked unless its marker is there, and each business' queue is its own queuings in order |
| BookingReminders.Reminders.QueueBookingMessage | backend/app/services/booking_reminders.py:138-155 | the owner's message goes through the same marker and queue |
| BookingReminders.Reminders.RunSweepOnce | backend/app/services/booking_reminders.py:71-98 | one pass is the row-by-row fold and returns the number queued |
| BookingReminders.QueuedUnlessRecent | backend/app/services/booking_reminders.py:116-135 | a message is queued if and only if it was not queued in the last seven days |
| BookingReminders.ReapprovalAfterAWeekSendsAgain | backend/app/services/booking_reminders.py:138-155 | approving twice a week apart queues two messages |
| BookingReminders.PassesAreInTime | backend/app/services/booking_reminders.py:88-97 | no reminder is queued over 24 hours ahead, no confirmation over 48, none late |
| BookingReminders.OncePerAppointment | backend/app/services/booking_reminders.py:46-135 | while a booking is not moved each kind is queued at most once over all passes |
| BookingReminders.PassMissesNobody | backend/app/services/booking_reminders.py:79-98 | after a pass every row has its confirmation, and its reminder if due, queued within the week, for this or an earlier time of the booking |
| BookingReminders.QueuedForTheCurrentTime | backend/app/services/booking_reminders.py:57-64 | after a pass a message stands queued for the booking's current time if and only if it was not queued for another time in the week before |
| BookingReminders.MovedBookingIsNotRemindedAgain | backend/app/services/booking_reminders.py:57-64 | a booking reminded and then moved gets no reminder for its new time within the week |
| BookingReminders.MovedBookingKeepsItsOldReminder | backend/app/services/booking_reminders.py:57-64 | a run from the empty state after which both messages of a moved booking carry its old time |
| BookingWorkers.PassIsWork | backend/app/services/booking_reminders.py:71-98 | a pass is a worker that queues each message its rows call for at once |
| BookingWorkers.NeverEarly | backend/app/services/booking_reminders.py:71-135 | however workers interleave, no reminder is queued over 24 hours ahead and no confirmation over 48 |
| BookingWorkers.OncePerAppointmentInterleaved | backend/app/services/booking_reminders.py:46-135 | however workers interleave that queue within five days of their read, each kind is queued at most once for an appointment |
| BookingWorkers.SlowWorkerConfirmsAgain | backend/app/services/booking_reminders.py:46-135 | a worker that takes exactly five days confirms an appointment twice |
| BookingReminders.Reminders.Execute | backend/app/services/booking_reminders.py:71-155 | a whole run of passes, owner messages and waits |
| BookingReminders.PassQueuesOnlyItsRows | backend/app/services/booking_reminders.py:79-98 | a pass only appends, and only messages its non-test rows call for, to their own business |
| AuthStore.Store.Set | gateway/src/dbAuthState.js:113-126 | the nested loops merge the batch and arm the timer |
| AuthStore.Store.Get | gateway/src/dbAuthState.js:100-110 | exactly the requested ids, each with its stored value or none, app-state values rebuilt into their own form |
| AuthStore.Store.FlushNow | gateway/src/dbAuthState.js:85-93 | a pending write is issued now and its timer disarmed |
| AuthStore.Store.ClearSessionsForUsers | gateway/src/dbAuthState.js:139-151 | all sessions of these users go, the count is returned, and a save is scheduled if any went |
| AuthStore.BatchReadsBack | gateway/src/dbAuthState.js:113-126 | after a batch each named id reads back as its last value, gone if empty, and every other id as before |
| AuthStore.ClearingRemovesOnlyTheirSessions | gateway/src/dbAuthState.js:139-151 | clearing removes an id if and only if it is a session of one of the users |
| AuthStore.DevicesBelongToTheirUser | gateway/src/dbAuthState.js:143 | every device of a user is found under the user's bare number |
| AuthStore.UnsavedMeansOneTimer | gateway/src/dbAuthState.js:63-93 | in every interleaving one timer is armed if and only if a save was asked for after the last write issued, in particular while a change is not issued, and firing it or flushing issues all of memory |
| AuthStore.TimerExactlyWhenAskedFor | gateway/src/dbAuthState.js:67-93 | the store's timer is set if and only if some operation asked for a save and nothing was written after it |
| AuthStore.WritesCarryAllEarlierChanges | gateway/src/dbAuthState.js:67-73 | each issued write is the memory after every change before it, at increasing moments |
| AuthStore.Store.Execute | gateway/src/dbAuthState.js:63-151 | a whole run of changes, timers and flushes |
| SendChain.Sender.EnqueueSend | gateway/src/session.js:111-124 | a job goes to the end of the chain |
| SendChain.Sender.BeginNext | gateway/src/session.js:112-116 | the head of the chain starts, or sleeps off the gap |
| SendChain.Sender.SettleSend | gateway/src/session.js:115-122 | a settled send, failed or not, frees the chain and moves the gap |
| SendChain.SendsRunInOrder | gateway/src/session.js:109-124 | sends start in enqueue order, each at least 1000 ms after the one before it settled |
| SendChain.NextStartsExactlyWhen | gateway/src/session.js:111-117 | in every run the next send starts at once if the one before settled a second ago or more, and otherwise sleeps to exactly that second |
| SendChain.EveryJobIsKept | gateway/src/session.js:109-124 | every enqueued job is started, asleep or pending, in order |
| SendChain.SendRateIsBounded | gateway/src/session.js:53-124 | any window of T ms holds at most T/1000 + 1 sends |
| SendChain.FailuresDoNotDelay | gateway/src/session.js:121-122 | failing sends change nothing for the others, because what the chain hangs on never rejects |
| SendChain.Sender.Execute | gateway/src/session.js:109-124 | a whole run of sends |
| SendChain.SentLog.RememberSentMessage | gateway/src/session.js:126-138 | the guard and the content cache after one more sent message |
| SendChain.GuardIsTheLastInsertions | gateway/src/session.js:126-131 | the guard holds exactly the last 200 insertions, each once |
| SendChain.EchoIsRecognised | gateway/src/session.js:126-131 | a new id is in the guard for at least the next 199 sends |
| SendChain.RepeatIsNotRefreshed | gateway/src/session.js:128-131 | sending the oldest id again does not keep it from being dropped next |
| SendChain.ContentReadsBack | gateway/src/session.js:132-137 | the content just stored reads back and the cache stays within 500 ids |
| SendChain.CacheStaysBounded | gateway/src/session.js:132-137 | over every run of sends the cache holds one content per id, at most 500, and the last one stored |
| SendChain.CacheIsTheLastInsertions | gateway/src/session.js:132-137 | over every run the cache holds the last 500 ids that were new to it, each with the content last given for it |
| SendChain.SentLog.Execute | gateway/src/session.js:126-138 | a whole run of sent messages leaves the guard and the cache the laws speak of |
| DecryptRecovery.Recovery.HandleDecryptFailure | gateway/src/session.js:212-235 | the loop over the named users is the fold the laws speak of |
| DecryptRecovery.EachUserOnItsOwn | gateway/src/session.js:222-231 | each named user's record moves by its own failure alone, and a clear is asked for if and only if one of them asks |
| DecryptRecovery.RecordsAreHistories | gateway/src/session.js:223-230 | after any run of messages a user's record is the one left by the times at which the user was named |
| DecryptRecovery.ClearsExactlyWhen | gateway/src/session.js:223-229 | a failure of a user asks for a clear if and only if it is at least the second since the last clear and more than a minute after it |
| DecryptRecovery.ClearsAreSpaced | gateway/src/session.js:225-229 | clears that one user's failures ask for are more than a minute apart |
| DecryptRecovery.HitExactlyWhenAsked | gateway/src/session.js:222-235 | in any run a message clears a user it names if and only if some user it names asks |
| DecryptRecovery.OwnClearsAreApart | gateway/src/session.js:225-229 | in any run two clears a user's own failures ask for are more than a minute apart |
| DecryptRecovery.HitWithinTheMinuteExactlyWhen | gateway/src/session.js:222-235 | within the minute after a user's own clear the user is cleared again if and only if a companion asks |
| DecryptRecovery.CloseHitsComeFromCompanions | gateway/src/session.js:222-235 | of two clears that hit a user within a minute one was asked for by companions alone |
| DecryptRecovery.Recovery.Execute | gateway/src/session.js:212-239 | a whole run of messages, with which of them asked for a clear |
| Reconnect.Session.RestartLater | gateway/src/session.js:445-455 | unless stopped or already waiting, one timer is armed with the backoff delay and the attempt counted |
| Reconnect.Session.StopSession | gateway/src/session.js:457-462 | the session is stopped and its timer disarmed |
| Reconnect.DelayBounds | gateway/src/session.js:447-449 | delays lie between 3 and 60 seconds and do not shrink while attempts fail |
| Reconnect.DelayIs | gateway/src/session.js:447-449 | the delays are 3, 6, 12, 24 and 48 seconds, and 60 from the sixth attempt on |
| Reconnect.RestartArmsTheBackoff | gateway/src/session.js:445-455 | in every run a restart arms a timer exactly when the session is not stopped and none is armed, due after the delay of the timers armed since the session was last connected |
| Reconnect.OneTimerNoneOnceStopped | gateway/src/session.js:445-462 | in every run at most one timer is armed, and after a stop no timer ever starts the session again |
| Reconnect.RestartRateIsBounded | gateway/src/session.js:445-455 | any window of T ms holds at most T/3000 + 1 starts by the timer |
| Reconnect.Session.Execute | gateway/src/session.js:445-462 | a whole run of restarts, timers and stops |
| DecryptRecovery.CompanionIsClearedAgain | gateway/src/session.js:232-234 | a user named beside another is cleared again within a millisecond |

## Left out

- Fixed customer texts: the engine's and runtime's wording is a parameter, so the theorems hold for every wording.
- Unicode: white space, case and digits are ASCII; the Hebrew letters appear only in the key alphabet.
- The ASCII separators 0x1C to 0x1F, which `str.strip()` removes and the validators do not: here they are ordinary characters.
- Encryption, JSON and the transcript prefix format: stored values are the values themselves.
- Preview text, contact names, timestamps and sender ids on lines: no modelled decision reads them.
- Test-run flags on leads and events, close reasons, owner notes, lead deletion and export: rows are never removed.
- Sending through the gateway: replies and notices are returned or put on the transcript.
- Concurrent turns on one conversation, crashes inside a turn and failing database calls: a turn and a pass are atomic.
- `clear_state`, `get_messages`, `unread_total` and usage counters: read-only or unused by the modelled operations.
- Preview text, assignee and unread count of the owner's list: only which chats are listed, and in what order, is modelled.
- Leads with equal last activity: the database may pick any of them, the model picks the latest row.
- RuntimeHandoff.HandoffEndsOnlyBy: assumes a colon-free non-empty business id and a non-empty conversation id, as the platform issues them.
- Lists in a configuration given as something other than lists, and non-string values, are invalid input of one kind; a handoff list of the working copy given as a text or an object, which Python would take apart, is among them.
- Deleting files, and cascades from deleted leads or businesses: upload rows are never removed.
- A failed object PUT that nevertheless stored the object, and a raised INSERT that nevertheless committed.
- BookingReminders.PassesAreInTime: the due read and the pass share one instant, and the due read is taken at its stated contract.
- The flow key and step index carried on funnel events, and their metadata: an event is its kind and its lead.
- Draining of the reminder outbox: queues only grow.
- Delivery and failure of credential PUTs: AuthStore speaks of the writes as issued; a write that fails is not repeated until the next change.
- Corrupt stored credentials: the store starts from whatever memory it opened with.
- SendChain.SendsRunInOrder: assumes a monotone clock and gap timers that do not ring early.
- The race between starting and stopping a session, status reporting, socket events, QR codes, media download and message parsing.
- Redis keys as text: the store is indexed by business and conversation, and `ChatKeys` proves when distinct pairs have distinct keys.
- Redis locks around the sweeps: a pass that does not get the lock does nothing.

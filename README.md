# Loan chatbot core, modelled in Dafny

The repository is a chatbot that takes a customer through a personal-loan
application: consent, customer ID, amount, credit checks, underwriting and a
decision. It holds two dialogue flows side by side, and this project models
the decision logic of both, plus the document-reading helpers and a small
source-consolidation script.

- **The `LoanStage` flow** (`backend/app/graph`, `backend/app/api/chat.py`):
  - `run_stage` dispatches on ten stages to eight workers.
  - The workers extract slots deterministically (number words and unit
    suffixes, customer IDs, consent, intent) and ask the language model only
    where the code does.
  - The consent and amount workers keep a retry counter that chooses the
    re-prompt template.
  - `chat()` applies a worker's result to the in-memory session.
  - `evaluate_application` underwrites with a score tier, an income ceiling
    and a FOIR check.
  - Modules: `Session`, `LoanGraph`, `Nlu`, `Workers`, `ChatApi`,
    `Underwriting` (with `Sorting` for Python's stable descending sort),
    `MockServices`, `Intent`, `Rag`.
- **The `ConversationState` flow** (`backend/app/graph/state_machine.py`,
  `tia-sales/app/graph`, the class-based workers):
  - An explicit transition table.
  - A rules-first slot filler.
  - Workers that update a shared `SessionData` object in place. It is a
    class here, with `modifies` clauses on every step.
  - A dialogue manager that rewinds on corrections and otherwise dispatches.
  - A keyword router, an input guardrail and a response synthesizer with a
    Jaccard repetition check.
  - Modules: `StateMachine`, `ConversationSession`, `SlotFiller`,
    `AmountPatterns`, `NumberFormat`, `ConsentFlow`, `CustomerIdFlow`,
    `AmountFlow`, `DocumentFlow`, `DecisionFlow`, `DialogueManager`,
    `Router`, `InputGuardrail`, `LlmClient`, `ResponseSynthesizer`.
- **Document reading and tooling:**
  - `OcrEngine`: the field extraction and the page merge.
  - `Parsers`, `Confidence`, `Validators`.
  - `Consolidate`: the ignore filter of `consolidate.py`.
- **Shared helpers:** `Outcomes` (Option, Result), `Text` (Python string
  operations on ASCII), `Json` (Python values and truthiness), `Sets`.

The language model is an oracle parameter: a table from prompt to answer,
where a missing entry is an unavailable model or a failed request. Every
property holds for the unavailable model and, wherever the code validates
the answer, for any answer. The configuration constants (`RULES`, the loan
bounds, the guardrail settings) are parameters. So are the code these files
call but do not define:
- `rewind_state`;
- the customer-ID check;
- the PDF generator;
- the output guardrail;
- the tia-sales underwriting service.

Where the code and its documentation disagree, the model follows the code.
`route` documents that an unrecognised model label falls back to
TASK_ACTION. But `classify` already replaces such a label with
OUT_OF_SCOPE, so `Router.UnknownLabelIsOutOfScope` proves OUT_OF_SCOPE, and
only a failed request gives TASK_ACTION.

## Model

| member | source | states |
|---|---|---|
| Underwriting.FirstQualifying | backend/app/underwriting.py:61-64 | the first tier in order that the credit score reaches; none exactly when the score reaches no tier |
| Underwriting.SortedTiersSameMembers | backend/app/underwriting.py:61 | sorting the tiers by minimum score neither adds nor drops a tier |
| Underwriting.FirstQualifyingIsMax | backend/app/underwriting.py:59-64 | over tiers sorted by descending minimum score, the first qualifying tier has the largest qualifying minimum score |
| Underwriting.SelectTierIsBest | backend/app/underwriting.py:59-74 | no tier is selected exactly when every tier's minimum is above the score; a selected tier is one of the rules' tiers, qualifies, has the largest qualifying minimum and is the first tier in list order with that minimum |
| Underwriting.MaxEligible | backend/app/underwriting.py:79-86 | the eligible maximum is at most the tier cap and the income ceiling and equals one of them |
| Underwriting.EvaluateApplication | backend/app/underwriting.py:21-137 | a missing bureau report or amount raises; the request is echoed; a rejection approves 0 and any other verdict approves no more than was asked |
| Underwriting.MissingScoreRejected | backend/app/underwriting.py:37-45 | no credit score gives a rejection with amount 0, the missing-score reason and empty metadata |
| Underwriting.LowScoreRejected | backend/app/underwriting.py:47-57 | a score below the minimum gives a rejection with amount 0, the configured reason and both scores as metadata |
| Underwriting.NoTierRejected | backend/app/underwriting.py:59-74 | a score that reaches no tier is rejected with the no-tier reason and the score as metadata |
| Underwriting.AssessedOutcome | backend/app/underwriting.py:76-137 | a zero eligible maximum rejects; otherwise the approved amount is min(request, eligible maximum), within the tier cap and the income ceiling, documents are needed exactly when the FOIR is above the maximum or the tier requires proof, and a FOIR breach keeps its own reason |
| Underwriting.FoirValue | backend/app/underwriting.py:100-102 | FOIR times income is existing EMI plus request over the multiplier for a positive income; 1.0 otherwise |
| Underwriting.ApprovedMonotone | backend/app/underwriting.py:86-106 | asking for more never turns an assessed application into a rejection and never lowers the approved amount |
| Underwriting.Cust003Rejected | backend/tests/test_underwriting_endpoint.py:28-43 | the score-620 fixture customer is rejected with amount 0 under any minimum above 620 |
| Underwriting.Cust001Assessed | backend/tests/test_underwriting_endpoint.py:9-25 | the score-780 fixture customer asking for 200000 is approved or sent for documents with a positive amount and the request echoed |
| Sorting.SortDescSorted | backend/app/underwriting.py:61 | `sorted(..., reverse=True)` yields keys in non-increasing order |
| Sorting.SortDescPermutation | backend/app/underwriting.py:61 | the sorted list is a permutation of its input |
| Sorting.SortDescStable | backend/app/underwriting.py:61 | elements with equal keys keep their input order (Python's sort is stable) |
| MockServices.GetCrmProfile | backend/app/mock_services.py:61-62 | a profile exists exactly for the three fixture ids and carries the id asked for |
| MockServices.GetBureauReport | backend/app/mock_services.py:65-66 | a report exists exactly for the three fixture ids and carries the id asked for |
| MockServices.Fixtures | backend/app/mock_services.py:8-54 | the fixture incomes, EMIs and scores (780 for CUST001, 620 for CUST003) and that an unknown id has neither profile nor report |
| MockServices.ConsentLog.constructor | backend/app/mock_services.py:56 | the consent log starts empty |
| MockServices.ConsentLog.RecordConsent | backend/app/mock_services.py:69-77 | the entry holds the id, text, channel (default "chat") and the given time, and is appended to the log |
| Session.TenStages | backend/app/core/session.py:6-16 | the loan flow has exactly ten distinct stages |
| Session.LoanState.constructor | backend/app/core/session.py:25-39 | a new state has the session id, stage GREETING, no messages, no slots, every optional field None and no retry counter |
| Session.LoanState.CountAttempt | backend/app/graph/workers.py:509-511 | the stage's retry count goes up by one, the new count is returned and no other counter changes |
| Session.LoanState.ResetAttempts | backend/app/graph/workers.py:531-532 | the stage's retry count becomes 0 and no other counter changes |
| Session.SessionStore.constructor | backend/app/core/session.py:43 | the session store starts empty, with no object stored under two ids |
| Session.SessionStore.GetSessionState | backend/app/core/session.py:46-49 | an unknown id gets a fresh GREETING state stored under it; a known id gets the stored object back and the store is unchanged; no object is ever stored under two ids |
| LoanGraph.UncountedStage | backend/app/graph/loan_graph.py:16-41 | COMPLETED and ESCALATED have no worker; every other stage moves only to an allowed next stage and only UNDERWRITING and DECISION can escalate |
| LoanGraph.RunStage | backend/app/graph/loan_graph.py:16-41 | each stage runs its own worker, and the outcome is the stage's result on the state before the call; CONSENT and COLLECT_AMOUNT count the attempt first, the consent counter goes back to 0 when consent moves on, and no other counter changes; only the amount stage can raise; every reply moves to an allowed next stage (with the corrected unit rule: see "## Left out") |
| LoanGraph.StageResult | backend/app/graph/loan_graph.py:16-41 | the outcome of running a stage: COMPLETED and ESCALATED have no worker, only COLLECT_AMOUNT can raise, a worker moves only to an allowed next stage and only UNDERWRITING and DECISION escalate; the consent worker sees the attempt number already counted (with the corrected unit rule: see "## Left out") |
| LoanGraph.RetriesAfter | backend/app/graph/workers.py:509-532 | only CONSENT and COLLECT_AMOUNT touch the retry counters, each only its own key, and no key is dropped; the amount counter goes up by one on every turn; the consent counter goes back to 0 exactly when consent moves on to COLLECT_CUSTOMER_ID and otherwise goes up by one |
| LoanGraph.NoStageSkipped | backend/app/graph/loan_graph.py:16-41 | a stage change goes to the next stage in the flow or to ESCALATED, and only DECISION completes |
| Intent.FaqIgnoresCase | backend/app/core/intent.py:1-12 | the FAQ test does not depend on letter case |
| Intent.EmptyIsNotFaq | backend/app/core/intent.py:1-12 | an empty message is never an FAQ |
| Intent.FaqExtends | backend/app/core/intent.py:1-12 | a message that contains an FAQ keyword still does when text is appended |
| Intent.IsFaqIntent | backend/app/core/intent.py:1-12 | a message with "policy" in any case is an FAQ, and an FAQ message has at least three characters, the shortest keyword's length |
| Nlu.CallRaw | backend/app/graph/workers.py:56-88 | without an API token the call gives None; any text returned has no white space at either end |
| Nlu.WordUnit | backend/app/graph/workers.py:134-147 | every unit word has a positive multiplier, and every unit of the amount pattern is in the table |
| Nlu.DotUnitMatch | backend/app/graph/workers.py:197 | the `.9 million` pattern captures a non-empty run of digits |
| Nlu.NumUnitMatch | backend/app/graph/workers.py:204 | the `100k` pattern captures a non-empty run of digits and dots |
| Nlu.UnitMultiplier | backend/app/graph/workers.py:210-219 | the unit table, then the `k`, `m` and `cr`/`crore` suffix rules, give a positive multiplier |
| Nlu.FoldWordsFails | backend/app/graph/workers.py:221-233 | the number-word loop fails exactly when some token is not a number word, and never goes below its start |
| Nlu.FoldNumberWords | backend/app/graph/workers.py:222-234 | the loop computes the number-word fold: multiply by words of 100 or more, add the others |
| Nlu.WordsPath | backend/app/graph/workers.py:221-235 | the word path gives only positive values; a zero total is no value |
| Nlu.DotUnitValue | backend/app/graph/workers.py:196-202 | the `.9 million` path gives only non-negative values |
| Nlu.NumUnitValue | backend/app/graph/workers.py:203-219 | the `100k` path gives only non-negative values |
| Nlu.WordsToNumber | backend/app/graph/workers.py:184-235 | `words_to_number` never gives a negative value |
| Nlu.NormalizeFixed | backend/app/graph/workers.py:189 | lower-casing, dropping commas and stripping leave a lower-case text without commas or outer spaces unchanged |
| Nlu.Normalize | backend/app/graph/workers.py:189 | the cleaned text has no capital letter, no comma and no outer white space, and is no longer than the input |
| Nlu.NormalizeIdempotent | backend/app/graph/workers.py:189 | cleaning an already cleaned text changes nothing |
| Nlu.WholeNumberRead | backend/app/graph/workers.py:191-195 | a text of digits alone is its own value |
| Nlu.NumberWithUnitWord | backend/app/graph/workers.py:203-212 | a decimal number, optional spaces and a unit word of the table is the number times that unit's multiplier |
| Nlu.FractionWithUnitWord | backend/app/graph/workers.py:196-202 | a dot, digits, optional spaces and a unit word (`.9 million`) is the fraction times the unit's multiplier |
| Nlu.TwoWordsRead | backend/app/graph/workers.py:189-235 | two lower-case words separated by spaces skip the digit paths and are read by the number-word loop |
| Nlu.HundredThousandRead | backend/app/graph/workers.py:221-235 | "hundred thousand" is 100000 |
| Nlu.NumberThenTwoWordsUnread | backend/app/graph/workers.py:196-235 | digits followed by two words match neither digit pattern (the `100k` pattern is anchored at the end) and the word loop rejects the digits, so there is no value |
| Nlu.StackedUnitsHaveNoWordValue | backend/app/graph/workers.py:128 | "4 million billion" has no value by words |
| Nlu.WordsPathUnknownToken | backend/app/graph/workers.py:224-233 | an unknown token makes the word path give None |
| Nlu.DigitsWithUnit | backend/app/graph/workers.py:204-212 | a whole number followed by a table unit is the number times that unit's multiplier |
| Nlu.ParseIntent | backend/app/graph/workers.py:302-304 | exactly the six intent labels are accepted |
| Nlu.DeterministicIntentGuess | backend/app/graph/workers.py:242-270 | an empty text is CONFUSION, a meta question is META, and SLOT_VALUE comes with an empty hint |
| Nlu.IntentGuessOrder | backend/app/graph/workers.py:242-270 | each intent is given exactly when its rule holds and every earlier rule does not: meta, why, consent words (hedged is CONFUSION), amounts, small talk |
| Nlu.OracleIntent | backend/app/graph/workers.py:295-304 | the model's answer is used exactly when it is an object whose "intent" is one of the six labels; its hint is kept only when truthy |
| Nlu.ClassifyIntent | backend/app/graph/workers.py:272-306 | the model's valid label wins; an unavailable model or an unusable answer falls back to the deterministic guess |
| Nlu.UnknownLabelFallsBack | backend/app/graph/workers.py:302-303 | a label outside the six intents is replaced by the deterministic guess |
| Nlu.OracleAmount | backend/app/graph/workers.py:330-340 | the model's reply gives an amount exactly when it is a JSON object whose "amount" is a number (a bool counts as one), and the amount is that number truncated toward zero |
| Nlu.UnitAlternative | backend/app/graph/workers.py:345 | the unit alternative found occurs at the position and ends at a word boundary |
| Nlu.UnitMatchAt | backend/app/graph/workers.py:345 | a unit match has a number of digits and dots and a unit of the alternation |
| Nlu.PlainIntAt | backend/app/graph/workers.py:360 | a plain-integer match is one to nine digits |
| Nlu.FirstUnitMatch | backend/app/graph/workers.py:345 | the search finds a number and unit that some position matches, and none exactly when no position matches |
| Nlu.FirstUnitPos | backend/app/graph/workers.py:345 | the leftmost position with a unit match (no earlier position has one), found exactly when the search finds one, and the search's match is the one at that position |
| Nlu.FirstPlainInt | backend/app/graph/workers.py:360-363 | the search finds the leftmost one-to-nine-digit number, and none exactly when no position matches |
| Nlu.UnitAmount | backend/app/graph/workers.py:346-353 | `float()` of the captured number raises exactly when it is not a decimal (two dots, a lone dot); otherwise the amount is non-negative |
| Nlu.ExtractAmount | backend/app/graph/workers.py:310-366 | the model's numeric amount is asked first and wins; otherwise the first-unit rule as written decides except on stacked units, where the corrected rule gives no amount or raises; `float()` raises exactly when the first unit match captures something that is not a decimal; every amount given is non-negative |
| Nlu.RuleAmountAsWritten | backend/app/graph/workers.py:341-366 | the fallback order as written: the first unit match decides (a raise, or the number times the unit cut toward zero); else the word reading cut toward zero; else the first one-to-nine-digit number; else no amount |
| Nlu.RuleAmount | backend/app/graph/workers.py:341-366 | as written, except that a unit match directly followed by another unit word gives no amount; it raises exactly when the written cascade does |
| Nlu.RulesWhenUnavailable | backend/app/graph/workers.py:341-343 | without a model the amount is the rule-based one on the lower-cased, comma-free, stripped text |
| Nlu.NumberWithUnitAmount | backend/app/graph/workers.py:344-353 | a number, optional spaces and a unit word is the number times the unit, cut toward zero |
| Nlu.WholeNumberWithUnitAmount | backend/app/graph/workers.py:344-353 | a whole number and a unit word is exactly the number times the unit's multiplier |
| Nlu.WholeUnitExamples | backend/app/graph/workers.py:128 | "4 lakh" is 400000, "1 crore" is 10000000 and "100k" is 100000 |
| Nlu.FractionUnitExample | backend/app/graph/workers.py:128 | ".9 million" is 900000 |
| Nlu.PlainDigitsAmount | backend/app/graph/workers.py:355-358 | a text of digits alone is its own amount |
| Nlu.StackedUnitsAsWritten | backend/app/graph/workers.py:344-353 | as written, digits and two unit words give the digits times the first unit |
| Nlu.NumberThenTwoUnitsStacked | backend/app/graph/workers.py:344-353 | digits followed by two unit words are a stacked unit match |
| Nlu.StackedUnitsUnresolved | backend/app/graph/workers.py:128 | digits followed by two unit words give no amount |
| Nlu.FourMillionBillion | backend/app/graph/workers.py:128 | "4 million billion" gives 4000000 as written and no amount once corrected |
| Nlu.FirstCustomerId | backend/app/graph/workers.py:373-375 | the search finds the leftmost `CUST` and three digits, and none exactly when there is none |
| Nlu.ExtractCustomerId | backend/app/graph/workers.py:368-376 | the whole stripped upper-cased text when it is an id, else the leftmost id inside the upper-cased text, else none; an id has no lower-case letter |
| Nlu.IdHasNoLower | backend/app/graph/workers.py:369-370 | a customer id is upper case throughout |
| Nlu.OracleConsent | backend/app/graph/workers.py:399-406 | the model's reply gives an answer exactly when it is a JSON object whose "consent" is a JSON boolean, and the answer is that boolean |
| Nlu.ExtractConsent | backend/app/graph/workers.py:378-406 | affirmative words give True before negative words give False; with neither, the answer is the model's reply to the consent prompt read as Nlu.OracleConsent reads it; without a model only those words decide |
| Nlu.DoNotAgreeIsConsent | backend/app/graph/workers.py:384-388 | "I do not agree" is read as consent, because the affirmative words are checked first |
| Nlu.OpensWithIDo | backend/app/graph/workers.py:385 | a text opening with "i do " holds an affirmative word |
| Workers.TemplateCount | backend/app/graph/workers.py:416-448 | every stage key of the template table has at least two templates |
| Workers.TemplateIndex | backend/app/graph/workers.py:457 | the template index is attempt - 1, capped at the last template |
| Workers.ChosenTemplate | backend/app/graph/workers.py:456-458 | attempt n picks the n-th template, and every attempt past the last picks the last |
| Workers.ToneFor | backend/app/graph/workers.py:461-463 | the playful tone is asked for exactly from the third attempt on |
| Workers.SecondLine | backend/app/graph/workers.py:473-474 | a stripped model answer that holds a line break has at least two lines |
| Workers.RephraseTemplate | backend/app/graph/workers.py:450-475 | without a model, or when the model gives nothing, the caller's core text is returned, not the chosen template |
| Workers.RespondAndRedirect | backend/app/graph/workers.py:661-680 | the reply always ends with a blank line and the redirect; without a model answer it is the quick text, a blank line and the redirect |
| Workers.GreetingWorker | backend/app/graph/workers.py:498-502 | the greeting moves to CONSENT with no updates; without a model the message is the core greeting |
| Workers.CustomerIdWorker | backend/app/graph/workers.py:548-563 | the stage advances to COLLECT_AMOUNT exactly when the message is a slot value holding a customer id, which is then the only update; otherwise it stays with no update |
| Workers.ConsentReply | backend/app/graph/workers.py:506-544 | the consent reply changes no field and either stays in CONSENT or moves to COLLECT_CUSTOMER_ID |
| Workers.ConsentAdvances | backend/app/graph/workers.py:514-533 | consent moves on exactly when the message is not a meta or process question and consent is extracted as True |
| Workers.ConsentLadder | backend/app/graph/workers.py:538-544 | without a model an unclear answer gets the attempt's template up to the third attempt and the firm message from the fourth |
| Workers.FirmConsentOffersHuman | backend/app/graph/workers.py:543 | the firm consent message offers to speak to a human |
| Workers.AmountReply | backend/app/graph/workers.py:568-599 | the amount stage moves to CRM_CHECK exactly for a slot value whose amount is between 1 and 1000000, recording it as the only update; it raises exactly when extraction raises; otherwise it stays with no update (with the corrected unit rule: see "## Left out") |
| Workers.AmountPromptsStayOnFirst | backend/app/graph/workers.py:583-596 | without a model an unclear or too-large amount stays in COLLECT_AMOUNT with the first template of its kind, whatever the attempt |
| Workers.ConsentWorker | backend/app/graph/workers.py:506-544 | the consent counter is raised by one before the reply, and reset to 0 when consent is given |
| Workers.AmountWorker | backend/app/graph/workers.py:568-599 | the amount counter is raised by one and the reply is the amount stage's reply for that attempt (with the corrected unit rule: see "## Left out") |
| Workers.CrmWorker | backend/app/graph/workers.py:603-611 | the CRM stage always moves to BUREAU_CHECK, storing the profile of a non-empty customer id, None otherwise |
| Workers.BureauWorker | backend/app/graph/workers.py:615-622 | the bureau stage always moves to UNDERWRITING, storing the report of a non-empty customer id, None otherwise |
| Workers.UnderwritingWorker | backend/app/graph/workers.py:626-635 | underwriting escalates with no update exactly when the evaluation raises; otherwise it moves to DECISION storing the result |
| Workers.ReasonText | backend/app/underwriting.py:37-125 | the decision's reason text: the configured rejection text verbatim, the FOIR referral with both ratios shown to two decimals, and the tier referral quoting the credit score and the tier's minimum score |
| Workers.FoirReasonShowsRatio | backend/app/underwriting.py:108-112 | the FOIR figure in the referral reason, read back as a number, lies within 0.005 of the computed ratio |
| Workers.DecisionWorker | backend/app/graph/workers.py:639-655 | approve and reject complete the application and need_docs or no result escalate; a rejection's message ends with its reason; nothing is updated |
| ChatApi.SessionIdOrDefault | backend/app/api/chat.py:23 | a missing or empty session id becomes "default"; any other is kept |
| Text.StrippedLines | backend/app/api/chat.py:29 | the kept lines are non-empty and stripped at both ends |
| ChatApi.FaqReply | backend/app/api/chat.py:28-30 | the FAQ reply is never empty: the fallback sentence when the answer has no non-blank line, and otherwise the first (at most five) such lines joined by newlines, starting with the first |
| ChatApi.FaqReplyLines | backend/app/api/chat.py:29-30 | split on newlines, a non-fallback reply gives back exactly the answer's first stripped non-empty lines, at most five of them |
| Text.FirstLines | backend/app/api/chat.py:29-30 | the answer's stripped non-empty lines, all of them when there are at most `n`, else exactly the first `n`; each is non-empty, stripped and free of newlines |
| ChatApi.JoinStartsWithFirst | backend/app/api/chat.py:30 | joining lines starts with the first line |
| ChatApi.ApplySingle | backend/app/api/chat.py:55-56 | one update writes its own field and no other |
| ChatApi.SetFields | backend/app/api/chat.py:55-56 | the `setattr` loop leaves the fields as the updates, applied in order, make them |
| ChatApi.ApplyOutcome | backend/app/api/chat.py:46-69 | no worker leaves the state unchanged and replies "Something went wrong" without a session id; a worker's result sets the stage, applies the updates, appends the system message and reports done for COMPLETED or ESCALATED |
| ChatApi.WorkerTurn | backend/app/api/chat.py:38-69 | a non-policy turn keeps the old messages, appends the user message first, counts retries as the stage's worker does and moves only to an allowed next stage (with the corrected unit rule: see "## Left out") |
| ChatApi.WorkerTurnReply | backend/app/api/chat.py:44-69 | only the amount stage raises; the defensive "Something went wrong" reply without a session id comes exactly at COMPLETED and ESCALATED; any other reply carries the session id and the new stage and is final exactly when that stage is COMPLETED or ESCALATED |
| ChatApi.TurnEffect | backend/app/api/chat.py:26-69 | a policy question gets a non-empty reply that is never final and leaves the conversation as it was; any other message is a worker turn; a reply that names a session names this one (with the corrected unit rule: see "## Left out") |
| ChatApi.Turn | backend/app/api/chat.py:22-69 | the reply and the new stage, messages, retry counters and fields are those of the turn on the conversation before it; the worker runs exactly when the message is not a policy question, and its outcome is the stage's result on the old state; the session id and slots are untouched (with the corrected unit rule: see "## Left out") |
| ChatApi.Chat | backend/app/api/chat.py:21-69 | the session is looked up or created under its id (or "default"), a new one starting at GREETING with nothing stored; every other session keeps its object and its contents, since the store never holds one object under two ids; the reply and the session's new contents are those of the turn on the session as it was, and the reply carries that id (with the corrected unit rule: see "## Left out") |
| Rag.Hits | backend/app/core/rag.py:51-54 | a document's score counts at most one hit per question word |
| Rag.Scored | backend/app/core/rag.py:48-56 | only documents with a positive score are kept, each with its own score |
| Rag.PyPrefix | backend/app/core/rag.py:59 | `s[:k]` is a prefix of length k, or of length len + k for a negative k |
| Rag.RetrieveRelevantSnippets | backend/app/core/rag.py:38-59 | the retrieval loop returns the documents of the scored list, sorted by score, cut at top_k |
| Rag.RetrievedProperties | backend/app/core/rag.py:38-59 | the snippets are documents with a positive score, at most top_k of them, in non-increasing score order |
| Rag.RetrievedTiesInOrder | backend/app/core/rag.py:58 | documents with equal scores keep their order in the document list |
| Rag.AnswerFromPolicyDocs | backend/app/core/rag.py:62-82 | no documents gives the "not configured" answer; when some document matches, the snippets are exactly the top three retrieved and the answer is the first of them; when nothing matches, the first document stands in |
| ConversationSession.SessionData.GetSlot | backend/app/workers/consent_worker.py:21 | a slot never written reads as None; a written one reads as its value |
| ConversationSession.SessionData.UpdateSlot | tia-sales/app/workers/customer_id_worker.py:25 | one slot takes the new value; the state and the other slots stay |
| ConversationSession.SessionData.TransitionState | tia-sales/app/graph/dialogue_manager.py:99 | the state becomes the given one; the slots stay |
| ConversationSession.SessionData.RewindState | tia-sales/app/graph/dialogue_manager.py:37 | the state and slots become the ones the rewind yields |
| StateMachine.Rank | backend/app/graph/state_machine.py:13-24 | the ten states have positions 0 to 9 along the happy path |
| StateMachine.Transitions | backend/app/graph/state_machine.py:13-24 | every state but COMPLETED has one or two successors, COMPLETED none, and DOC_UPLOAD alone lists itself |
| StateMachine.ValidateTransition | backend/app/graph/state_machine.py:100-103 | nothing may leave COMPLETED, only DOC_UPLOAD may stay put, and only CONSENT may go back to GREETING |
| StateMachine.GetNextState | backend/app/graph/state_machine.py:26-89 | every state an action leads to is allowed by the transition table, and COMPLETED has no way out |
| StateMachine.Advance | backend/app/graph/state_machine.py:26-89 | a worker's move either keeps the state, when the action is unknown, or makes an allowed transition |
| StateMachine.WorkerMoves | backend/app/graph/state_machine.py:40-86 | each forward action of the flow leads to the next state, consent denial back to GREETING and OCR rejection back to DOC_UPLOAD |
| StateMachine.CanRewind | backend/app/graph/state_machine.py:91-98 | a state can be rewound exactly when it comes before UNDERWRITING |
| StateMachine.TableMatchesActions | backend/app/graph/state_machine.py:13-89 | a transition is in the table exactly when some action of `get_next_state` makes it |
| StateMachine.ListedPairs | backend/app/graph/state_machine.py:40-89 | listed actions lead where the table says and unlisted ones (consent from GREETING, correction from UNDERWRITING) give None |
| StateMachine.MovesAreLocal | backend/app/graph/state_machine.py:13-24 | an allowed move advances at most one position, and a move back starts from a rewindable state |
| StateMachine.OnlySelfLoop | backend/app/graph/state_machine.py:19-72 | DOC_UPLOAD is the only state allowed to follow itself, and only through "retry_upload" |
| StateMachine.CorrectionStepsBack | backend/app/graph/state_machine.py:50-66 | "correction" is known exactly in CUSTOMER_ID, AMOUNT and NEED_DOCS, and steps back one position from a rewindable state |
| SlotFiller.OracleConsent | tia-sales/app/graph/slot_filler.py:26-40 | the model gives a consent exactly when the call succeeds, its confidence is above 0.7 and its value is a boolean, and the consent is that boolean |
| SlotFiller.ExtractConsent | tia-sales/app/graph/slot_filler.py:13-42 | a yes word gives True before a no word gives False; with neither word the model's answer is the result, and without a model there is none |
| SlotFiller.YesBeatsNo | tia-sales/app/graph/slot_filler.py:21-24 | "no, yes" is read as consent, because the yes words are checked first |
| SlotFiller.IdMatchAt | tia-sales/app/graph/slot_filler.py:47 | a customer-id match at a position ends after it, within the text |
| SlotFiller.IdSearch | tia-sales/app/graph/slot_filler.py:48 | the search finds the leftmost position where the id pattern matches, and none exactly when no position does |
| SlotFiller.UpperOfDigits | tia-sales/app/graph/slot_filler.py:51 | upper-casing digits changes nothing |
| SlotFiller.MatchShape | tia-sales/app/graph/slot_filler.py:47-53 | a match, upper-cased and prefixed, is `CUST` and six to ten digits |
| SlotFiller.RuleCustomerId | tia-sales/app/graph/slot_filler.py:46-54 | the pattern gives an id exactly when it matches: the leftmost match, normalised, always of the shape `CUST` and six to ten digits |
| SlotFiller.BareDigitsGetPrefix | tia-sales/app/graph/slot_filler.py:52-53 | six to ten bare digits get the `CUST` prefix |
| SlotFiller.OracleCustomerId | tia-sales/app/graph/slot_filler.py:56-73 | the model gives an id exactly when the call succeeds, its confidence is above 0.6 and its value is truthy; the id is the value as text, upper-cased, with `CUST` in front when it is all digits and does not already start with `CUST` |
| SlotFiller.ExtractCustomerId | tia-sales/app/graph/slot_filler.py:44-75 | the pattern's id wins; otherwise the model's; without a model every id has the pattern's shape |
| SlotFiller.OracleIdUnchecked | tia-sales/app/graph/slot_filler.py:67-71 | the model's id is not checked against the pattern: "abc" comes back as "ABC" |
| SlotFiller.RuleAmount | tia-sales/app/graph/slot_filler.py:89-109 | an amount found by the patterns lies between the minimum and maximum loan amounts |
| SlotFiller.FloatOfString | tia-sales/app/graph/slot_filler.py:124 | `float()` of blank text raises |
| SlotFiller.StripIgnored | tia-sales/app/graph/slot_filler.py:124 | `float()` ignores white space around the text |
| SlotFiller.LeadingSpaceIgnored | tia-sales/app/graph/slot_filler.py:124 | a space in front of the text changes nothing |
| SlotFiller.SignedFloat | tia-sales/app/graph/slot_filler.py:124 | a leading `+` changes nothing and a leading `-` negates the value, infinities included |
| SlotFiller.DigitsFloat | tia-sales/app/graph/slot_filler.py:124 | a string of digits converts to the number it spells |
| SlotFiller.GroupedDigitsFloat | tia-sales/app/graph/slot_filler.py:124 | digits joined by an underscore convert to the digits without it |
| SlotFiller.PointFloat | tia-sales/app/graph/slot_filler.py:124 | digits, a point and digits convert to the same decimal as the digits-and-dots reading used for captured numbers |
| SlotFiller.ExponentFloat | tia-sales/app/graph/slot_filler.py:124 | digits, `e` or `E` and digits convert to the first number times ten to the second |
| SlotFiller.NotGroupsRefused | tia-sales/app/graph/slot_filler.py:124-128 | a digit-led text without point or exponent that is not underscore-joined digits raises |
| SlotFiller.SecondPointRefused | tia-sales/app/graph/slot_filler.py:124-128 | a number with a second point raises |
| SlotFiller.EmptyExponentRefused | tia-sales/app/graph/slot_filler.py:124-128 | an exponent marker with no digits after it raises |
| SlotFiller.SpacedFiveLakh | tia-sales/app/graph/slot_filler.py:124 | " 500000" converts to 500000 |
| SlotFiller.GroupedFiveLakh | tia-sales/app/graph/slot_filler.py:124 | "500_000" converts to 500000 |
| SlotFiller.FiveLakhExponents | tia-sales/app/graph/slot_filler.py:124 | "5e5" and "+5E5" convert to 500000 |
| SlotFiller.FractionSpelling | tia-sales/app/graph/slot_filler.py:124 | "4.5" converts to 4.5 |
| SlotFiller.MisplacedUnderscores | tia-sales/app/graph/slot_filler.py:124-128 | "5__000" and "5_" raise |
| SlotFiller.MalformedNumbers | tia-sales/app/graph/slot_filler.py:124-128 | "1.2.3" and "5e" raise |
| SlotFiller.WordRefused | tia-sales/app/graph/slot_filler.py:124-128 | "five" and blank text raise |
| SlotFiller.InfinitySpelt | tia-sales/app/graph/slot_filler.py:124 | "inf" converts to positive infinity |
| SlotFiller.NegativeInfinitySpelt | tia-sales/app/graph/slot_filler.py:124 | " -Infinity" converts to negative infinity: white space, a sign and any case are allowed |
| SlotFiller.NaNSpelt | tia-sales/app/graph/slot_filler.py:124 | "NaN" converts to NaN |
| SlotFiller.OracleAmount | tia-sales/app/graph/slot_filler.py:111-130 | the model's amount is used exactly when the reply is valid, its confidence is above 0.6, its value is truthy and converts to a finite number within the minimum and maximum loan amounts; the amount is that number |
| SlotFiller.SpacedAnswerTaken | tia-sales/app/graph/slot_filler.py:122-126 | an answer " 500000" with confidence above 0.6 gives 500000 when that is in range |
| SlotFiller.InfiniteAnswerRefused | tia-sales/app/graph/slot_filler.py:124-126 | an answer "inf" converts but fails the range check, so the model gives no amount |
| SlotFiller.ExtractLoanAmount | tia-sales/app/graph/slot_filler.py:77-132 | the patterns' amount wins over the model's; when the patterns find nothing the model's amount is the result; every amount lies within the bounds, and without a model only the patterns decide |
| SlotFiller.PatternOrder | tia-sales/app/graph/slot_filler.py:89-109 | the patterns are tried in order; a match out of bounds moves on to the next pattern |
| SlotFiller.DetectCorrection | tia-sales/app/graph/slot_filler.py:134-145 | a correction is reported exactly when a correction word occurs in the lower-cased message |
| SlotFiller.NoIsCorrection | tia-sales/app/graph/slot_filler.py:136-142 | any message holding "no", even inside a word such as "know", counts as a correction |
| AmountPatterns.IntPartEnd | tia-sales/app/graph/slot_filler.py:81 | the integer part `\d+(?:,\d+)*` ends on a digit, holds only digits and commas, and every comma is followed by a digit |
| AmountPatterns.NumberEnd | tia-sales/app/graph/slot_filler.py:81 | the number group `\d+(?:,\d+)*(?:\.\d+)?` holds only digits, commas and a point |
| AmountPatterns.MatchAt | tia-sales/app/graph/slot_filler.py:80-87 | a match of one of the six patterns at a position is a well-formed hit, with the thousands group present exactly for the `k`/`thousand` pattern |
| AmountPatterns.Search | tia-sales/app/graph/slot_filler.py:90 | `re.search`: the leftmost position where the pattern matches, and none exactly when it matches nowhere |
| AmountPatterns.GroupValue | tia-sales/app/graph/slot_filler.py:97-99 | `float` of the group with its commas removed is never negative |
| AmountPatterns.HitAmount | tia-sales/app/graph/slot_filler.py:92-103 | the amount of a hit (thousands multiplier, lakh scaling) is never negative |
| AmountPatterns.IntPartDigits | tia-sales/app/graph/slot_filler.py:97 | the integer part without its commas is a string of digits |
| AmountPatterns.GroupAlwaysParses | tia-sales/app/graph/slot_filler.py:97-99 | every number group the patterns capture parses as a float |
| AmountPatterns.MatchAlwaysParses | tia-sales/app/graph/slot_filler.py:97-99 | the group of every match parses as a float |
| AmountPatterns.SearchAlwaysParses | tia-sales/app/workers/amount_worker.py:107-114 | every hit the six patterns find parses to an amount, so the `except ValueError` branch never runs |
| AmountFlow.FormatAmountSmall | tia-sales/app/workers/amount_worker.py:77-84 | below one lakh the amount is shown with thousands separators and no decimals |
| AmountFlow.SmallAmountReadsBack | tia-sales/app/workers/amount_worker.py:79 | a whole amount below one lakh, shown and read back without its commas, is the same amount |
| AmountFlow.LakhFigure | tia-sales/app/workers/amount_worker.py:81-83 | from one lakh up the amount is shown in lakhs with two decimals, within 0.005 lakh of the exact figure |
| AmountFlow.RawFromFound | tia-sales/app/workers/amount_worker.py:86-116 | `_extract_raw_amount` finds an amount exactly when one of the six patterns matches |
| AmountFlow.RawInRangeIsAccepted | tia-sales/app/graph/slot_filler.py:89-107 | a raw amount within the loan bounds is the one the slot filler's rules accept |
| AmountFlow.Fallback | tia-sales/app/workers/amount_worker.py:44-68 | the four fallback replies: no amount, below the minimum, above the maximum, or in range but unconfirmed, each exactly in its case |
| AmountFlow.Process | tia-sales/app/workers/amount_worker.py:14-75 | `AmountFlow.Outcome`: a non-zero extracted amount is stored in the `loan_amount` slot and the state advances on `amount_provided`; otherwise nothing changes and the fallback reply for the raw amount is given |
| AmountFlow.UnconfirmedMeansZero | tia-sales/app/workers/amount_worker.py:44-68 | an in-range raw amount that the slot filler did not confirm can only be an amount of 0 |
| ConsentFlow.Process | backend/app/workers/consent_worker.py:13-90 | `ConsentFlow.Outcome`: consent already given advances along `consent_given` without touching the slots; a yes or a no is stored in `consent` and advances along `consent_given` or `consent_denied`; an unclear reply changes nothing and asks again |
| CustomerIdFlow.Process | tia-sales/app/workers/customer_id_worker.py:14-61 | `CustomerIdFlow.Outcome`: a found and verified id is stored in `customer_id` and the state advances; an unverified or missing id changes nothing and gets its own reply |
| CustomerIdFlow.RepliesQuoteTheId | tia-sales/app/workers/customer_id_worker.py:27-47 | the replies for a verified and an unverified id both quote the id |
| DocumentFlow.ProcessNeedDocs | backend/app/workers/document_worker.py:14-56 | `DocumentFlow.NeedDocsOutcome`: a ready customer (keyword or confident model answer) moves on along `docs_acknowledged` and is asked to upload; otherwise the state stays; no slot changes |
| DocumentFlow.Field | backend/app/workers/document_worker.py:67-72 | a summary field is reported only when its value is truthy |
| DocumentFlow.SummaryEmpty | backend/app/workers/document_worker.py:64-74 | the extracted-information list is empty exactly when none of salary, PAN and Aadhaar is filled |
| DocumentFlow.OcrOrEmpty | backend/app/workers/document_worker.py:61 | `ocr_data or {}`: a truthy value is kept, anything else becomes an empty dictionary |
| DocumentFlow.ProcessUpload | backend/app/workers/document_worker.py:58-108 | `DocumentFlow.UploadOutcome`: with documents present the state moves on along `docs_uploaded` and the summary is shown; without them the state stays and the reply depends on whether the customer claims to have uploaded; no slot changes |
| DocumentFlow.ProcessConfirm | backend/app/workers/document_worker.py:110-160 | `DocumentFlow.ConfirmOutcome`: a confirmation moves on along `ocr_confirmed`, anything else along `ocr_rejected`; the reply says which; no slot changes |
| DocumentFlow.NegatedConfirmationConfirms | backend/app/workers/document_worker.py:113 | "not correct" contains the keyword `correct` and so confirms the data |
| DecisionFlow.Entry | backend/app/workers/decision_worker.py:26-29 | `dict.get`: a missing key reads as None, a present one as its value |
| DecisionFlow.LetterFor | backend/app/workers/decision_worker.py:42-51 | the approval letter exactly for an APPROVED decision, the rejection letter for every other |
| DecisionFlow.Recorded | backend/app/workers/decision_worker.py:31-53 | the decision is always stored; the document path only when a letter was produced; every other slot keeps its value |
| DecisionFlow.Announcement | backend/app/workers/decision_worker.py:61-88 | the approval text exactly for APPROVED, the rejection text exactly for REJECTED, review otherwise; an approval whose amount is not a number raises |
| DecisionFlow.Process | backend/app/workers/decision_worker.py:13-105 | `DecisionFlow.Outcome`: no result: nothing changes and support is suggested; a result that is not a dictionary raises; otherwise the decision and document are recorded, the announcement is made and the state moves on along `decision_delivered` |
| DecisionFlow.ReviewGetsRejectionLetter | backend/app/workers/decision_worker.py:47-51 | a decision under review is sent the rejection letter |
| DecisionFlow.AnnouncementShowsPath | backend/app/workers/decision_worker.py:67-86 | every announcement quotes a non-empty letter path |
| DecisionFlow.ApprovedAmountReadsBack | backend/app/workers/decision_worker.py:63 | the approved amount is shown so that, without its commas, it reads back as the amount |
| Json.FloatRepr | backend/app/workers/decision_worker.py:64 | a float's `repr` in positional notation, the sign shown exactly for negative values; the stand-in `<float>` exactly when Python would use exponent notation or more than 15 significant digits |
| Json.FloatReprReadsBack | backend/app/workers/decision_worker.py:64 | a non-negative float shown positionally is digits and one point that read back as the float itself |
| Json.FractionalRateShown | backend/app/workers/decision_worker.py:64 | 10.5 is shown as `10.5` |
| Json.WholeRateShown | backend/app/workers/decision_worker.py:64 | a whole float such as 18.0 keeps its `.0` |
| Json.NegativeFractionShown | backend/app/workers/decision_worker.py:64 | -0.25 is shown as `-0.25`, sign and leading zero included |
| DecisionFlow.ApprovedRateStated | backend/app/workers/decision_worker.py:64 | every approval carries the line "**Interest Rate:** <rate>% per annum" |
| DecisionFlow.ApprovedRateReadsBack | backend/app/workers/decision_worker.py:64 | a positional float rate is announced as text that reads back as the rate |
| DecisionFlow.RateAnnounced | backend/app/workers/decision_worker.py:61-66 | an approval with a numeric amount and a float rate is announced with the rate as `repr` shows it, followed by "% per annum" |
| DecisionFlow.FractionalRateAnnounced | backend/app/workers/decision_worker.py:61-66 | a 10.5 rate is announced as "10.5% per annum" |
| DialogueManager.HandleGreeting | tia-sales/app/graph/dialogue_manager.py:88-106 | the welcome is given and the state moves on along `greeting_completed`; the slots stay |
| DialogueManager.WriteUntouched | tia-sales/app/graph/dialogue_manager.py:49-56 | writing one of the worker's own slots leaves every other slot as it was |
| DialogueManager.KeepUntouched | tia-sales/app/graph/dialogue_manager.py:49-65 | a turn that writes nothing leaves every slot as it was |
| DialogueManager.ConsentFollowed | tia-sales/app/graph/dialogue_manager.py:49-50 | any outcome of the consent worker moves only along the table, writes only `consent` and reports the state it leaves |
| DialogueManager.CustomerIdFollowed | tia-sales/app/graph/dialogue_manager.py:52-53 | any outcome of the customer-id worker moves only along the table, writes only `customer_id` and reports truthfully |
| DialogueManager.AmountFollowed | tia-sales/app/graph/dialogue_manager.py:55-56 | any outcome of the amount worker moves only along the table, writes only `loan_amount` and reports truthfully |
| DialogueManager.DocumentFollowed | tia-sales/app/graph/dialogue_manager.py:58-65 | any outcome of a document handler moves only along the table, writes no slot and reports truthfully |
| DialogueManager.DecisionFollowed | tia-sales/app/graph/dialogue_manager.py:70-71 | any outcome of the decision worker ends in DECISION or COMPLETED, writes only its two slots, reports truthfully and does not move when it raises |
| DialogueManager.HandledFollowed | tia-sales/app/graph/dialogue_manager.py:46-79 | whichever handler a state other than underwriting is routed to, the turn moves only along the table, writes only that state's slots and reports truthfully |
| DialogueManager.ConsentStep | tia-sales/app/graph/dialogue_manager.py:49-50 | the CONSENT turn is exactly the consent worker's outcome (`ConsentFlow.Outcome`), and so moves only along the table, writes only `consent` and reports the state it leaves |
| DialogueManager.CustomerIdStep | tia-sales/app/graph/dialogue_manager.py:52-53 | the CUSTOMER_ID turn is exactly the customer-id worker's outcome, and so moves only along the table, writes only `customer_id` and reports truthfully |
| DialogueManager.AmountStep | tia-sales/app/graph/dialogue_manager.py:55-56 | the AMOUNT turn is exactly the amount worker's outcome, and so moves only along the table, writes only `loan_amount` and reports truthfully |
| DialogueManager.DocumentStep | tia-sales/app/graph/dialogue_manager.py:58-65 | NEED_DOCS, DOC_UPLOAD and OCR_CONFIRM each get exactly their own document handler's outcome, and so move only along the table, write no slot and report truthfully |
| DialogueManager.CollectStep | tia-sales/app/graph/dialogue_manager.py:46-65 | every state before underwriting gets exactly its own handler's outcome (`Handled`): the greeting, consent, customer-id, amount or document handler; each moves only along the table, writes only its own slots and reports truthfully; the greeting leads to consent |
| DialogueManager.RecordedUntouched | backend/app/workers/decision_worker.py:31-53 | recording the decision touches only `decision` and `decision_document` |
| DialogueManager.DecisionStep | tia-sales/app/graph/dialogue_manager.py:70-71 | the DECISION turn is exactly the decision worker's outcome (`DecisionOutcome`); it ends in DECISION or COMPLETED, writes only its two slots, and stays put when it raises |
| DialogueManager.CloseStep | tia-sales/app/graph/dialogue_manager.py:70-79 | DECISION gets exactly the decision worker's outcome and COMPLETED the fixed reply with nothing changed; a move along the table or none, own slots only |
| DialogueManager.ProcessTaskAction | tia-sales/app/graph/dialogue_manager.py:19-86 | a correction in a state that may rewind goes back; otherwise each state is routed to exactly its own handler and the turn is that handler's outcome (`Handled`); underwriting is delegated; every state but underwriting moves only along the table, writes only its own slots and reports truthfully |
| DialogueManager.ConsentNoRewinds | tia-sales/app/graph/dialogue_manager.py:35-37 | a consent reply containing "no", even inside a word, is taken as a correction and rewinds |
| DialogueManager.NegatedConfirmationRewinds | tia-sales/app/graph/dialogue_manager.py:35-37 | "not correct" at the confirmation step rewinds before the document worker sees it |
| LlmClient.FirstMissing | backend/app/core/llm_client.py:114-116 | the first required field, in the schema's order, that the data lacks; none exactly when every required field is present |
| LlmClient.ValidateSchema | backend/app/core/llm_client.py:109-128 | passes exactly when every required field is present and every typed field has its declared type; a missing required field is always the error reported first |
| LlmClient.UncheckedProperties | backend/app/core/llm_client.py:120-126 | a property whose declared type is a list of types, or absent, is never checked |
| LlmClient.BoolPassesNumber | backend/app/core/llm_client.py:123 | a boolean passes as a number, since `bool` is a subclass of `int` |
| LlmClient.GenerateStructured | backend/app/core/llm_client.py:22-85 | a failed request raises; text that does not decode gives the `{"error": ...}` reply without any schema check; an empty reply and a reply without a schema are returned as they are; any other reply is returned only when it passes the schema |
| LlmClient.Classify | backend/app/core/llm_client.py:130-162 | the answer is one of the categories or OUT_OF_SCOPE, and a category other than OUT_OF_SCOPE is the one the model named; a reply without a category, the undecodable one included, gives OUT_OF_SCOPE |
| LlmClient.ClassifyReadsCategory | backend/app/core/llm_client.py:158-160 | a named category is kept when it is one of the categories and replaced by OUT_OF_SCOPE otherwise |
| LlmClient.UndecodableIsOutOfScope | backend/app/core/llm_client.py:61-82 | when the model's text does not decode, classification gives OUT_OF_SCOPE, because the error reply has no category |
| LlmClient.ExtractSlot | backend/app/core/llm_client.py:164-195 | a reply is either empty or has a value and a numeric confidence; a failed request raises |
| LlmClient.Rephrase | backend/app/core/llm_client.py:197-218 | raises exactly when the request fails; a reply without `response` gives back the content unchanged |
| Router.FromName | backend/app/graph/router.py:8-13 | `IntentType(intent)`: a name maps back to the intent it names |
| Router.CategoriesAreNames | backend/app/graph/router.py:36-41 | every label `classify` can return names an intent |
| Router.QuickClassify | backend/app/graph/router.py:46-69 | the first rule that applies wins: greeting (short messages only), knowledge question, off-topic request, active flow; none otherwise |
| Router.Route | backend/app/graph/router.py:19-44 | a rule's answer is final; otherwise a failed model call gives TASK_ACTION |
| Router.RouteFollowsModel | backend/app/graph/router.py:38-41 | when no rule applies and the model answers, the route is the model's label |
| Router.ActiveFlowIgnoresModel | backend/app/graph/router.py:65-67 | inside an active flow the model is never consulted |
| Router.LongMessageIsNoGreeting | backend/app/graph/router.py:52 | a message of 50 characters or more is never a greeting |
| Router.UnknownLabelIsOutOfScope | backend/app/graph/router.py:38-41 | a label the model makes up routes to OUT_OF_SCOPE, because `classify` normalises it |
| Router.OfflineIsTaskAction | backend/app/graph/router.py:42-44 | without the model, every message no rule decides is a task action |
| InputGuardrail.DropControl | tia-sales/app/guardrails/input_guardrail.py:78 | only printable characters, newline and tab remain, all taken from the text |
| InputGuardrail.Sanitize | tia-sales/app/guardrails/input_guardrail.py:72-80 | the result holds no control character and neither starts nor ends with whitespace |
| InputGuardrail.SanitizeKeepsVisible | tia-sales/app/guardrails/input_guardrail.py:72-80 | sanitising keeps every visible character, in order |
| InputGuardrail.SqueezeKeepsVisible | tia-sales/app/guardrails/input_guardrail.py:75 | joining the words with single spaces keeps every visible character, in order |
| InputGuardrail.DropControlKeepsVisible | tia-sales/app/guardrails/input_guardrail.py:78 | dropping control characters keeps every visible character |
| InputGuardrail.StripKeepsVisible | tia-sales/app/guardrails/input_guardrail.py:80 | stripping keeps every visible character |
| InputGuardrail.Validate | tia-sales/app/guardrails/input_guardrail.py:16-43 | refused as empty, too long, injection or offensive, each exactly in its case and in that order; otherwise accepted with the sanitised text |
| InputGuardrail.LowerOccurrence | tia-sales/app/guardrails/input_guardrail.py:58-60 | an occurrence survives lower-casing both texts |
| InputGuardrail.MarkupInAnyCase | tia-sales/app/guardrails/input_guardrail.py:47-60 | a markup pattern is caught in any letter case |
| InputGuardrail.OffensiveInAnyCase | tia-sales/app/guardrails/input_guardrail.py:64-70 | an offensive keyword is caught in any letter case |
| InputGuardrail.ControlTextHasNoInjection | tia-sales/app/guardrails/input_guardrail.py:45-62 | a text of control characters alone contains no injection pattern |
| InputGuardrail.ControlTextAcceptedEmpty | tia-sales/app/guardrails/input_guardrail.py:23-43 | a message of non-space control characters passes the emptiness test and is accepted as the empty text |
| ResponseSynthesizer.Ratio | tia-sales/app/graph/response_synthesizer.py:73 | a share of the union lies between 0 and 1, and is 1 exactly when the counts agree |
| ResponseSynthesizer.Similarity | tia-sales/app/graph/response_synthesizer.py:62-73 | the word-set similarity lies between 0 and 1 and is 0 when either text has no word |
| ResponseSynthesizer.SimilaritySymmetric | tia-sales/app/graph/response_synthesizer.py:62-73 | the similarity does not depend on the order of the two texts |
| ResponseSynthesizer.SimilarityOne | tia-sales/app/graph/response_synthesizer.py:62-73 | the similarity is 1 exactly when both texts have the same, non-empty, set of words |
| ResponseSynthesizer.Recent | tia-sales/app/graph/response_synthesizer.py:53 | `history[-3:]`: the last three entries, or all when there are fewer |
| ResponseSynthesizer.AssistantContents | tia-sales/app/graph/response_synthesizer.py:53 | exactly the contents of the assistant's entries |
| ResponseSynthesizer.ShouldRephrase | tia-sales/app/graph/response_synthesizer.py:49-60 | true exactly when one of the assistant's last replies is more than 0.7 similar |
| ResponseSynthesizer.InLoanFlowStates | tia-sales/app/graph/response_synthesizer.py:44 | inside the loan flow means any state but GREETING and COMPLETED |
| ResponseSynthesizer.FromStructured | tia-sales/app/graph/response_synthesizer.py:75-92 | an error is reported whatever the state; in DECISION the decision picks approval, rejection or review; otherwise the conversation continues |
| ResponseSynthesizer.Rephrased | tia-sales/app/graph/response_synthesizer.py:29-34 | the model's rephrasing when it gives a truthy one; the reply itself when the request fails |
| ResponseSynthesizer.Synthesize | tia-sales/app/graph/response_synthesizer.py:12-47 | a reply that repeats a recent one is rephrased, any other reply kept; without a reply the text comes from the structured data; the output guardrail is always applied last |
| ResponseSynthesizer.ExactRepeatIsRephrased | tia-sales/app/graph/response_synthesizer.py:53-58 | repeating one of the last three assistant replies word for word always triggers a rephrasing |
| ResponseSynthesizer.UserHistoryNeverRephrases | tia-sales/app/graph/response_synthesizer.py:53 | the customer's own messages never trigger a rephrasing |
| ResponseSynthesizer.EmptyReplyNeverRephrases | tia-sales/app/graph/response_synthesizer.py:67-68 | a reply without words is never taken for a repetition |
| Text.PadDigits | tia-sales/app/workers/amount_worker.py:83 | a number shown in exactly `w` digits reads back as the number |
| NumberFormat.Group | tia-sales/app/workers/amount_worker.py:79 | the `,` format: digits with comma separators, starting with a digit |
| NumberFormat.GroupReadsBack | tia-sales/app/workers/amount_worker.py:79 | a grouped number without its commas reads back as the number |
| NumberFormat.Scaled | tia-sales/app/workers/amount_worker.py:79-83 | the scaled value rounded to the nearest whole, within one half |
| NumberFormat.FormatFixed | tia-sales/app/workers/amount_worker.py:79-83 | a fixed-point figure holds only digits, commas and a point, and starts with a digit |
| NumberFormat.FormatSigned | backend/app/workers/decision_worker.py:63 | a negative figure is the positive one with a minus sign in front |
| NumberFormat.RenderReadsBack | tia-sales/app/workers/amount_worker.py:83 | a rendered figure without its commas reads back as the scaled number |
| NumberFormat.FormatFixedReadsBack | tia-sales/app/workers/amount_worker.py:79-83 | a formatted figure reads back as the value rounded to its decimals |
| NumberFormat.WholeReadsBack | tia-sales/app/workers/amount_worker.py:79 | a whole number formatted without decimals reads back as itself |
| NumberFormat.PointDigits | backend/app/underwriting.py:111 | the `.2f` digits without separators: only digits and a point |
| NumberFormat.FormatPoint | backend/app/underwriting.py:111 | the `.2f` rendering: the rounded digits of the magnitude, with a minus sign in front exactly for a negative number |
| NumberFormat.PointDigitsReadsBack | backend/app/underwriting.py:111 | the ungrouped digits parse back through `float` as the scaled number over the place value |
| NumberFormat.FormatPointReadsBack | backend/app/underwriting.py:111 | a non-negative value's `.Nf` rendering parses back to within half a unit of the last place |
| OcrEngine.FirstMatch | backend/app/tools/document_ocr/ocr_engine.py:113-117 | the first pattern that matches gives the value; none when none matches |
| OcrEngine.FindPan | backend/app/tools/document_ocr/ocr_engine.py:121-122 | the leftmost position of a PAN-shaped word, and none when there is none |
| OcrEngine.DigitsOf | backend/app/tools/document_ocr/ocr_engine.py:137 | `re.sub(r'\D', '', m)`: only digits remain |
| OcrEngine.FirstValid | backend/app/tools/document_ocr/ocr_engine.py:136-141 | the first match that is a valid Aadhaar number, none when none is |
| OcrEngine.AadhaarNumber | backend/app/tools/document_ocr/ocr_engine.py:129-143 | a number is found exactly when some match of some pattern is a valid Aadhaar number; it is the first valid match of the first pattern that has one, stripped |
| OcrEngine.NameOf | backend/app/tools/document_ocr/ocr_engine.py:157-172 | a name is found exactly when some pattern captures a plausible one; it is the stripped capture of the first pattern whose capture passes the filter, and it is plausible |
| OcrEngine.GenderOf | backend/app/tools/document_ocr/ocr_engine.py:186-193 | the gender is always MALE or FEMALE, and it is MALE exactly for "MALE", "male" and the Hindi word for male |
| OcrEngine.Field | backend/app/tools/document_ocr/ocr_engine.py:116-124 | a field is set exactly when its value was found |
| OcrEngine.SalaryFields | backend/app/tools/document_ocr/ocr_engine.py:107-117 | the monthly salary is present exactly when a salary pattern matches, and it is the capture without commas |
| OcrEngine.PanFields | backend/app/tools/document_ocr/ocr_engine.py:119-124 | the PAN number is present exactly when the text has a PAN-shaped word, and it is the leftmost such word |
| OcrEngine.AadhaarFields | backend/app/tools/document_ocr/ocr_engine.py:126-193 | each of number, name, birth date and gender is present exactly when it was found, with the value described above |
| OcrEngine.AadhaarFieldsChosen | backend/app/tools/document_ocr/ocr_engine.py:157-193 | the name field is the name the name loop chose, and the gender field is the gender the captured word gives |
| OcrEngine.ExtractStructured | backend/app/tools/document_ocr/ocr_engine.py:101-195 | the fields of the named document type, and nothing for an unknown type |
| OcrEngine.ExtractedAadhaarIsValid | backend/app/tools/document_ocr/ocr_engine.py:139-140 | an extracted Aadhaar number has twelve digits not starting with 0 or 1 |
| OcrEngine.FirstWins | backend/app/tools/document_ocr/ocr_engine.py:342-345 | the merged keys are exactly those of some page |
| OcrEngine.FirstPageWins | backend/app/tools/document_ocr/ocr_engine.py:342-345 | a key keeps the value of the first page that has it |
| OcrEngine.AddPage | backend/app/tools/document_ocr/ocr_engine.py:343-345 | one page is merged in without overwriting keys already present |
| OcrEngine.MergePages | backend/app/tools/document_ocr/ocr_engine.py:338-345 | the pages merged one by one give the first-page-wins merge |
| OcrEngine.PdfImageFields | backend/app/tools/document_ocr/ocr_engine.py:347-351 | per-page fields take precedence; fields only the combined text yields are added |
| Text.RoundHalfEven | backend/app/tools/document_ocr/confidence.py:5 | Python's `round`: within one half of the value, a tie going to the even neighbour, and exact on whole numbers |
| Confidence.Round2 | backend/app/tools/document_ocr/confidence.py:5 | `round(x, 2)` leaves a two-decimal number unchanged |
| Confidence.Round2Bounds | backend/app/tools/document_ocr/confidence.py:5 | rounding keeps a share between 0 and 1 |
| Confidence.Filled | backend/app/tools/document_ocr/confidence.py:3 | exactly the keys whose value is truthy |
| Confidence.ComputeConfidence | backend/app/tools/document_ocr/confidence.py:1-5 | raises exactly for an empty dictionary; otherwise a share between 0 and 1 |
| Confidence.AllFilledIsOne | backend/app/tools/document_ocr/confidence.py:1-5 | every field filled gives 1.0 |
| Confidence.NoneFilledIsZero | backend/app/tools/document_ocr/confidence.py:1-5 | no field filled gives 0.0 |
| Confidence.QuartersAreExact | backend/app/tools/document_ocr/parsers.py:27-28 | a share in quarters is not changed by rounding to two decimals |
| Parsers.SlipCount | backend/app/tools/document_ocr/parsers.py:27 | at most four fields count |
| Parsers.CommasRemoved | backend/app/tools/document_ocr/parsers.py:19-21 | a capture of digits and commas is all digits once its commas are removed |
| Parsers.StripOpt | backend/app/tools/document_ocr/parsers.py:12-13 | a field is present after stripping exactly when it was captured |
| Parsers.ParseSalarySlipAsWritten | backend/app/tools/document_ocr/parsers.py:3-28 | raises exactly when the net-salary capture is nothing but commas |
| Parsers.CommasOnlySalaryRaises | backend/app/tools/document_ocr/parsers.py:19-21 | "Net Salary: ," makes the parser raise |
| Parsers.NetSalary | backend/app/tools/document_ocr/parsers.py:19-21 | the salary is the number the capture's digits spell, and none when it has no digit |
| Parsers.ParseSalarySlip | backend/app/tools/document_ocr/parsers.py:3-28 | the stripped captures, the salary read from its digits, and a confidence that is the truthy fields counted in quarters; corrected: a comma-only capture leaves the salary unset |
| Parsers.ParseSalarySlipAgrees | backend/app/tools/document_ocr/parsers.py:3-28 | wherever the parser as written returns, the corrected one returns the same |
| Parsers.NothingFoundIsZero | backend/app/tools/document_ocr/parsers.py:4-27 | no match gives four empty fields and confidence 0 |
| Parsers.ZeroSalaryNotCounted | backend/app/tools/document_ocr/parsers.py:27 | a net salary of 0 counts as missing |
| Parsers.ParseIdCard | backend/app/tools/document_ocr/parsers.py:31-46 | the stripped name, the leftmost PAN-shaped word exactly when the text has one, and the truthy fields counted in halves |
| Validators.ValidateSalaryData | backend/app/tools/document_ocr/validators.py:1-7 | a valid slip has a name, an employer and a non-zero salary |
| Validators.PresentAndPositiveIsValid | backend/app/tools/document_ocr/validators.py:1-7 | all three present and a positive salary is enough |
| Validators.NonPositiveSalaryIsInvalid | backend/app/tools/document_ocr/validators.py:6 | a missing, zero or negative salary is refused |
| Validators.EmptyTextsAreValid | backend/app/tools/document_ocr/validators.py:3-4 | an empty name and employer still pass |
| Validators.PayPeriodIgnored | backend/app/tools/document_ocr/validators.py:1-7 | the pay period plays no part |
| Validators.ValidParsedSlipHasConfidence | backend/app/tools/document_ocr/validators.py:1-7 | a parsed slip that passes has confidence at least one quarter; the source itself never passes the parser's output to the validator, so this only relates the two definitions |
| Validators.CommasOnlySalaryIsInvalid | backend/app/tools/document_ocr/validators.py:5-6 | a parsed slip whose salary capture has no digit never passes; the source itself never passes the parser's output to the validator, so this only relates the two definitions |
| Consolidate.PlainGlob | consolidate.py:50 | a pattern without wildcards matches only itself |
| Consolidate.StarMatchesAll | consolidate.py:50 | `*` matches every name |
| Consolidate.StarSuffixGlob | consolidate.py:50 | `*` followed by a plain suffix matches exactly the names ending in it |
| Consolidate.Glob | consolidate.py:50 | only a pattern made of stars matches the empty name |
| Consolidate.DirPattern | consolidate.py:45-46 | the pattern with every trailing slash removed, and nothing else |
| Consolidate.DirPatternSlash | consolidate.py:45-46 | a folder pattern matches as the bare name |
| Consolidate.Normalise | consolidate.py:41 | every separator becomes a slash, every other character stays |
| Consolidate.ShouldIgnore | consolidate.py:24-53 | ignored exactly when the name is a system folder or some pattern matches the name or the relative path |
| Consolidate.NoPatternsOnlySystem | consolidate.py:31-33 | without patterns only the system folders are ignored |
| Consolidate.FolderPatternIgnoresName | consolidate.py:45-51 | a `dir/` pattern ignores the folder `dir` |
| Consolidate.ExtensionPatternIgnores | consolidate.py:50 | a `*.ext` pattern ignores every name ending in `.ext` |
| Consolidate.Patterns | consolidate.py:14-18 | the kept patterns are non-empty, are no comments, and are no more than the lines |
| Consolidate.PatternsAppend | consolidate.py:14-18 | the lines are read independently of one another |
| Consolidate.PatternsAreKeptLines | consolidate.py:14-18 | a pattern is exactly a stripped line that is neither empty nor a comment |
| Consolidate.LoadGitignorePatterns | consolidate.py:4-22 | no file gives no patterns; otherwise the patterns of the lines read |
| Consolidate.ContextFileIsPython | consolidate.py:82 | a file is copied exactly when it ends in `.py`: the output file's own name never does |
| Consolidate.Copied | consolidate.py:76-82 | exactly the files that are not ignored and are Python files |
| Consolidate.CopiedSnoc | consolidate.py:76-82 | one more file in the folder adds it at the end exactly when it is copied |
| Consolidate.SelectFiles | consolidate.py:76-82 | the files of a folder that are copied, in their order |

## Left out

- The HTTP requests to the language model (`call_llm_raw`, `call_llm_json`, the `httpx` call of `generate_structured`) are network I/O. The model's answers are an oracle table, and `json.loads` of its text is part of that oracle.
- `audit_log` and every logging call are a clock-stamped debug trail that no decision reads.
- OCR of images and PDFs (Tesseract, pdfminer, pdf2image, preprocessing, language detection), `uploader.py` and `models.py` are foreign libraries and file I/O. Only the field extraction and the page merge are modelled.
- OcrEngine.PdfImageFields: the text, confidence and status that `_ocr_pdf_images` returns beside the fields depend on OCR confidences, so only the merge of the extracted fields is modelled.
- OcrEngine.ExtractStructured: the regular expressions for salary figures, Aadhaar numbers, names, birth dates and gender are inputs (what each pattern matched, in order). The PAN search is modelled exactly.
- Parsers.ParseSalarySlip: the name, employer, net-salary and pay-period searches are inputs (the captured group of each). The net-salary capture is assumed to have the digits-and-commas shape its pattern guarantees.
- PDF rendering (`pdf_generator.py`) is ReportLab layout. The generator is a parameter that returns a path or fails.
- Embedding retrieval (`vector_store.py`, `rag_engine.py`) and `load_policy_docs` with its cache are file reads and floating-point similarity. The policy documents are a parameter.
- The FastAPI routes, the `upload_doc` route, the app wiring, the frontend and the demo scripts are transport and user-interface code.
- Configuration loading (`config.py`, `rules.yaml`) reads the environment and files. Its constants are parameters.
- The `SessionData` and `mock_customer_service` definitions are not part of this model. ConversationSession.SessionData assumes `update_slot`, `get_slot` and `transition_state` are plain writes and reads. `rewind_state`'s target and the customer-ID check are parameters.
- The output guardrail is not part of this model. ResponseSynthesizer.Synthesize takes it as a parameter and applies it last.
- tia-sales `underwriting_worker.py` wraps a service that is not part of this model. DialogueManager.ProcessTaskAction takes its outcome as a parameter.
- Text is ASCII: Python's Unicode-aware `lower`, `upper`, `strip`, `split`, `\w`, `\d` and `\s` are modelled on their ASCII behaviour.
- Json.PyStr: a float Python would print in exponent notation, or a fraction with more than 15 significant digits, is shown as `<float>`, a list as `<list>` and a dictionary as `<dict>`, rather than Python's `repr` of them. This reaches DecisionFlow.Announcement (rate and reason), DocumentFlow.Line, SlotFiller.OracleCustomerId, ResponseSynthesizer.FromStructured and Nlu.HintOr only for such values; rates and amounts in positional notation are shown exactly.
- SlotFiller.FloatOfString: the decimal a string spells is kept exact rather than rounded to the nearest double. A literal beyond the double range is a large real rather than an infinity, and an integer beyond it converts instead of raising `OverflowError`; all of these are outside any loan range, so the amount taken is the same. Only ASCII digits and the white space `str.strip` removes are recognised; Unicode digits are not modelled.
- Numbers are exact reals. Python floats, their rounding artefacts and their overflow are not modelled. `round` and the `,.Nf` and `.Nf` formats round half to even on the exact value.
- Consolidate.Glob: `fnmatch` bracket expressions (`[...]`) are matched as literal characters, and case folding on case-insensitive file systems is not modelled.
- Consolidate.ShouldIgnore: `os.path.relpath` is an input (the relative path already computed), and `os.walk` with its in-place pruning of folders is reduced to the per-entry filter.
- Consolidate.LoadGitignorePatterns: a read error part-way through the file is modelled by passing the lines read before it.
- LlmClient.ValidateSchema: a type error does not name its field. Python names the first mistyped key in the dictionary's insertion order, and a `map` has no order.
- LlmClient.GenerateStructured: which texts fail to decode is the oracle's choice (an `Undecodable` answer); a decoded reply that is a JSON value other than an object is not modelled.
- Nlu.ExtractAmount: the LoanStage chain uses the corrected unit rule (`Nlu.RuleAmount`). A message with a second unit after the first, such as "4 million billion" or "4 lakh billion", gives no amount where the source takes the first unit and gives 4000000 or 400000; where the source raises, so does the model. Every other message gets the source's amount (`Nlu.RuleAmountAsWritten`). This reaches Workers.AmountReply, Workers.AmountWorker, LoanGraph.StageResult, LoanGraph.RunStage, ChatApi.WorkerTurn, ChatApi.TurnEffect, ChatApi.Turn and ChatApi.Chat; the "## Findings" row gives both rules.
- DocumentFlow.Field: an `ocr_data` value, or a salary_slip, pan_card or aadhaar entry, that is truthy but not a dictionary is read as an empty entry. The source raises there (a subscript or `.get` on a non-dictionary). The upload endpoint only ever stores a dictionary of dictionaries, so the case does not arise from it.
- ResponseSynthesizer.Synthesize: history entries are assumed to be role/content string pairs. A malformed entry, which Python would reject with a KeyError, is not modelled.
- `async` and concurrency are left out: each turn runs to completion on its own.

## Findings

| source | as written | input that shows it | evidently intended | confidence | as-written member | corrected member |
|---|---|---|---|---|---|---|
| backend/app/graph/workers.py:344-353 | the unit search takes the first number and unit and ignores a second unit word that follows it, although the comment at line 128 lists "4 million billion" as invalid | the text `4 million billion` gives 4000000 | a number followed by two unit words gives no amount | medium, not executed | Nlu.RuleAmountAsWritten | Nlu.RuleAmount |
| backend/app/tools/document_ocr/parsers.py:19-21 | the net-salary pattern `[\d,]+` accepts a capture of commas alone, and `int("")` of it raises `ValueError` | the text `Net Salary: ,` | a capture without digits leaves the net salary unset, so the parser always returns | not executed | Parsers.ParseSalarySlipAsWritten | Parsers.ParseSalarySlip |

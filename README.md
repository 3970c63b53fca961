# Lead dashboard: a verified model of its core

The dashboard tracks sales leads through a three-stage pipeline: `potential_lead`, then
`reached_out`, then `response_received`. This project models the core of the
dashboard's logic in Dafny and proves properties of that model. There are five parts:

- **The lead collection in the browser** (`App.js`):
  - three patches, each replacing one field of the records with a given id;
  - the statistics derived on every render: a count per stage, and a budget total that
    uses JavaScript's `parseInt(...) || 0`;
  - the endpoint that `fetchLeads` requests.
- **The lead list's action handlers** (`LeadList.js`):
  - rescore, generate message and add interaction, as a class whose fields are the
    component's per-lead maps;
  - the network's answer is a parameter: a parsed body, or a failure;
  - the modal and input events, and the pure badge mappers.
- **The generated-messages view** (`MessageGenerator.js`): filter, reverse, badge
  numbering, the "Latest" marker and the stage fallback.
- **The message evaluator** (`evaluation.py`):
  - four checks, 25 points per passed check, and one fixed tip per failed check;
  - built on models of Python's `in`, `str.lower()` and `str.split()`.
- **The two SQLite tables** (`db.py`):
  - a class holding row sequences and AUTOINCREMENT counters;
  - the schema's CHECK and UNIQUE constraints as the class invariant;
  - `add_lead`, `add_interaction`, `update_lead` and `get_leads`. A statement that
    raises leaves the tables as they were.

A last module, `Reconciliation`, connects the two stage rules. It proves that submitting
an interaction keeps the client's stages equal to the table's, row for row. This holds
provided they were equal before, and provided the client receives the endpoint's reply.

The files:

| file | contents |
|---|---|
| `common.dfy` | `Option`, `Result` |
| `lead_record.dfy` | the client-side lead record; JavaScript number values and truthiness |
| `stage_labels.dfy` | stage names, `formatStageLabel`, `getStageColor` |
| `js_parse_int.dfy` | `parseInt` with no radix |
| `app.dfy` | the patches, the statistics, the endpoint |
| `lead_list.dfy` | the lead list: transitions, their lemmas, and the `LeadListView` class |
| `message_generator.dfy` | the generated-messages view |
| `py_text.dfy` | Python's `in`, `lower()` and `split()` |
| `evaluation.dfy` | `evaluate_response` |
| `db.dfy` | the tables, their invariant, the four operations, and the `LeadStore` class |
| `reconciliation.dfy` | the client's stage rule against the server's |

Each state-changing operation has two parts:

- a pure transition function;
- a method proved equal to it.

The handlers of `LeadListView` and the operations of `LeadStore` are such methods. The
properties are proved as lemmas about the transition functions, so they hold of the
methods too.

The code decides where it differs from what the system is said to do. For example,
`add_interaction` inserts the interaction before it looks at the direction. An invalid
direction therefore fails the table's CHECK constraint first and raises
`IntegrityError`. The `ValueError` branch after it is never reached for text directions.
The model raises `IntegrityError` and commits nothing.

## Model

| member | source | states |
|---|---|---|
| App.PatchById | frontend/src/App.js:38-68 | the common shape of the three patches: same length, each record with the id gets the one field replaced, every other record is kept in place |
| App.UpdateLeadScore | frontend/src/App.js:38-46 | only `score` changes, to the given value, and only on records whose id matches; other records are equal to before |
| App.UpdateLeadMessage | frontend/src/App.js:49-57 | only `last_message` changes, and only on records whose id matches |
| App.UpdateLeadStage | frontend/src/App.js:60-68 | only `stage` changes, and only on records whose id matches |
| App.PatchKeepsIds | frontend/src/App.js:39-67 | a patch never inserts, removes or reorders: the id sequence is unchanged, so unique ids stay unique |
| App.PatchUnknownIdIsIdentity | frontend/src/App.js:40-44 | patching an id no record has returns an equal collection |
| App.PatchIdempotent | frontend/src/App.js:38-68 | applying the same patch twice equals applying it once |
| App.PatchesCommute | frontend/src/App.js:38-68 | patches on different ids, or of different fields, can be applied in either order |
| App.CountStage | frontend/src/App.js:76-78 | a stage count never exceeds the number of leads; `StageCountsPartition` states what it counts |
| App.ComputeStats | frontend/src/App.js:74-80 | `totalLeads` is the length, and the three stage counts add up to at most `totalLeads` |
| App.StageCountsPartition | frontend/src/App.js:74-78 | each lead is counted exactly once: under one of the three stages or as unknown |
| App.StageCountsCoverAllIff | frontend/src/App.js:74-78 | the stage counts sum to `totalLeads` if and only if every stage is one of the three known values |
| App.NoUnknownStageIff | frontend/src/App.js:74-78 | no lead has an unknown stage if and only if every stage is a known one |
| App.TotalBudget | frontend/src/App.js:79 | definition, no contract: the `reduce` over the leads adding each budget as `ParsedOrZero` reads it; its lemmas follow |
| App.TotalBudgetAppend | frontend/src/App.js:79 | the budget total of two collections put together is the sum of their totals, in exact integers; double rounding above 2^53 is left out |
| App.TotalBudgetSnoc | frontend/src/App.js:79 | each lead adds `parseInt(budget) \|\| 0` to the running total |
| App.UnparsableBudgetContributesZero | frontend/src/App.js:79 | a lead whose budget is NaN to `parseInt` leaves the total unchanged |
| App.BudgetTextContributes | frontend/src/App.js:79 | a budget written as the decimal text of `n`, followed by any text that is not a digit or `x`, adds exactly `n`, in exact integers; double rounding above 2^53 is left out |
| App.StatsDependOnStagesAndBudgets | frontend/src/App.js:74-80 | collections that agree on stages and budgets, record by record, have equal statistics |
| App.ScoreAndMessagePatchesKeepStats | frontend/src/App.js:74-80 | a score or message patch leaves every statistic unchanged |
| App.LeadsEndpoint | frontend/src/App.js:22 | `/leads?search=` plus the text when the search is non-empty, `/leads` otherwise |
| App.LeadsEndpointInjective | frontend/src/App.js:22 | different searches request different endpoints; the search text can be read back |
| JsParseInt.TrimStart | frontend/src/App.js:79 | the result is a suffix of the input with every removed character white space, and it does not start with white space |
| JsParseInt.DigitRunLength | frontend/src/App.js:79 | the longest prefix made of digits of the base |
| JsParseInt.NatText | frontend/src/App.js:79 | the decimal text of a natural number is non-empty and all digits |
| JsParseInt.NatTextValue | frontend/src/App.js:79 | the digits of the decimal text read back the number |
| JsParseInt.ParseInt | frontend/src/App.js:79 | definition, no contract: `parseInt` with no radix, `None` standing for NaN; its lemmas follow |
| JsParseInt.ParsedOrZero | frontend/src/App.js:79 | definition, no contract: the number `parseInt` reads, or 0 when it reads NaN (the `or 0` fallback) |
| JsParseInt.ParseIntText | frontend/src/App.js:79 | `parseInt` inverts the decimal text of any integer, whatever white space precedes it and whatever non-digit text (not `x`) follows it, in exact integers; double rounding above 2^53 is left out |
| JsParseInt.ParsedOrZeroText | frontend/src/App.js:79 | `parseInt(text) \|\| 0` of an integer's decimal text is that integer, in exact integers; double rounding above 2^53 is left out |
| JsParseInt.ParseIntRejectsNonNumeric | frontend/src/App.js:79 | a budget whose first visible character is neither a sign nor a digit is NaN and counts 0 |
| JsParseInt.ParseIntHexPrefix | frontend/src/App.js:79 | after `0x` or `0X`, the value is that of the hex digits that follow, whatever non-hex text follows them; `0x` with no hex digit is NaN, in exact integers; double rounding above 2^53 is left out |
| StageLabels.FormatStageLabel | frontend/src/components/LeadList.js:149-156 | the three stages get their title labels; any other text is shown unchanged |
| StageLabels.FormatStageLabelIdempotent | frontend/src/components/LeadList.js:149-156 | formatting a label again changes nothing |
| StageLabels.FormatStageLabelEmptyIff | frontend/src/components/LeadList.js:206 | the label is empty exactly when the stage is, so the `'Prospect'` fallback applies only to a missing stage |
| StageLabels.FormatStageLabelCollides | frontend/src/components/LeadList.js:149-156 | the mapper is not injective: a stored `Potential Lead` displays like `potential_lead` |
| StageLabels.GetStageColor | frontend/src/components/LeadList.js:139-146 | one colour per known stage, gray for any other value |
| StageLabels.StageColorGrayIffLabelVerbatim | frontend/src/components/LeadList.js:139-156 | a value is gray if and only if it is not a stage, if and only if its label is the value itself |
| LeadList.ApplyDisabled | frontend/src/components/LeadList.js:375 | definition, no contract: the Apply button's `disabled` expression |
| LeadList.SubmitDisabled | frontend/src/components/LeadList.js:448 | definition, no contract: the Submit button's `disabled` expression |
| LeadList.ApplyDisabledMatchesGate | frontend/src/components/LeadList.js:375 | the Apply button is disabled exactly when the handler's gate fails or a rescore is in flight |
| LeadList.SubmitDisabledMatchesGate | frontend/src/components/LeadList.js:448 | the Submit button is disabled exactly when the handler's gate fails or a submission is in flight |
| LeadList.NewStageFor | frontend/src/components/LeadList.js:117 | always a known stage: `reached_out` if and only if the direction is `outbound`, `response_received` for any other direction |
| LeadList.RescoreStep | frontend/src/components/LeadList.js:14-55 | definition, no contract: `handleRescore` as a state transition, given the reply or a failure; `RescoreOutcome` states its effect |
| LeadList.GenerateMessageStep | frontend/src/components/LeadList.js:57-78 | definition, no contract: `handleGenerateMessage` as a state transition; `GenerateMessageOutcome` states its effect |
| LeadList.AddInteractionStep | frontend/src/components/LeadList.js:80-131 | definition, no contract: `handleAddInteraction` as a state transition; `AddInteractionOutcome` states its effect |
| LeadList.RescoreBlockedChangesNothing | frontend/src/components/LeadList.js:15-20 | with no weights, or no truthy weight (0 and NaN are falsy), the handler changes nothing and sends nothing |
| LeadList.RescoreOutcome | frontend/src/components/LeadList.js:14-55 | once the gate passes, the modal closes and one request is sent. On success with a score, only that lead's score becomes the returned value. On success without a score, the leads are kept. On any success the weights become `{}`. On failure the leads and weights are kept. The flag ends false. The other flags, the drafts, the interaction modal and the notification never change |
| LeadList.RescoreRetry | frontend/src/components/LeadList.js:43-48 | after a success, applying again changes nothing; after a failure, the same weights still pass the gate |
| LeadList.GenerateMessageOutcome | frontend/src/components/LeadList.js:57-78 | one request is sent. The message is patched only on a success with a non-empty message. The flag ends false. The other two flags, the drafts, both modals and the notification never change |
| LeadList.AddInteractionBlockedChangesNothing | frontend/src/components/LeadList.js:81-86 | without both a message and a direction, nothing is sent and the modal stays open |
| LeadList.AddInteractionOutcome | frontend/src/components/LeadList.js:80-131 | once the gate passes, the modal closes and one request is sent. On success the stage becomes `reached_out` for outbound and `response_received` otherwise, whatever it was; the draft is cleared; the notice names the new label. On failure the leads, draft and notice are kept. The weights, the rescore modal and the other two flags never change |
| LeadList.RescoreKeepsIdle | frontend/src/components/LeadList.js:50-54 | when no loading flag is set before the handler, none is set after it |
| LeadList.GenerateMessageKeepsIdle | frontend/src/components/LeadList.js:73-77 | the same for the message handler |
| LeadList.AddInteractionKeepsIdle | frontend/src/components/LeadList.js:126-130 | the same for the interaction handler |
| LeadList.MessageAloneIsNotSent | frontend/src/components/LeadList.js:83-86 | a draft with only a message typed leaves Submit disabled and the handler inert |
| LeadList.GetScoreColor | frontend/src/components/LeadList.js:133-137 | green if and only if the score is at least 8, yellow if and only if it is in [6, 8), red otherwise (a missing or NaN score is red) |
| LeadList.ScoreColorMonotone | frontend/src/components/LeadList.js:133-137 | a higher score never gets a worse colour |
| LeadList.StageBadgeText | frontend/src/components/LeadList.js:206 | `Prospect` for an empty stage, otherwise the formatted label |
| LeadList.LeadListView.constructor | frontend/src/components/LeadList.js:4-12 | every map is empty, no modal is open and no flag is set |
| LeadList.LeadListView.HandleRescore | frontend/src/components/LeadList.js:14-55 | the new state is the rescore transition of the old state for this answer |
| LeadList.LeadListView.BeginRescore | frontend/src/components/LeadList.js:23-33 | closes the modal, sets the lead's flag and records the score request |
| LeadList.LeadListView.FinishRescore | frontend/src/components/LeadList.js:43-48 | patches the score when one is returned and resets the lead's weights to `{}` |
| LeadList.LeadListView.HandleGenerateMessage | frontend/src/components/LeadList.js:57-78 | the new state is the message transition of the old state for this answer |
| LeadList.LeadListView.HandleAddInteraction | frontend/src/components/LeadList.js:80-131 | the new state is the interaction transition of the old state for this answer |
| LeadList.LeadListView.BeginInteraction | frontend/src/components/LeadList.js:88-103 | closes the modal, sets the lead's flag and records the interaction request |
| LeadList.LeadListView.FinishInteraction | frontend/src/components/LeadList.js:112-123 | clears the draft, moves the lead's stage and shows the notice |
| LeadList.LeadListView.OpenRescoreModal | frontend/src/components/LeadList.js:240 | only the open rescore modal changes, to this lead |
| LeadList.LeadListView.CloseRescoreModal | frontend/src/components/LeadList.js:388 | only the open rescore modal changes, to none |
| LeadList.LeadListView.SetWeight | frontend/src/components/LeadList.js:316-362 | one weight of this lead is replaced; its other weights are kept (or start as `{}`) |
| LeadList.LeadListView.OpenInteractionModal | frontend/src/components/LeadList.js:278 | only the open interaction modal changes, to this lead |
| LeadList.LeadListView.CloseInteractionModal | frontend/src/components/LeadList.js:461 | only the open interaction modal changes, to none |
| LeadList.LeadListView.SetDraftMessage | frontend/src/components/LeadList.js:414-419 | the draft message of this lead is replaced and its direction is kept |
| LeadList.LeadListView.SetDraftDirection | frontend/src/components/LeadList.js:427-432 | the draft direction of this lead is replaced and its message is kept |
| LeadList.LeadListView.DismissNotification | frontend/src/components/LeadList.js:123 | only the notification flag changes, to hidden |
| MessageGenerator.Messages | frontend/src/components/MessageGenerator.js:5-7 | definition, no contract: `filter(lead => lead.last_message).reverse()`; `MessagesSnoc` and `MessagesMembers` state its meaning |
| MessageGenerator.WithMessage | frontend/src/components/MessageGenerator.js:6 | keeps only leads with a non-empty `last_message` |
| MessageGenerator.Reverse | frontend/src/components/MessageGenerator.js:7 | element `i` of the result is element `n-1-i` of the input |
| MessageGenerator.MessagesSnoc | frontend/src/components/MessageGenerator.js:5-7 | a lead added at the end comes first in the list if it has a message, and changes nothing otherwise |
| MessageGenerator.MessagesMembers | frontend/src/components/MessageGenerator.js:5-7 | a lead is listed if and only if it is in the collection and has a message |
| MessageGenerator.MessageCount | frontend/src/components/MessageGenerator.js:42 | the header count equals the number of leads with a message |
| MessageGenerator.MessagesEmptyIff | frontend/src/components/MessageGenerator.js:19-31 | the list is empty if and only if no lead has a message |
| MessageGenerator.LastWithMessage | frontend/src/components/MessageGenerator.js:65-69 | the index of the last lead that has a message, or -1 when there is none |
| MessageGenerator.LatestIsLastWithMessage | frontend/src/components/MessageGenerator.js:65-69 | the card marked "Latest" is the last lead, in input order, that has a message |
| MessageGenerator.StageText | frontend/src/components/MessageGenerator.js:100 | `Unknown` for an empty stage, otherwise the formatted label (never `Unknown` for a known stage) |
| MessageGenerator.Cards | frontend/src/components/MessageGenerator.js:47-121 | one card per listed lead, in list order |
| MessageGenerator.Render | frontend/src/components/MessageGenerator.js:19-121 | definition, no contract: the rendered view, the empty state or the header count and the cards |
| MessageGenerator.RenderShape | frontend/src/components/MessageGenerator.js:19-47 | the empty state is shown if and only if no lead has a message; otherwise the count and one card per listed lead |
| MessageGenerator.BadgeNumbering | frontend/src/components/MessageGenerator.js:120 | badges run from the count down to 1 with no repeats, and only the first card is "Latest" |
| PyText.Contains | backend/evaluation.py:4-7 | definition, no contract: Python's `in` on strings, a search from each start position |
| PyText.ContainsIffOccurs | backend/evaluation.py:4 | `p in s` holds if and only if `p` occurs in `s` at some position |
| PyText.ContainsPart | backend/evaluation.py:4 | a text contains every part it was built from |
| PyText.ContainsEmpty | backend/evaluation.py:5 | the empty text is found in every text |
| PyText.LowerChar | backend/evaluation.py:5 | ASCII upper-case letters map to lower case; every other character is kept |
| PyText.Lower | backend/evaluation.py:5 | lowering keeps the length and lowers each character |
| PyText.LowerIdempotent | backend/evaluation.py:5 | lowering twice is lowering once, and no ASCII upper-case letter remains |
| PyText.SpaceRun | backend/evaluation.py:6 | the length of the leading run of white space |
| PyText.WordRun | backend/evaluation.py:6 | the length of the leading run of non-white-space characters |
| PyText.WordCount | backend/evaluation.py:6 | definition, no contract: `len(message.split())` |
| PyText.Words | backend/evaluation.py:6 | every word `split()` yields is non-empty and free of white space |
| PyText.WordsOfWordThen | backend/evaluation.py:6 | a word followed by white space or by nothing is split off as the first word |
| PyText.WordsOfSpaceThen | backend/evaluation.py:6 | a leading space changes no word |
| PyText.SplitJoin | backend/evaluation.py:6 | splitting words joined by single spaces gives the words back |
| Evaluation.Personalized | backend/evaluation.py:4 | definition, no contract: the name and the company both occur in the message, case-sensitively |
| Evaluation.Relevant | backend/evaluation.py:5 | definition, no contract: the lowered needs occur in the lowered message |
| Evaluation.RightLength | backend/evaluation.py:6 | definition, no contract: 50 to 200 words, both ends included |
| Evaluation.RightTone | backend/evaluation.py:7 | definition, no contract: the lowered message contains `professional` or `friendly` |
| Evaluation.ComputeChecks | backend/evaluation.py:3-8 | definition, no contract: the four checks, in the dict's order |
| Evaluation.Values | backend/evaluation.py:9 | exactly four check values |
| Evaluation.Passed | backend/evaluation.py:9 | at most as many passes as checks |
| Evaluation.SumPoints | backend/evaluation.py:9 | the score is 25 times the number of true checks |
| Evaluation.FailedTips | backend/evaluation.py:10-20 | one tip per false check |
| Evaluation.EvaluateResponse | backend/evaluation.py:1-21 | the checks are the four predicates; the score is 25 per pass and one of 0, 25, 50, 75, 100; the recommendations are the failed checks' tips in check order; score + 25 × number of tips = 100; each tip is present if and only if its check failed |
| Evaluation.ScoreAndTips | backend/evaluation.py:9-20 | the score's range, the sum to 100, and the four tip-iff-failed facts, for every combination of checks |
| Evaluation.TipsDistinct | backend/evaluation.py:11-20 | the four tips are pairwise different |
| Evaluation.FailedTipsOfFour | backend/evaluation.py:10-20 | the recommendations are the four conditional appends, in order |
| Evaluation.FailedTipsOfFourValues | backend/evaluation.py:10-20 | the same unfolding for any four values and tips |
| Evaluation.RelevanceAndToneIgnoreCase | backend/evaluation.py:5-7 | relevance and tone do not change when the case of the message or the needs changes |
| Evaluation.PersonalizationIsCaseSensitive | backend/evaluation.py:4 | the name must appear in its own case: `al` does not personalise for `Al` |
| Evaluation.EmptyNeedsAlwaysRelevant | backend/evaluation.py:5 | a lead with empty needs passes relevance for every message |
| Evaluation.NamingTheLeadPasses | backend/evaluation.py:4-5 | a message containing the name and the company passes personalization; one containing the needs passes relevance |
| Evaluation.LowerOfConcat3 | backend/evaluation.py:5 | lowering distributes over concatenation |
| Evaluation.JoinedWordsLength | backend/evaluation.py:6 | 50 to 200 words joined by single spaces pass the length check |
| Db.AddLeadStep | backend/db.py:49-80 | definition, no contract: the `add_lead` transaction on the tables, returning the new id or the error; its lemmas follow |
| Db.AddLeadDuplicateRejected | backend/db.py:69-72 | a (name, company) pair already present raises `IntegrityError` and stores nothing |
| Db.AddLeadInserts | backend/db.py:53-67 | a new pair adds one last row: the given fields, score 0, stage `potential_lead` whatever stage was given, no message, and a fresh id above every existing id, which is returned |
| Db.AddLeadKeepsValid | backend/db.py:49-80 | `add_lead` keeps the ids, CHECK and UNIQUE constraints |
| Db.AddLeadIdsIncrease | backend/db.py:16 | two successful inserts return increasing ids |
| Db.StageForDirection | backend/db.py:116-121 | a known stage: `reached_out` if and only if outbound, `response_received` if and only if inbound |
| Db.SetStageWhere | backend/db.py:124-131 | only the stage of rows with that id changes |
| Db.AddInteractionStep | backend/db.py:83-149 | definition, no contract: the `add_interaction` transaction, the INSERT then the stage UPDATE, committed together or not at all |
| Db.AddInteractionRejectsDirection | backend/db.py:102-121 | an invalid direction raises `IntegrityError` and commits nothing |
| Db.AddInteractionMovesStage | backend/db.py:102-134 | a valid interaction is appended with the next id, which is returned; only that lead's stage changes, to the stage of its direction |
| Db.AddInteractionUnknownLead | backend/db.py:124-131 | an interaction for an id no lead has changes no lead |
| Db.AddInteractionKeepsValid | backend/db.py:83-149 | `add_interaction` keeps the table invariant |
| Db.SetStageKeepsLeadsValid | backend/db.py:124-131 | moving a stage keeps ids, stages and pairs valid |
| Db.AppendInteractionKeepsValid | backend/db.py:102-113 | appending a row with the next id and a valid direction keeps the interactions table valid |
| Db.UpdateOne | backend/db.py:182 | definition, no contract: one `UPDATE leads SET key = ? WHERE id = ?` statement, failing on an unknown column or a constraint |
| Db.ApplyUpdates | backend/db.py:181-182 | definition, no contract: the loop over the statements in order, stopping at the first error |
| Db.UpdateLeadStep | backend/db.py:178-184 | definition, no contract: `update_lead`, committing the rows only if every statement succeeded |
| Db.AssignWhere | backend/db.py:182 | one column is set on the rows with that id; other rows are kept |
| Db.UpdateOneFrame | backend/db.py:182 | a successful statement changes only the row with that id, keeps every id and keeps the constraints |
| Db.UpdatesFrame | backend/db.py:181-182 | after any number of successful statements, the row with the id has every entry's column set, in order; other rows are untouched; no row is added, removed or renumbered |
| Db.UpdateLeadKeepsValid | backend/db.py:178-184 | `update_lead` keeps the invariant and leaves every other row and the interactions as they were; on success the row with the id has every given column set, in order |
| Db.AssignAll | backend/db.py:181-182 | setting the columns one after another never changes the row's id; `UpdatesFrame` proves it is the committed row |
| Db.FreeColumnUpdates | backend/db.py:182 | setting a column other than the stage, name or company always succeeds, as the plain UPDATE |
| Db.FreeColumnsSucceed | backend/db.py:178-184 | an `update_lead` whose statements touch only columns no constraint mentions always succeeds |
| Db.MessageUpdateSucceeds | backend/main.py:88-91 | the message endpoint's two-key update always succeeds and sets exactly `last_message` and `interaction_log` of that lead |
| Db.UnknownColumnRollsBack | backend/db.py:181-183 | an unknown column raises `OperationalError`, and even the earlier successful entries are not committed |
| Db.UnknownColumnFails | backend/db.py:181-182 | the statement loop fails at the unknown column, whatever follows |
| Db.UpdateErrorPersists | backend/db.py:181-182 | once a statement fails, later entries do not change the error |
| Db.ScoreUpdateSucceeds | backend/db.py:182 | setting the score always succeeds and changes exactly that lead's score |
| Db.InvalidStageRejected | backend/db.py:23 | setting a stage outside the three values on an existing lead raises `IntegrityError` and commits nothing |
| Db.GetLeads | backend/db.py:152-175 | definition, no contract: `get_leads`, every row or the rows with the id; `GetLeadsById` states its meaning |
| Db.RowsWithId | backend/db.py:156 | only rows with the id, all taken from the table |
| Db.RowsWithIdFinds | backend/db.py:156 | every row with the id is returned |
| Db.RowsWithIdOfAscending | backend/db.py:156 | with ascending ids at most one row is returned |
| Db.RowsWithIdNone | backend/db.py:156 | an id no row has returns nothing |
| Db.GetLeadsById | backend/db.py:152-175 | a non-zero id returns the one row with that id, or nothing; no id, or 0, returns every row |
| Db.LeadStore.constructor | backend/db.py:5-46 | the fresh tables are empty, with both counters at 1, and valid |
| Db.LeadStore.AddLead | backend/db.py:49-80 | result and new tables are the `add_lead` transition; the invariant is kept |
| Db.LeadStore.AddInteraction | backend/db.py:83-149 | result and new tables are the `add_interaction` transition; the invariant is kept |
| Db.LeadStore.UpdateLead | backend/db.py:178-184 | result and new tables are the `update_lead` transition: statements in order, committed only if all succeed; the invariant is kept |
| Db.LeadStore.GetLeadsQuery | backend/db.py:152-175 | the rows `get_leads` returns; at most one for a non-zero id |
| Reconciliation.Reply | backend/main.py:58-66 | definition, no contract: the endpoint's reply, a failure for any exception and success otherwise |
| Reconciliation.StageRulesAgree | frontend/src/components/LeadList.js:117 | on every direction the server accepts, the client picks the server's stage |
| Reconciliation.ServerRefusesOtherDirections | backend/db.py:116-121 | the server accepts exactly `inbound` and `outbound`; every other text, which the client would treat as inbound, is refused |
| Reconciliation.InteractionKeepsStagesInSync | backend/main.py:58-66 | with the endpoint turning any exception into a failure reply, submitting an interaction keeps the client's stages equal to the table's, row for row |

## Left out

- Network and browser I/O is left out: `fetch`, `response.json()`, `console.*`, and the 3-second timer (only its callback, `DismissNotification`, is modelled). Each handler takes the parsed reply, or a failure, as a parameter. The `requests` field records what would have been sent.
- Concurrency is left out. Handlers run atomically. The loading flag is still reset from the snapshot taken when the handler started. Overlapping handlers that overwrite each other's flags are not modelled.
- `parseFloat` of the weight inputs is left out. The weights and scores are given as values: `real` in a JavaScript number type with `undefined`, `null` and NaN. Floating-point rounding is not modelled.
- The client-side `budget` is modelled as text. The server sends it as a JSON number (`budget REAL`). `parseInt` first turns it into text with JavaScript's number-to-string rule, so 1e21 becomes `1e+21` and parses as 1. That conversion is not modelled; the lemmas about the budget total start from the text.
- A NULL stage is left out. `update_lead(id, {"stage": None})` stores NULL, because the CHECK constraint passes on NULL. `SetStage` takes only text, so the model cannot write NULL, and the invariant "every stage is one of the three values" does not cover NULL stages.
- ParseInt: `JsParseInt.ParseInt` returns the exact integer that the digits spell. JavaScript's `parseInt` rounds that value to the nearest double. The two differ only for magnitudes above 2^53 (9007199254740992): `parseInt("9007199254740993")` is 9007199254740992 in JavaScript.
- ParseIntText: the round trip is stated for every integer. In JavaScript it holds only for integers of magnitude at most 2^53, because of the rounding above.
- ParsedOrZeroText: the same rounding gap; exact only for integers of magnitude at most 2^53 in JavaScript.
- ParseIntHexPrefix: the hexadecimal value is exact. JavaScript rounds it to a double once it passes 2^53.
- TotalBudget: `App.TotalBudget` adds exact integers. The `reduce` at `App.js:79` adds doubles, which round once a partial sum passes 2^53 in magnitude.
- TotalBudgetAppend: the total of two collections is exactly the sum of their totals. In JavaScript this can fail once partial sums pass 2^53, because double addition is not associative there.
- BudgetTextContributes: the budget adds exactly `n` to the total. In JavaScript this holds only while `n` and the running sum stay within 2^53 in magnitude.
- Number-to-text rendering is left out (`${lead.budget}`, `Score: {lead.score || 'N/A'}`), along with the score badge colours in `MessageGenerator.js`.
- `lead.name.charAt(0).toUpperCase()` is left out.
- Unicode case folding is left out. `lower()` is modelled on ASCII letters only.
- JSX markup, CSS and the tab switching in `App.js` are left out. So are its `loading` and `error` states.
- Missing text fields in a client-side lead are modelled as the empty string. Every use treats them alike: falsy, and unequal to every stage name.
- `search_leads` and SQLite `LIKE` are left out. The search text goes into the endpoint without URL encoding, as written.
- Timestamps are left out: the client's ISO text, `datetime.fromisoformat` normalisation, and the column's default.
- Foreign keys are left out. The `PRAGMA` is set only on the connection that creates the tables, so an interaction for an unknown lead is stored.
- Connections are left out, and so is `update_lead` with `id` as a key.
- NULL is left out as a value of `name` or `company`. SQLite lets such rows repeat a pair despite UNIQUE.
- Row order is assumed to be insertion order.
- `update_lead` updates only `leads` columns; a key naming no column raises `OperationalError`.
- `frontend/src/utils/api.js` is not part of this model.
- `backend/grok_api.py` is not part of this model.
- `backend/prompts.py` is not part of this model.
- `backend/main.py` is not part of this model, except that its add-interaction endpoint turns an exception into a failure reply (`Reconciliation.Reply`).

# Scaffold board installer — a Dafny model

Scaffold sets up a Trello board for a student UX project. The user picks
roles (`pm`, `uxr`, `ui`), an optional deadline, an optional intensity, and
optional teammate e-mails. The installer then does the following:

- It assembles the card templates for those roles: three base cards always,
  plus one template group per selected role. The cards are sorted by phase,
  then by their order inside the phase.
- It spreads phase due dates between now and the deadline. Each of the nine
  phases gets a share of the time proportional to its weight. Chill weights
  are larger than standard weights.
- It makes a fixed sequence of Trello requests:
  1. the board;
  2. four role labels;
  3. nine phase lists;
  4. one card per template;
  5. three Admin cards: "Read me first", "Team Agreement" with a seven-item
     checklist, and "Decision Log";
  6. best-effort invitations of the teammates.
- It reports a `BoardCreationResult` summary.

The project has these modules:

| file | module | what it holds |
|---|---|---|
| `options.dfy` | `Options` | an `Option` type for optional inputs |
| `catalog.dfy` | `Catalog` | phases, roles, the four template groups, labels |
| `assembler.dfy` | `Assembler` | a stable insertion sort, `Assemble`, the count helpers |
| `scheduler.dfy` | `Scheduler` | `PhaseDates` over integer milliseconds |
| `invitations.dfy` | `Invitations` | ECMAScript `trim`, `split(',')`, and the e-mail list |
| `provisioner.dfy` | `Provisioner` | the request sequence over an oracle, and the result summary |

A few modelling choices matter for reading the contracts:

- **The remote side.** The Trello client is an oracle `api`. It answers each
  request given every exchange before it. A run is recorded as the log of
  `Exchange(call, reply)` pairs it performed.
- **Failures.** A rejected request ends the run. It becomes
  `Failure(ApiError(reason))`, just as the source's `catch` rethrows
  (trelloService.ts:494-497).
- **The expected log.** `Provisioned` is the reference definition of a
  successful run's log. It is positional: it refers to the ids returned at
  fixed log positions. The source instead uses name-keyed maps. Two lemmas,
  `MappedCardCallsArePositional` and `AdminLookups`, prove that the two
  readings agree.

## Model

| member | source | states |
|---|---|---|
| Catalog.CardLabel | src/app/utils/cardTemplates.ts:478-486 | the label name is one of the four board labels, and is "Everyone" exactly for base cards |
| Catalog.CardLabelSeparatesRoles | src/app/utils/cardTemplates.ts:478-486 | two cards get the same label iff they have the same role |
| Catalog.LabelNamesDistinct | src/app/utils/cardTemplates.ts:468-476 | the four label names are pairwise different |
| Catalog.TrelloLabels | src/app/utils/cardTemplates.ts:468-476 | there are four board labels and the fourth is "Everyone" |
| Catalog.PhasesFollowRank | src/app/utils/cardTemplates.ts:408-418 | the phase list has nine phases and is the sort table read in order |
| Catalog.PhaseNamesDistinct | src/app/utils/trelloService.ts:250-260 | no two phases share a list name |
| Catalog.BaseCardsAreBase | src/app/utils/cardTemplates.ts:15-37 | every base template has role base |
| Catalog.PmCardsArePm | src/app/utils/cardTemplates.ts:42-147 | every PM template has role pm |
| Catalog.UxrCardsAreUxr | src/app/utils/cardTemplates.ts:152-272 | every UXR template has role uxr |
| Catalog.UiCardsAreUi | src/app/utils/cardTemplates.ts:277-387 | every UI template has role ui |
| Catalog.CatalogSizes | src/app/utils/cardTemplates.ts:15-387 | the groups hold 3, 13, 16 and 14 templates |
| Catalog.GroupRoles | src/app/utils/cardTemplates.ts:15-387 | a template in a group carries that group's role |
| Catalog.StrictlyKeyedNoDup | src/app/utils/cardTemplates.ts:15-387 | a list whose sort keys strictly increase lists no card twice |
| Catalog.BaseNoDup | src/app/utils/cardTemplates.ts:15-37 | the base group lists no template twice |
| Catalog.PmNoDup | src/app/utils/cardTemplates.ts:42-147 | the PM group lists no template twice |
| Catalog.UxrNoDup | src/app/utils/cardTemplates.ts:152-272 | the UXR group lists no template twice |
| Catalog.UiNoDup | src/app/utils/cardTemplates.ts:277-387 | the UI group lists no template twice |
| Assembler.Insert | src/app/utils/cardTemplates.ts:420-424 | inserting a card adds exactly that card to the multiset |
| Assembler.SortCards | src/app/utils/cardTemplates.ts:420-424 | sorting is a permutation of its input |
| Assembler.InsertSorted | src/app/utils/cardTemplates.ts:420-424 | inserting into a sorted sequence keeps it sorted by (phase rank, order) |
| Assembler.SortCardsSorted | src/app/utils/cardTemplates.ts:420-424 | the sort result is ordered by phase rank, then order |
| Assembler.SortCardsMembers | src/app/utils/cardTemplates.ts:420-424 | a card is in the sorted result iff it is in the input |
| Assembler.TiesAppend | src/app/utils/cardTemplates.ts:420-424 | the cards with one sort key, taken from a concatenation, are those from each part in turn |
| Assembler.TiesCons | src/app/utils/cardTemplates.ts:420-424 | the same for one leading card |
| Assembler.TiesInsert | src/app/utils/cardTemplates.ts:420-424 | insertion puts the new card before earlier cards with the same key |
| Assembler.SortCardsStable | src/app/utils/cardTemplates.ts:420-424 | the sort is stable: cards with equal keys keep their input order, as `Array.prototype.sort` guarantees |
| Assembler.TiesMember | src/app/utils/cardTemplates.ts:420-424 | a card is among the ties of a key iff it is in the input with that phase and order |
| Assembler.TiesKeepOrder | src/app/utils/cardTemplates.ts:420-424 | the ties of a key appear in the input in the same relative order |
| Assembler.Assemble | src/app/utils/cardTemplates.ts:392-425 | the result is sorted and is a permutation of base cards plus the selected groups, with ties in selection order |
| Assembler.AssembleNoDuplicates | src/app/utils/cardTemplates.ts:392-425 | no card appears twice in the assembled list, for any roles |
| Assembler.SelectedNoDup | src/app/utils/cardTemplates.ts:392-405 | the pushed cards, before sorting, repeat no card |
| Assembler.PickedNoDup | src/app/utils/cardTemplates.ts:393-405 | groups without repeats, each of a single role, stay without repeats when picked and joined |
| Assembler.NoDupAppend | src/app/utils/cardTemplates.ts:393-405 | two lists without repeats and without a common card join into a list without repeats |
| Assembler.NoDupPermutation | src/app/utils/cardTemplates.ts:420-424 | reordering a list without repeats, as the sort does, keeps it without repeats |
| Assembler.Selected | src/app/utils/cardTemplates.ts:393-405 | the base cards are pushed first, before any role group |
| Assembler.SelectedMembers | src/app/utils/cardTemplates.ts:393-405 | a card is pushed iff it is a base card or belongs to a group whose role id is among the roles |
| Assembler.SelectedRoleCard | src/app/utils/cardTemplates.ts:395-405 | a pm, uxr or ui card is pushed iff its role id is among the roles |
| Assembler.AssembleContents | src/app/utils/cardTemplates.ts:393-405 | a card is assembled iff it is a base card or its group's role id is among the roles |
| Assembler.BaseAlwaysAssembled | src/app/utils/cardTemplates.ts:393 | base cards are included for every role list, the empty one too |
| Assembler.RoleCardIncludedIff | src/app/utils/cardTemplates.ts:395-405 | a pm, uxr or ui card is included iff its role id is among the roles |
| Assembler.NoRolesOnlyBase | src/app/utils/cardTemplates.ts:392-405 | with no known role id, only the three base cards are assembled |
| Assembler.AssembleDependsOnRoleSet | src/app/utils/cardTemplates.ts:395-405 | the result depends only on which ids occur, not on their order or repetition |
| Assembler.UnknownRoleIgnored | src/app/utils/cardTemplates.ts:395-405 | an id other than pm, uxr, ui changes nothing |
| Assembler.SelectedSize | src/app/utils/cardTemplates.ts:392-405 | the selection holds 3 cards plus 13, 16 and 14 for each selected group |
| Assembler.StableAcrossParts | src/app/utils/cardTemplates.ts:420-424 | for equal keys, a card pushed earlier comes earlier after the sort |
| Assembler.TieInDelivery | src/app/utils/cardTemplates.ts:15-147 | a base card and a PM card share the key (Delivery, 1), so stability matters |
| Assembler.DeliveryTieKeepsBaseFirst | src/app/utils/cardTemplates.ts:392-424 | with pm selected, that base Delivery card precedes the PM one on the board |
| Assembler.CardCount | src/app/utils/cardTemplates.ts:430-432 | the card count is 3 plus 13, 16 and 14 for each selected role |
| Assembler.CardCountMonotone | src/app/utils/cardTemplates.ts:430-432 | selecting more roles never lowers the count |
| Assembler.Breakdown | src/app/utils/cardTemplates.ts:434-448 | the per-group counts add up to the assembled total, and a group is non-zero iff its role is selected |
| Assembler.PhaseCountAsWritten | src/app/utils/cardTemplates.ts:450-452 | as written, the phase count is below the number of phases |
| Assembler.ListCountAsWritten | src/app/utils/cardTemplates.ts:454-456 | as written, the list count is below the number of phases |
| Assembler.CountsAsWrittenMissAPhase | src/app/utils/cardTemplates.ts:450-456 | the written constant 8 is below the nine phases, and Delivery's rank lies past it |
| Assembler.PhaseCount | src/app/utils/cardTemplates.ts:450-452 | the corrected phase count equals the number of phases and covers every rank |
| Assembler.ListCount | src/app/utils/cardTemplates.ts:454-456 | the corrected list count gives one list per phase, in rank order |
| Scheduler.TotalDays | src/app/utils/trelloService.ts:63 | whole days to the deadline, rounded down, also for past deadlines |
| Scheduler.IsChill | src/app/utils/trelloService.ts:83 | chill needs a five-letter intensity, and "chill" itself is chill (every letter case: `IsChillIffLetters`) |
| Scheduler.Weight | src/app/utils/trelloService.ts:85-95 | every doubled weight is at least 1, at most 4 standard and at most 6 chill |
| Scheduler.Weights | src/app/utils/trelloService.ts:85-95 | one positive weight per phase, in phase order |
| Scheduler.SumSuffix | src/app/utils/trelloService.ts:97 | the sum of the weights from position k on is the weight at k plus the sum after it |
| Scheduler.SumOfNine | src/app/utils/trelloService.ts:97 | the weight total is the sum of the nine weights |
| Scheduler.StandardTotal | src/app/utils/trelloService.ts:85-97 | the doubled standard weights add up to 25 |
| Scheduler.ChillTotal | src/app/utils/trelloService.ts:85-97 | the doubled chill weights add up to 31 |
| Scheduler.WeightTotals | src/app/utils/trelloService.ts:85-97 | the doubled totals are 25 (standard, 12.5) and 31 (chill, 15.5) |
| Scheduler.ChillWeightsLarger | src/app/utils/trelloService.ts:85-95 | chill never lowers a weight, and raises exactly Research, Synthesis, UI System, Prototype and Testing |
| Scheduler.PhaseDays | src/app/utils/trelloService.ts:97-117 | the phase length is the least day count covering its share of the time |
| Scheduler.PhaseDaysPositive | src/app/utils/trelloService.ts:117 | a phase with positive weight and a positive horizon gets at least one day |
| Scheduler.Walk | src/app/utils/trelloService.ts:116-127 | one date per phase |
| Scheduler.WalkBounded | src/app/utils/trelloService.ts:116-127 | the clamped walk stays between its start and the deadline and never goes back |
| Scheduler.WalkAdvances | src/app/utils/trelloService.ts:116-127 | with positive weights every phase ends strictly after the start |
| Scheduler.WalkClosedForm | src/app/utils/trelloService.ts:116-127 | the i-th date is the smaller of the deadline and the start plus the days of phases 0..i |
| Scheduler.NoDates | src/app/utils/trelloService.ts:47-59 | the empty table has no date for any phase |
| Scheduler.PhaseDates | src/app/utils/trelloService.ts:42-134 | dates exist iff there is a deadline at least 7 whole days away; then they are after now, non-decreasing, at most the deadline, and Delivery is the deadline |
| Scheduler.PhaseDatesClosedForm | src/app/utils/trelloService.ts:104-127 | each non-Delivery date is the clamped sum of the preceding phase lengths |
| Scheduler.IntensityIsChillOrStandard | src/app/utils/trelloService.ts:83 | any intensity other than case-insensitive "chill" schedules like no intensity |
| Scheduler.IsChillIffLetters | src/app/utils/trelloService.ts:83 | an intensity is chill iff it has five characters, each the letter of "chill" in lower or upper case |
| Scheduler.IsChillIgnoresCase | src/app/utils/trelloService.ts:83 | "chill", "Chill" and "CHILL" are chill; absent, "", "crunch" and "chill " are not |
| Scheduler.TwoWeeksAreFourteenDays | src/app/utils/trelloService.ts:63 | a deadline exactly 14 days out gives 14 whole days |
| Scheduler.TwoWeeksStandardPrefix | src/app/utils/trelloService.ts:116-127 | for that deadline the first two dates are the clamped prefix sums: the smaller of the deadline and now plus the days of the first k phases |
| Scheduler.TwoWeeksStandardDays | src/app/utils/trelloService.ts:117 | Admin takes ceil(0.5·14/12.5) = 1 day and Frame 2 more |
| Scheduler.TwoWeeksStandardAdmin | src/app/utils/trelloService.ts:116-127 | for that deadline Admin is due after 1 day |
| Scheduler.TwoWeeksStandardFrame | src/app/utils/trelloService.ts:116-127 | for that deadline Frame is due after 3 days |
| Scheduler.TwoWeeksStandard | src/app/utils/trelloService.ts:42-134 | a two-week standard plan puts Admin at day 1, Frame at day 3 and Delivery at the deadline |
| Invitations.SkipSpace | src/app/utils/trelloService.ts:468 | the scan for the first non-blank stays inside the string |
| Invitations.BackSpace | src/app/utils/trelloService.ts:468 | the scan back for the last non-blank stays inside its range |
| Invitations.SkipSpaceSkipsSpace | src/app/utils/trelloService.ts:468 | everything skipped is white space, and the scan stops at a non-blank or the end |
| Invitations.BackSpaceSkipsSpace | src/app/utils/trelloService.ts:468 | the same for the backward scan |
| Invitations.Trim | src/app/utils/trelloService.ts:468 | trim never lengthens a string and leaves no white space at either end |
| Invitations.TrimIsSlice | src/app/utils/trelloService.ts:468 | trim is the slice between the leading and the trailing white space |
| Invitations.TrimEmptyIffBlank | src/app/utils/trelloService.ts:466 | a string trims to "" iff it is all white space |
| Invitations.TrimKeepsOut | src/app/utils/trelloService.ts:468 | trimming adds no character |
| Invitations.TrimKeepsTrimmed | src/app/utils/trelloService.ts:468 | a string without outer white space is its own trim |
| Invitations.TrimIdempotent | src/app/utils/trelloService.ts:468 | trimming twice is trimming once |
| Invitations.Split | src/app/utils/trelloService.ts:468 | split gives at least one piece, and no piece contains the separator |
| Invitations.JoinSplit | src/app/utils/trelloService.ts:468 | joining the pieces with the separator gives back the string |
| Invitations.SplitJoin | src/app/utils/trelloService.ts:468 | splitting a join of separator-free pieces gives back the pieces |
| Invitations.SplitWithoutSep | src/app/utils/trelloService.ts:468 | a string without the separator is one piece |
| Invitations.SplitAtFirst | src/app/utils/trelloService.ts:468 | split cuts at the first separator and continues on the rest |
| Invitations.Addresses | src/app/utils/trelloService.ts:468 | map-trim-filter keeps at most the pieces, each non-empty and trimmed |
| Invitations.AddressesKeepNonBlank | src/app/utils/trelloService.ts:468 | the set of addresses is exactly the set of trims of the non-blank pieces (order and repeats: `AddressesAppend`) |
| Invitations.AddressesOne | src/app/utils/trelloService.ts:468 | one piece gives its trim, or nothing when the trim is empty |
| Invitations.AddressesAppend | src/app/utils/trelloService.ts:468 | the addresses of joined piece lists are the addresses of each list in turn, so the pieces keep their order and repeats |
| Invitations.InviteEmails | src/app/utils/trelloService.ts:466-468 | every address to invite is non-empty, trimmed and comma-free |
| Invitations.AddressesAvoidSep | src/app/utils/trelloService.ts:468 | addresses of comma-free pieces are comma-free |
| Invitations.BlankGuardIsRedundant | src/app/utils/trelloService.ts:466-468 | the `teamEmails.trim()` guard changes nothing: a given string yields its split-trim-filter list |
| Invitations.BlankYieldsNone | src/app/utils/trelloService.ts:466 | no e-mails, or only white space, means no invitation |
| Invitations.InviteEmailsRoundTrip | src/app/utils/trelloService.ts:466-468 | a comma-joined list of trimmed non-empty addresses parses back to itself |
| Invitations.AddressesOfTrimmed | src/app/utils/trelloService.ts:468 | filtering already-trimmed non-empty addresses keeps all of them |
| Invitations.SamplePieces | src/app/utils/trelloService.ts:468 | "a@x.com, , b@x.com" splits into three pieces |
| Invitations.SampleTrims | src/app/utils/trelloService.ts:468 | those pieces trim to "a@x.com", "" and "b@x.com" |
| Invitations.BlankPieceDropped | src/app/utils/trelloService.ts:466-468 | that input invites just the two addresses |
| Provisioner.BoardName | src/app/utils/trelloService.ts:220 | the board name is never empty, and is the project name whenever that is non-empty |
| Provisioner.BuildMap | src/app/utils/trelloService.ts:237-269 | the map's keys are exactly the names created |
| Provisioner.BuildMapLookup | src/app/utils/trelloService.ts:237-269 | with distinct names, looking up a name gives the id created for it |
| Provisioner.LaterKeyWins | src/app/utils/trelloService.ts:244 | a name assigned twice keeps the later id |
| Provisioner.LabelNames | src/app/utils/trelloService.ts:236-246 | one map key per board label |
| Provisioner.ListNames | src/app/utils/trelloService.ts:250-271 | one map key per phase |
| Provisioner.NamesDistinct | src/app/utils/trelloService.ts:236-271 | label names and list names are each distinct, so the maps lose no id |
| Provisioner.LabelIndex | src/app/utils/cardTemplates.ts:468-486 | each role's label is one of the four created |
| Provisioner.LabelIndexNamesCardLabel | src/app/utils/cardTemplates.ts:478-486 | the label at a role's index is the card's label name |
| Provisioner.ListNamesFollowRank | src/app/utils/trelloService.ts:250-271 | the list created at a phase's rank is named after that phase |
| Provisioner.MappedCardCalls | src/app/utils/trelloService.ts:277-296 | one card request per assembled card |
| Provisioner.CardCalls | src/app/utils/trelloService.ts:277-296 | one card request per assembled card, in positional form |
| Provisioner.MappedCardCallIsPositional | src/app/utils/trelloService.ts:278-286 | a card's label and list looked up by name are the ids created at its role's and phase's positions |
| Provisioner.MappedCardCallsArePositional | src/app/utils/trelloService.ts:277-296 | the map-based card requests equal the positional ones |
| Provisioner.LabelCalls | src/app/utils/trelloService.ts:239-246 | one label request per board label |
| Provisioner.ListCalls | src/app/utils/trelloService.ts:264-271 | one list request per phase |
| Provisioner.CheckItemCalls | src/app/utils/trelloService.ts:408-422 | one request per checklist item |
| Provisioner.InviteCalls | src/app/utils/trelloService.ts:470-480 | one invite per address |
| Provisioner.AdminCalls | src/app/utils/trelloService.ts:299-463 | the Admin block has 12 requests with an Admin date, 11 without |
| Provisioner.Post | src/app/utils/trelloService.ts:219 | a request gets the oracle's reply for the log so far |
| Provisioner.PostAll | src/app/utils/trelloService.ts:239-297 | the requests are sent in order; either all are created, or the run stops at the first rejection and reports its reason |
| Provisioner.InviteAll | src/app/utils/trelloService.ts:470-480 | every address is invited in order whatever the replies |
| Provisioner.Append | src/app/utils/trelloService.ts:299-463 | one request appended to a run gets the oracle's reply |
| Provisioner.FailedAfter | src/app/utils/trelloService.ts:494-497 | a rejection after created requests ends the whole log |
| Provisioner.CreatedAfter | src/app/utils/trelloService.ts:219-463 | created parts join into a created log |
| Provisioner.NoInvitesAfter | src/app/utils/trelloService.ts:465-481 | invite-free parts join into an invite-free log |
| Provisioner.CreateStructure | src/app/utils/trelloService.ts:219-271 | board, four labels and nine lists are requested in order; a run stopped at a rejection has sent a prefix of exactly those requests |
| Provisioner.StructureLayout | src/app/utils/trelloService.ts:219-271 | the label and list requests sit at positions 1-4 and 5-13 of the log |
| Provisioner.CreateAgreementCards | src/app/utils/trelloService.ts:299-401 | read-me and team-agreement cards go to the Admin list, the latter labelled Everyone; a rejection stops after a prefix of the two |
| Provisioner.CreateAgreement | src/app/utils/trelloService.ts:299-406 | the two cards, then the checklist on the team-agreement card; a rejection stops after a prefix of those three |
| Provisioner.CreateClosing | src/app/utils/trelloService.ts:424-463 | the due-date update only when Admin has a date, then the Decision Log card; a rejection stops after a prefix of those |
| Provisioner.CreateAdminCards | src/app/utils/trelloService.ts:299-463 | the Admin block is requested in order; a run stopped at a rejection has sent a prefix of that block, over the ids returned so far |
| Provisioner.AdminLayout | src/app/utils/trelloService.ts:299-463 | the parts of the Admin block form `AdminCalls` over the ids returned |
| Provisioner.CallsAppend | src/app/utils/trelloService.ts:219-481 | the requests of a joined log are the requests of each part |
| Provisioner.AdminLookups | src/app/utils/trelloService.ts:342-398 | `listMap['Admin']` is the first list created and `labelMap['Everyone']` the fourth label |
| Provisioner.CreateCompleteBoard | src/app/utils/trelloService.ts:204-498 | corrected installer: unauthorised means no request; otherwise the run is `Installed` for the assembled cards, the parsed e-mails and the phase dates, so a failed run has sent a prefix of the reference `Layout` |
| Provisioner.Install | src/app/utils/trelloService.ts:219-498 | `Installed`: every request is answered by the oracle and the board comes first; a rejection stops the run with its reason, no invite sent, and the requests sent are a prefix of the reference `Layout`; success means the log is `Provisioned` and the summary holds the board's id, url, name and 9 / cards+3 / 4; an always-accepting server gives success |
| Provisioner.Layout | src/app/utils/trelloService.ts:219-463 | the reference request sequence before the invitations has 14 + cards + Admin-block entries |
| Provisioner.SentPrefixAppend | src/app/utils/trelloService.ts:219-463 | a completed stage followed by a stage cut short has sent a prefix of both stages in turn |
| Provisioner.SentPrefixExtend | src/app/utils/trelloService.ts:219-463 | a prefix of some stages stays a prefix when later stages follow |
| Provisioner.StructureFollowsLayout | src/app/utils/trelloService.ts:219-271 | a run cut short while creating the structure has sent a prefix of the layout |
| Provisioner.ContentFollowsLayout | src/app/utils/trelloService.ts:273-463 | a created structure followed by content cut short has sent a prefix of the layout |
| Provisioner.LayoutAfterStructure | src/app/utils/trelloService.ts:219-463 | after a created structure the layout is that structure's requests, the positional card requests and the Admin block |
| Provisioner.LayoutUsesEarlierReplies | src/app/utils/trelloService.ts:219-463 | the layout up to position k depends only on the exchanges before k, as each request uses only earlier replies |
| Provisioner.StructureFailureSendsNoCard | src/app/utils/trelloService.ts:219-297 | a run rejected within its first 14 requests has sent no card |
| Provisioner.FailedRun | src/app/utils/trelloService.ts:494-497 | a created structure followed by a part that ends in a rejection gives a log that ends with that rejecting exchange and holds no invitation, and the server is then not one that accepts everything |
| Provisioner.ProvisionedRun | src/app/utils/trelloService.ts:219-481 | the created structure, content and invite parts form a `Provisioned` log |
| Provisioner.CreateContent | src/app/utils/trelloService.ts:273-463 | the template cards, then the Admin block, using the ids created for the labels and lists; a rejection stops after a prefix of those |
| Provisioner.CreateTemplateCards | src/app/utils/trelloService.ts:273-297 | one card per template, in assembled order, with its phase's list, its role's label and its phase's date; a rejection stops after a prefix of those |
| Provisioner.AcceptingNeverFailsIf | src/app/utils/trelloService.ts:494-497 | a rejection in an answered log means the server does not accept everything |
| Provisioner.ProvisionedFollowsLayout | src/app/utils/trelloService.ts:219-463 | the requests of a successful run before its invitations are exactly the layout |
| Provisioner.ProvisionedStructure | src/app/utils/trelloService.ts:219-271 | a successful run's first 14 requests are the board, its labels and its lists |
| Provisioner.ProvisionedContent | src/app/utils/trelloService.ts:273-463 | a successful run's next requests are the positional card requests, then the Admin block |
| Provisioner.CallsSplit | src/app/utils/trelloService.ts:219-481 | the requests of a stretch of the log are those of its two halves |
| Provisioner.ProvisionedFromParts | src/app/utils/trelloService.ts:219-481 | the stage-by-stage layout meets the reference definition |
| Provisioner.TemplateCardPlacement | src/app/utils/trelloService.ts:277-296 | in a successful run, card j goes to the list created under its phase's name and carries the label created under its label name |
| Provisioner.TemplateCardDue | src/app/utils/trelloService.ts:280-293 | card j has a due date iff the deadline is schedulable, and then it lies after now and at most at the deadline |
| Provisioner.Count | src/app/utils/trelloService.ts:485-492 | a count of requests never exceeds the log |
| Provisioner.CountAppend | src/app/utils/trelloService.ts:485-492 | counts add over concatenation |
| Provisioner.CountUniform | src/app/utils/trelloService.ts:485-492 | a uniform run counts all or nothing |
| Provisioner.ProvisionedCalls | src/app/utils/trelloService.ts:219-481 | a provisioned log's requests are the six stages in order |
| Provisioner.CountStages | src/app/utils/trelloService.ts:485-492 | counting over the six stages adds up |
| Provisioner.AdminCallsCount | src/app/utils/trelloService.ts:299-463 | the Admin block has three card requests and no label or list request |
| Provisioner.AdminCountsOf | src/app/utils/trelloService.ts:407-422 | the checklist items do not add to the card, list or label counts |
| Provisioner.StageCount | src/app/utils/trelloService.ts:485-492 | per-stage counts of label, list and card requests |
| Provisioner.SummaryCountsRequests | src/app/utils/trelloService.ts:485-492 | the summary's 4 labels, 9 lists and cards+3 are the number of such requests in the log |
| Provisioner.CreateCompleteBoardAsWritten | src/app/utils/trelloService.ts:349-404 | as written: every run fails, and with an accepting server it fails on the unbound `teamAgreementCard` right after the team-agreement card |
| Provisioner.InstallAsWritten | src/app/utils/trelloService.ts:219-425 | `InstalledAsWritten`: every run fails after at most 16 + cards requests; with an accepting server, exactly then, on the unbound `teamAgreementCard`, the last request being the team-agreement card |

## Left out

- Trello OAuth (`checkExistingAuth`, `authorizeTrello`, `isAuthorized`, `deauthorizeTrello`, trelloService.ts:137-201): browser pop-ups and local storage. Authorisation is the boolean parameter `authorized`.
- The HTTP client `window.Trello.post` is replaced by the oracle `api`. Network errors, rate limits and retries are not modelled beyond "the request is rejected with a reason".
- Request fields that never vary are not modelled: the board's `defaultLists: false`, `prefs_permissionLevel` and `prefs_background`, a list's `pos: 'bottom'`, an invite's `type: 'normal'`, and the returned board's other fields.
- The three long Markdown descriptions of the Admin cards are kept abstract (`ReadMeFirst`, `TeamAgreement`, `DecisionLog`). The template texts are literal.
- Scheduler.PhaseDates: JavaScript `Date` and `toISOString` are replaced by integer milliseconds. The clock is the parameter `now`. The weights are doubled to integers, so `Math.ceil(weight * totalDays / totalWeight)` is exact. The source computes it in binary floating point. For these weights the integer model is exact: the quotient is a whole number only when 25 (standard) or 31 (chill) divides the day count, and then `totalDays / totalWeight` is an exact binary value. Otherwise the quotient is at least 1/31 away from a whole number, far more than any rounding error for a realistic day count.
- Scheduler.IsChill: `toLowerCase` is modelled for ASCII letters only.
- Invitations.Trim: the white-space set is the ECMAScript one written out by code point.
- Invitations.InviteEmails: a rejected invitation is caught and logged by the source (trelloService.ts:477-479). The model sends every invitation and reports nothing about rejections, as the code does. No list of failed invitations is kept: `BoardCreationResult` (trelloService.ts:28-35) has no field for them, and the failure list on the success screen is fixed sample data (src/app/components/wizard/WizardSuccess.tsx:11-17).
- Console logging, the React wizard and the landing pages are not part of this model.
- Assembler.SortCards: `Array.prototype.sort` is modelled as a stable insertion sort. The ECMAScript standard has required `sort` to be stable since its 2019 edition, so only the order of the result matters, not the algorithm.
- Assembler.Assemble: role ids are a sequence of strings. Each card's phase is a closed enumeration, so a card with an unknown phase name, which the source would sort by `NaN`, cannot occur. This holds for every template in the catalogue.

## Findings

| source | as written | input that shows it | evidently intended | confidence | as-written member | corrected member |
|---|---|---|---|---|---|---|
| src/app/utils/cardTemplates.ts:450-456 | `getPhaseCount` and `getListCount` return the constant 8 ("one list per phase") | any call; the installer creates nine phase lists, Admin to Delivery (trelloService.ts:250-271) | 9, the number of phases | high; not executed | Assembler.CountsAsWrittenMissAPhase | Assembler.PhaseCount |
| src/app/utils/trelloService.ts:349,404,425 | the Team Agreement card is posted without binding its reply, but `teamAgreementCard.id` is read next | any authorised run whose requests up to that card are all accepted: the checklist step throws a ReferenceError (a strict TypeScript build rejects the name outright), so `createCompleteBoard` never succeeds | bind the reply (`const teamAgreementCard = await …`) and attach the checklist and due date to that card | high; not executed | Provisioner.CreateCompleteBoardAsWritten | Provisioner.CreateCompleteBoard |

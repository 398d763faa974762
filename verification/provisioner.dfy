/**
 * The board installer: after an authorisation check it creates a board, its
 * four role labels, one list per phase, one card per assembled template, the
 * three fixed Admin cards (with the team-agreement checklist), and finally
 * invites the teammates.
 *
 * The Trello HTTP client is replaced by an oracle `api` that answers each
 * call given everything exchanged before it, so a run is a deterministic
 * function of the oracle. The run is recorded as the log of exchanges it
 * performed, in order.
 */
module Provisioner {
  import opened Options
  import opened Catalog
  import opened Assembler
  import opened Scheduler
  import opened Invitations

  /** A card description. The three long Markdown texts of the Admin cards are kept abstract. */
  datatype Description = Template(text: string) | ReadMeFirst | TeamAgreement | DecisionLog

  datatype Position = Top | Bottom

  /** One API request, with the fields the installer fills in. */
  datatype Call =
    | CreateBoard(name: string)
    | CreateLabel(boardId: string, labelName: string, color: string)
    | CreateList(boardId: string, listName: string)
    | CreateCard(listId: string, title: string, desc: Description, labelIds: seq<string>, due: Option<int>, pos: Position)
    | CreateChecklist(cardId: string, checklistName: string)
    | CreateCheckItem(checklistId: string, itemName: string)
    | SetCardDue(dueCardId: string, dueAt: int)
    | InviteMember(inviteBoardId: string, email: string)

  /** The answer to a request: the created object's id (and url), or a rejection. */
  datatype Reply = Created(id: string, url: string) | Rejected(reason: string)

  datatype Exchange = Exchange(call: Call, reply: Reply)

  /** The remote side: the reply to a call, given every exchange before it. */
  type Api = (seq<Exchange>, Call) -> Reply

  /** The `i`-th reply in the log is the one the oracle gives after the exchanges before it. */
  predicate AnsweredAt(api: Api, log: seq<Exchange>, i: nat)
    requires i < |log|
  {
    log[i].reply == api(log[..i], log[i].call)
  }

  /** Every reply in the log is the one the oracle gives at that point. */
  predicate Answered(api: Api, log: seq<Exchange>) {
    forall i: nat {:trigger AnsweredAt(api, log, i)} :: i < |log| ==> AnsweredAt(api, log, i)
  }

  predicate AllCreated(log: seq<Exchange>) {
    forall i :: 0 <= i < |log| ==> log[i].reply.Created?
  }

  /** A run that stopped at its first rejected request. */
  predicate FailedAtEnd(log: seq<Exchange>) {
    |log| > 0 && log[|log| - 1].reply.Rejected? && AllCreated(log[..|log| - 1])
  }

  predicate NoInvites(log: seq<Exchange>) {
    forall i :: 0 <= i < |log| ==> !log[i].call.InviteMember?
  }

  function Calls(log: seq<Exchange>): seq<Call> {
    seq(|log|, i requires 0 <= i < |log| => log[i].call)
  }

  function Ids(log: seq<Exchange>): seq<string>
    requires AllCreated(log)
  {
    seq(|log|, i requires 0 <= i < |log| => log[i].reply.id)
  }

  /** The returned summary of a finished installation. */
  datatype BoardCreationResult = BoardCreationResult(
    boardId: string, boardUrl: string, boardName: string,
    listsCreated: nat, cardsCreated: nat, labelsCreated: nat)

  /** Why an installation stopped: no authorisation, a rejected request, or a name that was never bound. */
  datatype BoardError = NotAuthorized | ApiError(reason: string) | UnboundReference(name: string)

  datatype Outcome = Success(board: BoardCreationResult) | Failure(error: BoardError)

  /** The board's name: the project name, or a fixed fallback when it is empty. */
  function BoardName(projectName: string): (name: string)
    ensures name != []
    ensures projectName != [] ==> name == projectName
  {
    if projectName == [] then "UX Project Board" else projectName
  }

  const ReadMeTitle: string := "\U{1F4D6} Read me first"
  const TeamAgreementTitle: string := "Define team agreement"
  const DecisionLogTitle: string := "\U{1F4CB} Decision Log"
  const ChecklistName: string := "Agreement setup"

  const ChecklistItems: seq<string> := [
    "Fill in chat channel + file location",
    "Agree response time expectation",
    "Set meeting cadence",
    "Confirm Definition of Done rules",
    "Confirm decision rule (comment window)",
    "Add any team-specific add-ons",
    "PM: pin or star this card (so it stays findable)"
  ]

  // ---------------------------------------------------------------------------
  // Name-keyed maps, filled in creation order as the installer does
  // ---------------------------------------------------------------------------

  /** The map from `keys[i]` to `vals[i]`, assigned in order, so a later key overwrites an earlier one. */
  function BuildMap(keys: seq<string>, vals: seq<string>): (m: map<string, string>)
    requires |keys| == |vals|
    ensures forall k :: k in m <==> k in keys
  {
    if |keys| == 0 then map[]
    else BuildMap(keys[..|keys| - 1], vals[..|vals| - 1])[keys[|keys| - 1] := vals[|vals| - 1]]
  }

  /** A missing key reads as the empty id, which is falsy like JavaScript's `undefined`. */
  function Lookup(m: map<string, string>, k: string): string {
    if k in m then m[k] else ""
  }

  predicate Distinct(keys: seq<string>) {
    forall i, j :: 0 <= i < j < |keys| ==> keys[i] != keys[j]
  }

  /** With distinct keys every key finds the value created with it. */
  lemma {:induction false} BuildMapLookup(keys: seq<string>, vals: seq<string>, i: nat)
    requires |keys| == |vals| && Distinct(keys) && i < |keys|
    ensures Lookup(BuildMap(keys, vals), keys[i]) == vals[i]
  {
    var n := |keys| - 1;
    if i < n {
      assert Distinct(keys[..n]) by {
        forall a, b | 0 <= a < b < |keys[..n]| ensures keys[..n][a] != keys[..n][b] {
          assert keys[..n][a] == keys[a] && keys[..n][b] == keys[b];
        }
      }
      BuildMapLookup(keys[..n], vals[..n], i);
      assert keys[..n][i] == keys[i] && vals[..n][i] == vals[i];
      assert keys[i] != keys[n];
    }
  }

  /** With a repeated key, the value created last is the one kept. */
  lemma LaterKeyWins(k: string, v1: string, v2: string)
    ensures Lookup(BuildMap([k, k], [v1, v2]), k) == v2
  {
    assert [k, k][..1] == [k] && [v1, v2][..1] == [v1];
  }

  function LabelNames(): (names: seq<string>)
    ensures |names| == |TrelloLabels()|
  {
    seq(|TrelloLabels()|, j requires 0 <= j < |TrelloLabels()| => TrelloLabels()[j].name)
  }

  function ListNames(): (names: seq<string>)
    ensures |names| == |Phases|
  {
    seq(|Phases|, j requires 0 <= j < |Phases| => PhaseName(Phases[j]))
  }

  lemma NamesDistinct()
    ensures Distinct(LabelNames()) && Distinct(ListNames())
  {
    LabelNamesDistinct();
    PhaseNamesDistinct();
  }

  /** Where a role's label sits among the created labels. */
  function LabelIndex(r: Role): (j: nat)
    ensures j < |TrelloLabels()|
  {
    match r
    case Pm => 0
    case Uxr => 1
    case Ui => 2
    case Base => 3
  }

  lemma LabelIndexNamesCardLabel(c: Card)
    ensures LabelNames()[LabelIndex(c.role)] == CardLabel(c)
  {
  }

  lemma ListNamesFollowRank(p: Phase)
    ensures ListNames()[PhaseRank(p) - 1] == PhaseName(p)
  {
    PhasesFollowRank();
  }

  // ---------------------------------------------------------------------------
  // The requests, as the installer writes them and as positions in the log
  // ---------------------------------------------------------------------------

  /** An empty label id gives a card no label. */
  function LabelList(labelId: string): seq<string> {
    if labelId != [] then [labelId] else []
  }

  /** A template card as the installer posts it: list and label looked up by name, due date if the phase has one. */
  function MappedCardCall(c: Card, labelMap: map<string, string>, listMap: map<string, string>, dates: DueTable): Call
    requires |dates| == |Phases|
  {
    CreateCard(Lookup(listMap, PhaseName(c.phase)), c.title, Template(c.description),
               LabelList(Lookup(labelMap, CardLabel(c))), DueOf(dates, c.phase), Bottom)
  }

  function MappedCardCalls(cards: seq<Card>, labelMap: map<string, string>, listMap: map<string, string>, dates: DueTable): (calls: seq<Call>)
    requires |dates| == |Phases|
    ensures |calls| == |cards|
  {
    seq(|cards|, i requires 0 <= i < |cards| => MappedCardCall(cards[i], labelMap, listMap, dates))
  }

  /** A template card by position: its phase's list and its role's label, taken from the creation replies. */
  function CardCalls(cards: seq<Card>, labelIds: seq<string>, listIds: seq<string>, dates: DueTable): (calls: seq<Call>)
    requires |labelIds| == |TrelloLabels()| && |listIds| == |Phases| == |dates|
    ensures |calls| == |cards|
  {
    seq(|cards|, i requires 0 <= i < |cards| =>
      CreateCard(listIds[PhaseRank(cards[i].phase) - 1], cards[i].title, Template(cards[i].description),
                 LabelList(labelIds[LabelIndex(cards[i].role)]), DueOf(dates, cards[i].phase), Bottom))
  }

  /** Looking a card's list and label up by name finds the ones created for its phase and role. */
  lemma MappedCardCallIsPositional(c: Card, labelIds: seq<string>, listIds: seq<string>, dates: DueTable)
    requires |labelIds| == |TrelloLabels()| && |listIds| == |Phases| == |dates|
    ensures Lookup(BuildMap(LabelNames(), labelIds), CardLabel(c)) == labelIds[LabelIndex(c.role)]
    ensures Lookup(BuildMap(ListNames(), listIds), PhaseName(c.phase)) == listIds[PhaseRank(c.phase) - 1]
  {
    NamesDistinct();
    LabelIndexNamesCardLabel(c);
    BuildMapLookup(LabelNames(), labelIds, LabelIndex(c.role));
    ListNamesFollowRank(c.phase);
    BuildMapLookup(ListNames(), listIds, PhaseRank(c.phase) - 1);
  }

  /** The cards the installer posts are the positional ones. */
  lemma MappedCardCallsArePositional(cards: seq<Card>, labelIds: seq<string>, listIds: seq<string>, dates: DueTable)
    requires |labelIds| == |TrelloLabels()| && |listIds| == |Phases| == |dates|
    ensures MappedCardCalls(cards, BuildMap(LabelNames(), labelIds), BuildMap(ListNames(), listIds), dates)
         == CardCalls(cards, labelIds, listIds, dates)
  {
    var labelMap, listMap := BuildMap(LabelNames(), labelIds), BuildMap(ListNames(), listIds);
    forall i | 0 <= i < |cards|
      ensures MappedCardCalls(cards, labelMap, listMap, dates)[i] == CardCalls(cards, labelIds, listIds, dates)[i]
    {
      MappedCardCallIsPositional(cards[i], labelIds, listIds, dates);
    }
  }

  function LabelCalls(boardId: string): (calls: seq<Call>)
    ensures |calls| == |TrelloLabels()|
  {
    seq(|TrelloLabels()|, j requires 0 <= j < |TrelloLabels()| =>
      CreateLabel(boardId, TrelloLabels()[j].name, TrelloLabels()[j].color))
  }

  function ListCalls(boardId: string): (calls: seq<Call>)
    ensures |calls| == |Phases|
  {
    seq(|Phases|, j requires 0 <= j < |Phases| => CreateList(boardId, PhaseName(Phases[j])))
  }

  function CheckItemCalls(checklistId: string): (calls: seq<Call>)
    ensures |calls| == |ChecklistItems|
  {
    seq(|ChecklistItems|, j requires 0 <= j < |ChecklistItems| => CreateCheckItem(checklistId, ChecklistItems[j]))
  }

  function InviteCalls(boardId: string, emails: seq<string>): (calls: seq<Call>)
    ensures |calls| == |emails|
  {
    seq(|emails|, j requires 0 <= j < |emails| => InviteMember(boardId, emails[j]))
  }

  /**
   * The fixed Admin cards: "Read me first" on top, the team agreement with
   * the Everyone label, its checklist and items, its due date again when the
   * Admin phase has one, then the decision log.
   */
  function AdminCalls(adminList: string, everyone: string, teamCard: string, checklist: string, admin: Option<int>): (calls: seq<Call>)
    ensures |calls| == AdminLength(admin)
  {
    [ CreateCard(adminList, ReadMeTitle, ReadMeFirst, [], admin, Top),
      CreateCard(adminList, TeamAgreementTitle, TeamAgreement, [everyone], admin, Bottom),
      CreateChecklist(teamCard, ChecklistName) ]
    + CheckItemCalls(checklist)
    + (if admin.Some? then [SetCardDue(teamCard, admin.value)] else [])
    + [CreateCard(adminList, DecisionLogTitle, DecisionLog, [], admin, Bottom)]
  }

  function AdminLength(admin: Option<int>): nat {
    if admin.Some? then 12 else 11
  }

  /**
   * A complete, successful run, position by position: the board, its labels,
   * its lists, the template cards, the Admin cards, then one invitation per
   * address; every request before the invitations was accepted, and every
   * id a request uses is one an earlier reply returned.
   */
  predicate Provisioned(log: seq<Exchange>, projectName: string, cards: seq<Card>, emails: seq<string>, dates: DueTable)
    requires |dates| == |Phases|
  {
    var n := |cards|;
    var pre := 14 + n + AdminLength(DueOf(dates, Admin));
    && |log| == pre + |emails|
    && AllCreated(log[..pre])
    && assert log[..pre][0] == log[0] && log[..pre][15 + n] == log[15 + n] && log[..pre][16 + n] == log[16 + n];
       var boardId := log[0].reply.id;
    && var labelIds := Ids(log[1..5]);
    && var listIds := Ids(log[5..14]);
    && log[0].call == CreateBoard(BoardName(projectName))
    && Calls(log[1..5]) == LabelCalls(boardId)
    && Calls(log[5..14]) == ListCalls(boardId)
    && Calls(log[14..14 + n]) == CardCalls(cards, labelIds, listIds, dates)
    && Calls(log[14 + n..pre])
       == AdminCalls(listIds[0], labelIds[3], log[15 + n].reply.id, log[16 + n].reply.id, DueOf(dates, Admin))
    && Calls(log[pre..]) == InviteCalls(boardId, emails)
  }

  /** The id the `i`-th reply returned, or the empty id when the log holds no such created reply. */
  function IdAt(log: seq<Exchange>, i: nat): string {
    if i < |log| && log[i].reply.Created? then log[i].reply.id else ""
  }

  /** The ids returned by `count` consecutive replies from position `from`. */
  function IdsAt(log: seq<Exchange>, from: nat, count: nat): (ids: seq<string>)
    ensures |ids| == count
    ensures forall j :: 0 <= j < count ==> ids[j] == IdAt(log, from + j)
  {
    seq(count, j requires 0 <= j < count => IdAt(log, from + j))
  }

  /** The board, then its labels, then its lists. */
  function StructureCalls(name: string, boardId: string): (calls: seq<Call>)
    ensures |calls| == 14
  {
    [CreateBoard(name)] + LabelCalls(boardId) + ListCalls(boardId)
  }

  /**
   * Every request of a run before the invitations, position by position, with
   * each id taken from the reply at the position that created it. A request
   * only uses ids returned at earlier positions, so a run cut short at any
   * point is compared against this layout up to that point.
   */
  function Layout(log: seq<Exchange>, projectName: string, cards: seq<Card>, dates: DueTable): (calls: seq<Call>)
    requires |dates| == |Phases|
    ensures |calls| == 14 + |cards| + AdminLength(DueOf(dates, Admin))
  {
    var n := |cards|;
    var labelIds, listIds := IdsAt(log, 1, 4), IdsAt(log, 5, 9);
    StructureCalls(BoardName(projectName), IdAt(log, 0))
    + CardCalls(cards, labelIds, listIds, dates)
    + AdminCalls(listIds[0], labelIds[3], IdAt(log, 15 + n), IdAt(log, 16 + n), DueOf(dates, Admin))
  }

  /** The requests of `log` are the first `|log|` requests of `calls`. */
  predicate SentPrefix(log: seq<Exchange>, calls: seq<Call>) {
    |log| <= |calls| && Calls(log) == calls[..|log|]
  }

  // ---------------------------------------------------------------------------
  // Issuing requests
  // ---------------------------------------------------------------------------

  /** Sends one request after `history`. */
  method Post(api: Api, history: seq<Exchange>, call: Call) returns (reply: Reply)
    requires Answered(api, history)
    ensures Answered(api, history + [Exchange(call, reply)])
    ensures reply == api(history, call)
  {
    reply := api(history, call);
    var log := history + [Exchange(call, reply)];
    forall i: nat | i < |log|
      ensures AnsweredAt(api, log, i)
    {
      if i < |history| {
        assert log[..i] == history[..i];
        assert AnsweredAt(api, history, i);
      } else {
        assert log[..i] == history;
      }
    }
  }

  /**
   * Sends `calls` in order and stops at the first rejection, as a sequence of
   * awaited requests inside one `try` does. On success the ids are the
   * replies' ids, one per call.
   */
  method PostAll(api: Api, history: seq<Exchange>, calls: seq<Call>)
    returns (part: seq<Exchange>, ids: seq<string>, failure: Option<string>)
    requires Answered(api, history)
    ensures Answered(api, history + part)
    ensures |part| <= |calls| && Calls(part) == calls[..|part|]
    ensures (forall j :: 0 <= j < |calls| ==> !calls[j].InviteMember?) ==> NoInvites(part)
    ensures failure.None? ==> |part| == |calls| && AllCreated(part) && ids == Ids(part)
    ensures failure.Some? ==> FailedAtEnd(part) && part[|part| - 1].reply.reason == failure.value
  {
    part, ids, failure := [], [], None;
    assert history + part == history;
    while |part| < |calls|
      invariant |part| <= |calls| && |ids| == |part|
      invariant Answered(api, history + part)
      invariant forall j :: 0 <= j < |part| ==> part[j].call == calls[j]
      invariant forall j :: 0 <= j < |part| ==> part[j].reply.Created? && part[j].reply.id == ids[j]
    {
      var call := calls[|part|];
      var reply := Post(api, history + part, call);
      assert history + part + [Exchange(call, reply)] == history + (part + [Exchange(call, reply)]);
      var before := part;
      part := part + [Exchange(call, reply)];
      if reply.Rejected? {
        failure := Some(reply.reason);
        assert part[..|part| - 1] == before;
        assert Calls(part) == calls[..|part|];
        return;
      }
      ids := ids + [reply.id];
    }
    assert Calls(part) == calls[..|part|];
  }

  /** Invites every address in turn; a rejected invitation is passed over and the next one still goes out. */
  method InviteAll(api: Api, history: seq<Exchange>, boardId: string, emails: seq<string>)
    returns (part: seq<Exchange>)
    requires Answered(api, history)
    ensures Answered(api, history + part)
    ensures Calls(part) == InviteCalls(boardId, emails)
  {
    part := [];
    assert history + part == history;
    while |part| < |emails|
      invariant |part| <= |emails|
      invariant Answered(api, history + part)
      invariant forall j :: 0 <= j < |part| ==> part[j].call == InviteMember(boardId, emails[j])
    {
      var call := InviteMember(boardId, emails[|part|]);
      var reply := Post(api, history + part, call);
      assert history + part + [Exchange(call, reply)] == history + (part + [Exchange(call, reply)]);
      part := part + [Exchange(call, reply)];
    }
  }

  /** Sends one request after `history + part` and appends the exchange to `part`. */
  method Append(api: Api, history: seq<Exchange>, part: seq<Exchange>, call: Call)
    returns (extended: seq<Exchange>, reply: Reply)
    requires Answered(api, history + part)
    ensures Answered(api, history + extended)
    ensures extended == part + [Exchange(call, reply)]
    ensures reply == api(history + part, call)
  {
    reply := Post(api, history + part, call);
    extended := part + [Exchange(call, reply)];
    assert history + part + [Exchange(call, reply)] == history + extended;
  }

  /** A completed part followed by a prefix of the next requests is a prefix of both in turn. */
  lemma SentPrefixAppend(a: seq<Exchange>, b: seq<Exchange>, first: seq<Call>, rest: seq<Call>)
    requires Calls(a) == first && SentPrefix(b, rest)
    ensures SentPrefix(a + b, first + rest)
  {
    CallsAppend(a, b);
    assert (first + rest)[..|a + b|] == first + rest[..|b|];
  }

  /** A prefix of some requests is a prefix of those requests followed by more. */
  lemma SentPrefixExtend(log: seq<Exchange>, calls: seq<Call>, more: seq<Call>)
    requires SentPrefix(log, calls)
    ensures SentPrefix(log, calls + more)
  {
    assert (calls + more)[..|log|] == calls[..|log|];
  }

  lemma FailedAfter(log: seq<Exchange>, part: seq<Exchange>)
    requires AllCreated(log) && FailedAtEnd(part)
    ensures FailedAtEnd(log + part) && (log + part)[|log + part| - 1] == part[|part| - 1]
  {
    assert (log + part)[..|log + part| - 1] == log + part[..|part| - 1];
  }

  lemma CreatedAfter(log: seq<Exchange>, part: seq<Exchange>)
    requires AllCreated(log) && AllCreated(part)
    ensures AllCreated(log + part)
  {
  }

  lemma NoInvitesAfter(log: seq<Exchange>, part: seq<Exchange>)
    requires NoInvites(log) && NoInvites(part)
    ensures NoInvites(log + part)
  {
  }

  /** Posts the board, then its labels, then its lists, stopping at the first rejection. */
  method CreateStructure(api: Api, projectName: string) returns (log: seq<Exchange>, failure: Option<string>)
    ensures Answered(api, log) && NoInvites(log)
    ensures 0 < |log| <= 14 && log[0].call == CreateBoard(BoardName(projectName))
    ensures SentPrefix(log, StructureCalls(BoardName(projectName), IdAt(log, 0)))
    ensures failure.Some? ==> FailedAtEnd(log) && log[|log| - 1].reply.reason == failure.value
    ensures failure.None? ==>
      && |log| == 14 && AllCreated(log)
      && Calls(log[1..5]) == LabelCalls(log[0].reply.id)
      && Calls(log[5..14]) == ListCalls(log[0].reply.id)
  {
    var name := BoardName(projectName);
    var board;
    log, board := Append(api, [], [], CreateBoard(name));
    assert [] + log == log;
    assert Calls(log) == [CreateBoard(name)];
    if board.Rejected? {
      assert StructureCalls(name, IdAt(log, 0))[..1] == [CreateBoard(name)];
      failure := Some(board.reason);
      return;
    }
    var labelPart, listPart, ids;
    labelPart, ids, failure := PostAll(api, log, LabelCalls(board.id));
    assert IdAt(log + labelPart, 0) == board.id;
    SentPrefixAppend(log, labelPart, [CreateBoard(name)], LabelCalls(board.id));
    if failure.Some? {
      FailedAfter(log, labelPart);
      NoInvitesAfter(log, labelPart);
      SentPrefixExtend(log + labelPart, [CreateBoard(name)] + LabelCalls(board.id), ListCalls(board.id));
      log := log + labelPart;
      return;
    }
    listPart, ids, failure := PostAll(api, log + labelPart, ListCalls(board.id));
    assert log + labelPart + listPart == log + (labelPart + listPart);
    assert IdAt(log + labelPart + listPart, 0) == board.id;
    CallsAppend(log, labelPart);
    SentPrefixAppend(log + labelPart, listPart, [CreateBoard(name)] + LabelCalls(board.id), ListCalls(board.id));
    if failure.Some? {
      FailedAfter(log + labelPart, listPart);
      NoInvitesAfter(log + labelPart, listPart);
      log := log + labelPart + listPart;
      return;
    }
    StructureLayout(log, labelPart, listPart);
    log := log + labelPart + listPart;
  }

  lemma StructureLayout(board: seq<Exchange>, labelPart: seq<Exchange>, listPart: seq<Exchange>)
    requires |board| == 1 && |labelPart| == 4 && |listPart| == 9
    requires AllCreated(board) && AllCreated(labelPart) && AllCreated(listPart)
    requires NoInvites(board) && NoInvites(labelPart) && NoInvites(listPart)
    ensures var log := board + labelPart + listPart;
      && AllCreated(log) && NoInvites(log)
      && log[0] == board[0] && log[1..5] == labelPart && log[5..14] == listPart
  {
  }

  /** "Read me first" on top of the Admin list, then the team agreement with the Everyone label. */
  method CreateAgreementCards(api: Api, history: seq<Exchange>, adminList: string, everyone: string, admin: Option<int>)
    returns (head: seq<Exchange>, failure: Option<string>)
    requires Answered(api, history)
    ensures Answered(api, history + head) && NoInvites(head) && |head| <= 2
    ensures SentPrefix(head, [ CreateCard(adminList, ReadMeTitle, ReadMeFirst, [], admin, Top),
                               CreateCard(adminList, TeamAgreementTitle, TeamAgreement, [everyone], admin, Bottom) ])
    ensures failure.Some? ==> FailedAtEnd(head) && head[|head| - 1].reply.reason == failure.value
    ensures failure.None? ==>
      && |head| == 2 && AllCreated(head)
      && Calls(head) == [ CreateCard(adminList, ReadMeTitle, ReadMeFirst, [], admin, Top),
                          CreateCard(adminList, TeamAgreementTitle, TeamAgreement, [everyone], admin, Bottom) ]
  {
    var reply;
    assert history + [] == history;
    head, reply := Append(api, history, [], CreateCard(adminList, ReadMeTitle, ReadMeFirst, [], admin, Top));
    if reply.Rejected? {
      return head, Some(reply.reason);
    }
    head, reply := Append(api, history, head,
                          CreateCard(adminList, TeamAgreementTitle, TeamAgreement, [everyone], admin, Bottom));
    if reply.Rejected? {
      return head, Some(reply.reason);
    }
    failure := None;
  }

  /** "Read me first", the team agreement and its checklist, stopping at the first rejection. */
  method CreateAgreement(api: Api, history: seq<Exchange>, adminList: string, everyone: string, admin: Option<int>)
    returns (head: seq<Exchange>, failure: Option<string>)
    requires Answered(api, history)
    ensures Answered(api, history + head) && NoInvites(head)
    ensures SentPrefix(head, [ CreateCard(adminList, ReadMeTitle, ReadMeFirst, [], admin, Top),
                               CreateCard(adminList, TeamAgreementTitle, TeamAgreement, [everyone], admin, Bottom),
                               CreateChecklist(IdAt(head, 1), ChecklistName) ])
    ensures failure.Some? ==> FailedAtEnd(head) && head[|head| - 1].reply.reason == failure.value
    ensures failure.None? ==>
      && |head| == 3 && AllCreated(head)
      && Calls(head) == [ CreateCard(adminList, ReadMeTitle, ReadMeFirst, [], admin, Top),
                          CreateCard(adminList, TeamAgreementTitle, TeamAgreement, [everyone], admin, Bottom),
                          CreateChecklist(head[1].reply.id, ChecklistName) ]
  {
    head, failure := CreateAgreementCards(api, history, adminList, everyone, admin);
    if failure.Some? {
      return;
    }
    // The source posts the team agreement without keeping the reply, then uses
    // `teamAgreementCard.id`; the model binds that name to this reply.
    var teamCard := head[1].reply;
    var checklist;
    head, checklist := Append(api, history, head, CreateChecklist(teamCard.id, ChecklistName));
    if checklist.Rejected? {
      return head, Some(checklist.reason);
    }
  }

  /** The Admin due date again on the team-agreement card when there is one, then the decision log. */
  method CreateClosing(api: Api, history: seq<Exchange>, adminList: string, teamCard: string, admin: Option<int>)
    returns (tail: seq<Exchange>, failure: Option<string>)
    requires Answered(api, history)
    ensures Answered(api, history + tail) && NoInvites(tail)
    ensures SentPrefix(tail, (if admin.Some? then [SetCardDue(teamCard, admin.value)] else [])
                             + [CreateCard(adminList, DecisionLogTitle, DecisionLog, [], admin, Bottom)])
    ensures failure.Some? ==> FailedAtEnd(tail) && tail[|tail| - 1].reply.reason == failure.value
    ensures failure.None? ==>
      && AllCreated(tail)
      && Calls(tail) == (if admin.Some? then [SetCardDue(teamCard, admin.value)] else [])
                        + [CreateCard(adminList, DecisionLogTitle, DecisionLog, [], admin, Bottom)]
  {
    var due := if admin.Some? then [SetCardDue(teamCard, admin.value)] else [];
    var closing := CreateCard(adminList, DecisionLogTitle, DecisionLog, [], admin, Bottom);
    tail := [];
    var reply;
    assert history + tail == history;
    if admin.Some? {
      tail, reply := Append(api, history, tail, SetCardDue(teamCard, admin.value));
      assert Calls(tail) == due;
      if reply.Rejected? {
        assert (due + [closing])[..|tail|] == due;
        return tail, Some(reply.reason);
      }
    }
    assert Calls(tail) == due;
    var before := tail;
    tail, reply := Append(api, history, tail, closing);
    CallsAppend(before, [Exchange(closing, reply)]);
    assert (due + [closing])[..|tail|] == due + [closing];
    if reply.Rejected? {
      return tail, Some(reply.reason);
    }
    failure := None;
  }

  /** The three Admin cards, the team-agreement checklist and its items, and the Admin due date again. */
  method CreateAdminCards(api: Api, history: seq<Exchange>, adminList: string, everyone: string, admin: Option<int>)
    returns (part: seq<Exchange>, failure: Option<string>)
    requires Answered(api, history)
    ensures Answered(api, history + part) && NoInvites(part)
    ensures SentPrefix(part, AdminCalls(adminList, everyone, IdAt(part, 1), IdAt(part, 2), admin))
    ensures failure.Some? ==> FailedAtEnd(part) && part[|part| - 1].reply.reason == failure.value
    ensures failure.None? ==>
      && |part| == AdminLength(admin) && AllCreated(part)
      && Calls(part) == AdminCalls(adminList, everyone, part[1].reply.id, part[2].reply.id, admin)
  {
    var head;
    head, failure := CreateAgreement(api, history, adminList, everyone, admin);
    var readMe := CreateCard(adminList, ReadMeTitle, ReadMeFirst, [], admin, Top);
    var agreement := CreateCard(adminList, TeamAgreementTitle, TeamAgreement, [everyone], admin, Bottom);
    var opening := [readMe, agreement, CreateChecklist(IdAt(head, 1), ChecklistName)];
    var closing := (if admin.Some? then [SetCardDue(IdAt(head, 1), admin.value)] else [])
                   + [CreateCard(adminList, DecisionLogTitle, DecisionLog, [], admin, Bottom)];
    if failure.Some? {
      SentPrefixExtend(head, opening, CheckItemCalls(IdAt(head, 2)));
      SentPrefixExtend(head, opening + CheckItemCalls(IdAt(head, 2)), closing);
      assert AdminCalls(adminList, everyone, IdAt(head, 1), IdAt(head, 2), admin)
          == opening + CheckItemCalls(IdAt(head, 2)) + closing;
      return head, failure;
    }
    var items, ids;
    items, ids, failure := PostAll(api, history + head, CheckItemCalls(head[2].reply.id));
    assert history + head + items == history + (head + items);
    assert IdAt(head + items, 1) == IdAt(head, 1) && IdAt(head + items, 2) == IdAt(head, 2) == head[2].reply.id;
    assert Calls(head) == opening;
    SentPrefixAppend(head, items, opening, CheckItemCalls(head[2].reply.id));
    if failure.Some? {
      FailedAfter(head, items);
      NoInvitesAfter(head, items);
      SentPrefixExtend(head + items, opening + CheckItemCalls(IdAt(head, 2)), closing);
      return head + items, failure;
    }
    var tail;
    tail, failure := CreateClosing(api, history + (head + items), adminList, head[1].reply.id, admin);
    assert history + (head + items) + tail == history + (head + items + tail);
    part := head + items + tail;
    assert IdAt(part, 1) == IdAt(head, 1) && IdAt(part, 2) == IdAt(head, 2);
    assert Calls(head + items) == opening + CheckItemCalls(IdAt(head, 2));
    SentPrefixAppend(head + items, tail, opening + CheckItemCalls(IdAt(head, 2)), closing);
    assert opening + CheckItemCalls(IdAt(head, 2)) + closing
        == AdminCalls(adminList, everyone, IdAt(part, 1), IdAt(part, 2), admin);
    if failure.Some? {
      FailedAfter(head + items, tail);
      NoInvitesAfter(head + items, tail);
      return;
    }
    AdminLayout(head, items, tail, adminList, everyone, admin);
  }

  lemma AdminLayout(head: seq<Exchange>, items: seq<Exchange>, tail: seq<Exchange>,
                    adminList: string, everyone: string, admin: Option<int>)
    requires |head| == 3 && AllCreated(head) && AllCreated(items) && AllCreated(tail)
    requires Calls(head) == [ CreateCard(adminList, ReadMeTitle, ReadMeFirst, [], admin, Top),
                              CreateCard(adminList, TeamAgreementTitle, TeamAgreement, [everyone], admin, Bottom),
                              CreateChecklist(head[1].reply.id, ChecklistName) ]
    requires Calls(items) == CheckItemCalls(head[2].reply.id)
    requires Calls(tail) == (if admin.Some? then [SetCardDue(head[1].reply.id, admin.value)] else [])
                            + [CreateCard(adminList, DecisionLogTitle, DecisionLog, [], admin, Bottom)]
    ensures var part := head + items + tail;
      && |part| == AdminLength(admin) && AllCreated(part) && NoInvites(part)
      && Calls(part) == AdminCalls(adminList, everyone, part[1].reply.id, part[2].reply.id, admin)
  {
    var part := head + items + tail;
    assert |items| == |Calls(items)|;
    assert |tail| == |Calls(tail)|;
    assert part[1] == head[1] && part[2] == head[2];
    CallsAppend(head, items);
    CallsAppend(head + items, tail);
    assert forall j :: 0 <= j < |part| ==> part[j].call == Calls(part)[j];
  }

  lemma CallsAppend(a: seq<Exchange>, b: seq<Exchange>)
    ensures Calls(a + b) == Calls(a) + Calls(b)
  {
  }

  /** The Admin list and the Everyone label, looked up by name, are the ones created first and fourth. */
  lemma AdminLookups(labelIds: seq<string>, listIds: seq<string>)
    requires |labelIds| == |TrelloLabels()| && |listIds| == |Phases|
    ensures Lookup(BuildMap(ListNames(), listIds), PhaseName(Admin)) == listIds[0]
    ensures Lookup(BuildMap(LabelNames(), labelIds), EveryoneLabel) == labelIds[3]
  {
    NamesDistinct();
    BuildMapLookup(ListNames(), listIds, 0);
    BuildMapLookup(LabelNames(), labelIds, 3);
  }

  /**
   * Installs a complete board. Without authorisation nothing is sent. Every
   * request before the invitations is fail-fast: the first rejection ends the
   * run with its reason. Invitations are best effort. On success the log is
   * exactly the layout `Provisioned` describes and the summary counts 9
   * lists, 4 labels and the assembled cards plus the three Admin cards.
   */
  method CreateCompleteBoard(api: Api, authorized: bool, projectName: string, roles: seq<string>,
                             teamEmails: Option<string>, deadline: Option<int>, intensity: Option<string>, now: int)
    returns (log: seq<Exchange>, outcome: Outcome)
    ensures !authorized ==> log == [] && outcome == Failure(NotAuthorized)
    ensures authorized ==> Installed(api, projectName, Assemble(roles), InviteEmails(teamEmails),
                                     PhaseDates(deadline, intensity, now), log, outcome)
  {
    if !authorized {
      return [], Failure(NotAuthorized);
    }
    var cards, emails, dates := Assemble(roles), InviteEmails(teamEmails), PhaseDates(deadline, intensity, now);
    log, outcome := Install(api, projectName, cards, emails, dates);
  }

  /**
   * What an authorised createCompleteBoard promises once it has the cards, invitees and
   * phase dates: every call answered, the board created first, a failure reported with the
   * last reply's reason after sending the reference `Layout` up to that rejection and no
   * invitation, a success that installed everything with
   * the matching summary, and success whenever the service accepts every call.
   */
  ghost predicate Installed(api: Api, projectName: string, cards: seq<Card>, emails: seq<string>, dates: DueTable,
                      log: seq<Exchange>, outcome: Outcome)
  {
    && |dates| == |Phases|
    && Answered(api, log)
    && |log| > 0 && log[0].call == CreateBoard(BoardName(projectName))
    && (outcome.Failure? ==>
      && FailedAtEnd(log) && NoInvites(log)
      && SentPrefix(log, Layout(log, projectName, cards, dates))
      && outcome.error == ApiError(log[|log| - 1].reply.reason))
    && (outcome.Success? ==>
      && Provisioned(log, projectName, cards, emails, dates)
      && log[0].reply.Created?
      && outcome.board == BoardCreationResult(log[0].reply.id, log[0].reply.url, BoardName(projectName),
                                              |Phases|, |cards| + 3, |TrelloLabels()|))
    && ((forall h, c :: api(h, c).Created?) ==> outcome.Success?)
  }

  /** An authorised installation of the given cards, invitees and phase dates. */
  method Install(api: Api, projectName: string, cards: seq<Card>, emails: seq<string>, dates: DueTable)
    returns (log: seq<Exchange>, outcome: Outcome)
    requires |dates| == |Phases|
    ensures Installed(api, projectName, cards, emails, dates, log, outcome)
  {
    var failure;
    log, failure := CreateStructure(api, projectName);
    if failure.Some? {
      AcceptingNeverFailsIf(api, log);
      StructureFollowsLayout(log, projectName, cards, dates);
      return log, Failure(ApiError(failure.value));
    }
    var structure := log;
    var boardId, boardUrl := log[0].reply.id, log[0].reply.url;
    var content;
    content, failure := CreateContent(api, structure, cards, dates);
    log := structure + content;
    if failure.Some? {
      FailedRun(api, structure, content);
      ContentFollowsLayout(structure, content, projectName, cards, dates);
      return log, Failure(ApiError(failure.value));
    }
    var invitePart := InviteAll(api, log, boardId, emails);
    log := log + invitePart;
    outcome := Success(BoardCreationResult(boardId, boardUrl, BoardName(projectName),
                                           |ListNames()|, |cards| + 3, |TrelloLabels()|));
    ProvisionedRun(structure, content, invitePart, projectName, cards, emails, dates);
  }

  /** A run cut short while creating the board's structure has sent the reference layout so far. */
  lemma StructureFollowsLayout(log: seq<Exchange>, projectName: string, cards: seq<Card>, dates: DueTable)
    requires |dates| == |Phases|
    requires SentPrefix(log, StructureCalls(BoardName(projectName), IdAt(log, 0)))
    ensures SentPrefix(log, Layout(log, projectName, cards, dates))
  {
    var n := |cards|;
    var labelIds, listIds := IdsAt(log, 1, 4), IdsAt(log, 5, 9);
    var structure := StructureCalls(BoardName(projectName), IdAt(log, 0));
    SentPrefixExtend(log, structure, CardCalls(cards, labelIds, listIds, dates));
    SentPrefixExtend(log, structure + CardCalls(cards, labelIds, listIds, dates),
                     AdminCalls(listIds[0], labelIds[3], IdAt(log, 15 + n), IdAt(log, 16 + n), DueOf(dates, Admin)));
  }

  /**
   * A run cut short after the structure has sent the reference layout so far:
   * the cards' lists and labels found by name are the positional ones.
   */
  lemma ContentFollowsLayout(structure: seq<Exchange>, content: seq<Exchange>,
                             projectName: string, cards: seq<Card>, dates: DueTable)
    requires |dates| == |Phases|
    requires |structure| == 14 && AllCreated(structure)
    requires Calls(structure) == StructureCalls(BoardName(projectName), structure[0].reply.id)
    requires
      var labelMap, listMap := BuildMap(LabelNames(), Ids(structure[1..5])), BuildMap(ListNames(), Ids(structure[5..14]));
      SentPrefix(content, MappedCardCalls(cards, labelMap, listMap, dates)
                          + AdminCalls(Lookup(listMap, PhaseName(Admin)), Lookup(labelMap, EveryoneLabel),
                                       IdAt(content, |cards| + 1), IdAt(content, |cards| + 2), DueOf(dates, Admin)))
    ensures SentPrefix(structure + content, Layout(structure + content, projectName, cards, dates))
  {
    var n := |cards|;
    var labelIds, listIds := Ids(structure[1..5]), Ids(structure[5..14]);
    MappedCardCallsArePositional(cards, labelIds, listIds, dates);
    AdminLookups(labelIds, listIds);
    var cardCalls := CardCalls(cards, labelIds, listIds, dates);
    var adminCalls := AdminCalls(listIds[0], labelIds[3], IdAt(content, n + 1), IdAt(content, n + 2), DueOf(dates, Admin));
    SentPrefixAppend(structure, content, StructureCalls(BoardName(projectName), structure[0].reply.id), cardCalls + adminCalls);
    LayoutAfterStructure(structure, content, projectName, cards, dates);
  }

  /** Past a created structure, the layout reads its ids from the structure and from the content's own replies. */
  lemma LayoutAfterStructure(structure: seq<Exchange>, content: seq<Exchange>,
                             projectName: string, cards: seq<Card>, dates: DueTable)
    requires |dates| == |Phases|
    requires |structure| == 14 && AllCreated(structure)
    ensures
      var n, labelIds, listIds := |cards|, Ids(structure[1..5]), Ids(structure[5..14]);
      Layout(structure + content, projectName, cards, dates)
      == StructureCalls(BoardName(projectName), structure[0].reply.id)
         + (CardCalls(cards, labelIds, listIds, dates)
            + AdminCalls(listIds[0], labelIds[3], IdAt(content, n + 1), IdAt(content, n + 2), DueOf(dates, Admin)))
  {
    var n := |cards|;
    var log := structure + content;
    assert IdsAt(log, 1, 4) == Ids(structure[1..5]);
    assert IdsAt(log, 5, 9) == Ids(structure[5..14]);
    assert IdAt(log, 0) == structure[0].reply.id;
    assert IdAt(log, 15 + n) == IdAt(content, n + 1) && IdAt(log, 16 + n) == IdAt(content, n + 2);
  }

  /** The requests up to position `k` of the layout depend only on the exchanges before `k`. */
  lemma LayoutUsesEarlierReplies(log1: seq<Exchange>, log2: seq<Exchange>, projectName: string,
                                 cards: seq<Card>, dates: DueTable, k: nat)
    requires |dates| == |Phases|
    requires k <= |log1| && k <= |log2| && log1[..k] == log2[..k]
    requires k < 14 + |cards| + AdminLength(DueOf(dates, Admin))
    ensures Layout(log1, projectName, cards, dates)[..k + 1] == Layout(log2, projectName, cards, dates)[..k + 1]
  {
    var n, admin := |cards|, DueOf(dates, Admin);
    var name := BoardName(projectName);
    forall p | 0 <= p < k
      ensures IdAt(log1, p) == IdAt(log2, p)
    {
      assert log1[p] == log1[..k][p] && log2[p] == log2[..k][p];
    }
    var layout1, layout2 := Layout(log1, projectName, cards, dates), Layout(log2, projectName, cards, dates);
    forall i | 0 <= i <= k
      ensures layout1[i] == layout2[i]
    {
      if 0 < i {
        assert StructureCalls(name, IdAt(log1, 0)) == StructureCalls(name, IdAt(log2, 0));
      }
      if 14 <= i {
        assert IdsAt(log1, 1, 4) == IdsAt(log2, 1, 4) && IdsAt(log1, 5, 9) == IdsAt(log2, 5, 9);
        var labelIds, listIds := IdsAt(log1, 1, 4), IdsAt(log1, 5, 9);
        assert CardCalls(cards, labelIds, listIds, dates) == CardCalls(cards, IdsAt(log2, 1, 4), IdsAt(log2, 5, 9), dates);
        if 14 + n <= i {
          var admin1 := AdminCalls(listIds[0], labelIds[3], IdAt(log1, 15 + n), IdAt(log1, 16 + n), admin);
          var admin2 := AdminCalls(listIds[0], labelIds[3], IdAt(log2, 15 + n), IdAt(log2, 16 + n), admin);
          if i <= 16 + n {
            assert i == 16 + n ==> IdAt(log1, 15 + n) == IdAt(log2, 15 + n);
            assert admin1[i - 14 - n] == admin2[i - 14 - n];
          } else {
            assert admin1 == admin2;
          }
        }
      }
    }
  }

  /** A complete run sends exactly the reference layout before its invitations. */
  lemma ProvisionedFollowsLayout(log: seq<Exchange>, projectName: string, cards: seq<Card>, emails: seq<string>, dates: DueTable)
    requires |dates| == |Phases|
    requires Provisioned(log, projectName, cards, emails, dates)
    ensures Calls(log[..14 + |cards| + AdminLength(DueOf(dates, Admin))]) == Layout(log, projectName, cards, dates)
  {
    var n := |cards|;
    var pre := 14 + n + AdminLength(DueOf(dates, Admin));
    var structure, rest := log[..14], log[14..];
    assert log == structure + rest;
    assert structure[1..5] == log[1..5] && structure[5..14] == log[5..14];
    forall k | 0 <= k < 14
      ensures structure[k].reply.Created?
    {
      assert structure[k] == log[..pre][k];
    }
    ProvisionedStructure(log, projectName, cards, emails, dates);
    ProvisionedContent(log, projectName, cards, emails, dates);
    LayoutAfterStructure(structure, rest, projectName, cards, dates);
    CallsSplit(log, 0, 14, pre);
  }

  /** The requests of a complete run after its structure are its cards and then the admin cards. */
  lemma ProvisionedContent(log: seq<Exchange>, projectName: string, cards: seq<Card>, emails: seq<string>, dates: DueTable)
    requires |dates| == |Phases|
    requires Provisioned(log, projectName, cards, emails, dates)
    ensures
      var n, labelIds, listIds := |cards|, Ids(log[1..5]), Ids(log[5..14]);
      Calls(log[14..14 + n + AdminLength(DueOf(dates, Admin))])
      == CardCalls(cards, labelIds, listIds, dates)
         + AdminCalls(listIds[0], labelIds[3], IdAt(log[14..], n + 1), IdAt(log[14..], n + 2), DueOf(dates, Admin))
  {
    var n := |cards|;
    var pre := 14 + n + AdminLength(DueOf(dates, Admin));
    assert log[14..][n + 1] == log[..pre][15 + n] && log[14..][n + 2] == log[..pre][16 + n];
    CallsSplit(log, 14, 14 + n, pre);
  }

  /** The first fourteen requests of a complete run are the board, its labels and its lists. */
  lemma ProvisionedStructure(log: seq<Exchange>, projectName: string, cards: seq<Card>, emails: seq<string>, dates: DueTable)
    requires |dates| == |Phases|
    requires Provisioned(log, projectName, cards, emails, dates)
    ensures Calls(log[..14]) == StructureCalls(BoardName(projectName), log[0].reply.id)
  {
    CallsSplit(log, 0, 1, 5);
    CallsSplit(log, 0, 5, 14);
    assert Calls(log[0..1]) == [CreateBoard(BoardName(projectName))];
  }

  /** The requests of a stretch of the log are those of its two halves. */
  lemma CallsSplit(log: seq<Exchange>, a: nat, b: nat, c: nat)
    requires a <= b <= c <= |log|
    ensures Calls(log[a..c]) == Calls(log[a..b]) + Calls(log[b..c])
  {
    assert log[a..c] == log[a..b] + log[b..c];
    CallsAppend(log[a..b], log[b..c]);
  }

  /** A run rejected while the board's labels or lists were being created sent no card. */
  lemma StructureFailureSendsNoCard(api: Api, projectName: string, cards: seq<Card>, emails: seq<string>,
                                    dates: DueTable, log: seq<Exchange>, outcome: Outcome)
    requires Installed(api, projectName, cards, emails, dates, log, outcome)
    requires outcome.Failure? && |log| <= 14
    ensures forall i :: 0 <= i < |log| ==> !log[i].call.CreateCard?
  {
    var structure := StructureCalls(BoardName(projectName), IdAt(log, 0));
    assert forall i :: 0 <= i < |log| ==> log[i].call == Calls(log)[i] == structure[i];
  }

  /** A rejection after the board's structure ends the whole run with that rejection. */
  lemma FailedRun(api: Api, structure: seq<Exchange>, content: seq<Exchange>)
    requires Answered(api, structure + content)
    requires AllCreated(structure) && NoInvites(structure) && FailedAtEnd(content) && NoInvites(content)
    ensures var log := structure + content;
      && FailedAtEnd(log) && NoInvites(log) && log[|log| - 1] == content[|content| - 1]
      && !(forall h, c :: api(h, c).Created?)
  {
    FailedAfter(structure, content);
    NoInvitesAfter(structure, content);
    AcceptingNeverFailsIf(api, structure + content);
  }

  /** The structure, the content and the invitations together make a complete run. */
  lemma ProvisionedRun(structure: seq<Exchange>, content: seq<Exchange>, invitePart: seq<Exchange>,
                       projectName: string, cards: seq<Card>, emails: seq<string>, dates: DueTable)
    requires |dates| == |Phases|
    requires |structure| == 14 && AllCreated(structure)
    requires structure[0].call == CreateBoard(BoardName(projectName))
    requires Calls(structure[1..5]) == LabelCalls(structure[0].reply.id)
    requires Calls(structure[5..14]) == ListCalls(structure[0].reply.id)
    requires
      var labelMap, listMap := BuildMap(LabelNames(), Ids(structure[1..5])), BuildMap(ListNames(), Ids(structure[5..14]));
      var admin := DueOf(dates, Admin);
      && |content| == |cards| + AdminLength(admin) && AllCreated(content)
      && Calls(content[..|cards|]) == MappedCardCalls(cards, labelMap, listMap, dates)
      && Calls(content[|cards|..])
         == AdminCalls(Lookup(listMap, PhaseName(Admin)), Lookup(labelMap, EveryoneLabel),
                       content[|cards| + 1].reply.id, content[|cards| + 2].reply.id, admin)
    requires Calls(invitePart) == InviteCalls(structure[0].reply.id, emails)
    ensures var log := structure + content + invitePart;
      && Provisioned(log, projectName, cards, emails, dates)
      && log[0] == structure[0]
  {
    var n := |cards|;
    var log := structure + content + invitePart;
    assert content == content[..n] + content[n..];
    assert log == structure + content[..n] + content[n..] + invitePart;
    assert content[n..][1] == content[n + 1] && content[n..][2] == content[n + 2];
    ProvisionedFromParts(log, structure, content[..n], content[n..], invitePart, projectName, cards, emails, dates);
  }

  /** The template cards, posted to the lists and labels found by name, then the Admin cards. */
  method CreateContent(api: Api, structure: seq<Exchange>, cards: seq<Card>, dates: DueTable)
    returns (part: seq<Exchange>, failure: Option<string>)
    requires Answered(api, structure) && |structure| == 14 && AllCreated(structure) && |dates| == |Phases|
    ensures Answered(api, structure + part) && NoInvites(part)
    ensures
      var labelMap, listMap := BuildMap(LabelNames(), Ids(structure[1..5])), BuildMap(ListNames(), Ids(structure[5..14]));
      SentPrefix(part, MappedCardCalls(cards, labelMap, listMap, dates)
                       + AdminCalls(Lookup(listMap, PhaseName(Admin)), Lookup(labelMap, EveryoneLabel),
                                    IdAt(part, |cards| + 1), IdAt(part, |cards| + 2), DueOf(dates, Admin)))
    ensures failure.Some? ==> FailedAtEnd(part) && part[|part| - 1].reply.reason == failure.value
    ensures failure.None? ==>
      var labelMap, listMap := BuildMap(LabelNames(), Ids(structure[1..5])), BuildMap(ListNames(), Ids(structure[5..14]));
      var admin := DueOf(dates, Admin);
      && |part| == |cards| + AdminLength(admin) && AllCreated(part)
      && Calls(part[..|cards|]) == MappedCardCalls(cards, labelMap, listMap, dates)
      && Calls(part[|cards|..])
         == AdminCalls(Lookup(listMap, PhaseName(Admin)), Lookup(labelMap, EveryoneLabel),
                       part[|cards| + 1].reply.id, part[|cards| + 2].reply.id, admin)
  {
    var n := |cards|;
    var labelMap := BuildMap(LabelNames(), Ids(structure[1..5]));
    var listMap := BuildMap(ListNames(), Ids(structure[5..14]));
    var adminList, everyone, admin := Lookup(listMap, PhaseName(Admin)), Lookup(labelMap, EveryoneLabel), DueOf(dates, Admin);
    var cardCalls := MappedCardCalls(cards, labelMap, listMap, dates);
    var cardPart;
    cardPart, failure := CreateTemplateCards(api, structure, cards, dates);
    if failure.Some? {
      SentPrefixExtend(cardPart, cardCalls, AdminCalls(adminList, everyone, IdAt(cardPart, n + 1), IdAt(cardPart, n + 2), admin));
      return cardPart, failure;
    }
    var adminPart;
    adminPart, failure := CreateAdminCards(api, structure + cardPart, adminList, everyone, admin);
    assert structure + cardPart + adminPart == structure + (cardPart + adminPart);
    part := cardPart + adminPart;
    assert IdAt(part, n + 1) == IdAt(adminPart, 1) && IdAt(part, n + 2) == IdAt(adminPart, 2);
    assert Calls(cardPart) == cardCalls;
    SentPrefixAppend(cardPart, adminPart, cardCalls, AdminCalls(adminList, everyone, IdAt(adminPart, 1), IdAt(adminPart, 2), admin));
    if failure.Some? {
      FailedAfter(cardPart, adminPart);
      NoInvitesAfter(cardPart, adminPart);
      return;
    }
    assert part[..|cards|] == cardPart && part[|cards|..] == adminPart;
  }

  /** One card per template, posted to the list of its phase with the label of its role. */
  method CreateTemplateCards(api: Api, structure: seq<Exchange>, cards: seq<Card>, dates: DueTable)
    returns (part: seq<Exchange>, failure: Option<string>)
    requires Answered(api, structure) && |structure| == 14 && AllCreated(structure) && |dates| == |Phases|
    ensures Answered(api, structure + part) && NoInvites(part) && |part| <= |cards|
    ensures SentPrefix(part, MappedCardCalls(cards, BuildMap(LabelNames(), Ids(structure[1..5])),
                                             BuildMap(ListNames(), Ids(structure[5..14])), dates))
    ensures failure.Some? ==> FailedAtEnd(part) && part[|part| - 1].reply.reason == failure.value
    ensures failure.None? ==>
      && |part| == |cards| && AllCreated(part)
      && Calls(part) == MappedCardCalls(cards, BuildMap(LabelNames(), Ids(structure[1..5])),
                                        BuildMap(ListNames(), Ids(structure[5..14])), dates)
  {
    var labelMap := BuildMap(LabelNames(), Ids(structure[1..5]));
    var listMap := BuildMap(ListNames(), Ids(structure[5..14]));
    var calls := MappedCardCalls(cards, labelMap, listMap, dates);
    assert forall j :: 0 <= j < |calls| ==> calls[j].CreateCard?;
    var ids;
    part, ids, failure := PostAll(api, structure, calls);
  }

  /** A run that ended in a rejection was answered by an oracle that rejects something. */
  lemma AcceptingNeverFailsIf(api: Api, log: seq<Exchange>)
    requires Answered(api, log) && FailedAtEnd(log)
    ensures !(forall h, c :: api(h, c).Created?)
  {
    assert AnsweredAt(api, log, |log| - 1);
  }

  /** The log assembled from its four stages has the layout of a complete run. */
  lemma ProvisionedFromParts(log: seq<Exchange>, structure: seq<Exchange>, cardPart: seq<Exchange>,
                             adminPart: seq<Exchange>, invitePart: seq<Exchange>,
                             projectName: string, cards: seq<Card>, emails: seq<string>, dates: DueTable)
    requires |dates| == |Phases|
    requires log == structure + cardPart + adminPart + invitePart
    requires |structure| == 14 && AllCreated(structure)
    requires structure[0].call == CreateBoard(BoardName(projectName))
    requires Calls(structure[1..5]) == LabelCalls(structure[0].reply.id)
    requires Calls(structure[5..14]) == ListCalls(structure[0].reply.id)
    requires |cardPart| == |cards| && AllCreated(cardPart)
    requires Calls(cardPart)
          == MappedCardCalls(cards, BuildMap(LabelNames(), Ids(structure[1..5])), BuildMap(ListNames(), Ids(structure[5..14])), dates)
    requires |adminPart| == AdminLength(DueOf(dates, Admin)) && AllCreated(adminPart)
    requires Calls(adminPart)
          == AdminCalls(Lookup(BuildMap(ListNames(), Ids(structure[5..14])), PhaseName(Admin)),
                        Lookup(BuildMap(LabelNames(), Ids(structure[1..5])), EveryoneLabel),
                        adminPart[1].reply.id, adminPart[2].reply.id, DueOf(dates, Admin))
    requires Calls(invitePart) == InviteCalls(structure[0].reply.id, emails)
    ensures Provisioned(log, projectName, cards, emails, dates)
  {
    var n := |cards|;
    var pre := 14 + n + AdminLength(DueOf(dates, Admin));
    var labelIds, listIds := Ids(structure[1..5]), Ids(structure[5..14]);
    assert log[..pre] == structure + cardPart + adminPart;
    assert AllCreated(log[..pre]);
    assert log[1..5] == structure[1..5];
    assert log[5..14] == structure[5..14];
    assert log[14..14 + n] == cardPart;
    assert log[14 + n..pre] == adminPart;
    assert log[pre..] == invitePart;
    assert log[0] == structure[0];
    assert log[15 + n] == adminPart[1] && log[16 + n] == adminPart[2];
    MappedCardCallsArePositional(cards, labelIds, listIds, dates);
    AdminLookups(labelIds, listIds);
  }

  /**
   * In a complete run every template card goes to the list created under its
   * phase's name and carries the label created under its role's label name.
   */
  lemma TemplateCardPlacement(log: seq<Exchange>, projectName: string, cards: seq<Card>, emails: seq<string>,
                              dates: DueTable, j: nat)
    requires |dates| == |Phases| && Provisioned(log, projectName, cards, emails, dates) && j < |cards|
    ensures var c, listAt, labelAt := cards[j], 4 + PhaseRank(cards[j].phase), 1 + LabelIndex(cards[j].role);
      && log[listAt].reply.Created? && log[labelAt].reply.Created?
      && log[listAt].call == CreateList(log[0].reply.id, PhaseName(c.phase))
      && log[labelAt].call.CreateLabel? && log[labelAt].call.labelName == CardLabel(c)
      && log[14 + j].call == CreateCard(log[listAt].reply.id, c.title, Template(c.description),
                                        LabelList(log[labelAt].reply.id), DueOf(dates, c.phase), Bottom)
  {
    var n := |cards|;
    var pre := 14 + n + AdminLength(DueOf(dates, Admin));
    var c := cards[j];
    var listAt, labelAt := 4 + PhaseRank(c.phase), 1 + LabelIndex(c.role);
    assert log[..pre][listAt] == log[listAt] && log[..pre][labelAt] == log[labelAt];
    assert log[5..14][listAt - 5] == log[listAt] && log[1..5][labelAt - 1] == log[labelAt];
    assert Calls(log[5..14])[listAt - 5] == log[listAt].call;
    assert Calls(log[1..5])[labelAt - 1] == log[labelAt].call;
    assert Calls(log[14..14 + n])[j] == log[14 + j].call;
    ListNamesFollowRank(c.phase);
    LabelIndexNamesCardLabel(c);
  }

  /** A template card carries a due date exactly when the deadline can be scheduled, and then within it. */
  lemma TemplateCardDue(log: seq<Exchange>, projectName: string, cards: seq<Card>, emails: seq<string>,
                        deadline: Option<int>, intensity: Option<string>, now: int, j: nat)
    requires Provisioned(log, projectName, cards, emails, PhaseDates(deadline, intensity, now)) && j < |cards|
    ensures log[14 + j].call.CreateCard?
    ensures log[14 + j].call.due.Some? <==> Schedulable(deadline, now)
    ensures log[14 + j].call.due.Some? ==> now < log[14 + j].call.due.value <= deadline.value
  {
    var dates := PhaseDates(deadline, intensity, now);
    TemplateCardPlacement(log, projectName, cards, emails, dates, j);
    var p := cards[j].phase;
    assert DueOf(dates, p) == dates[PhaseRank(p) - 1];
  }

  /** How many of the calls satisfy `p`. */
  function Count(calls: seq<Call>, p: Call -> bool): (n: nat)
    ensures n <= |calls|
  {
    if |calls| == 0 then 0 else (if p(calls[0]) then 1 else 0) + Count(calls[1..], p)
  }

  lemma {:induction false} CountAppend(a: seq<Call>, b: seq<Call>, p: Call -> bool)
    ensures Count(a + b, p) == Count(a, p) + Count(b, p)
  {
    if |a| > 0 {
      assert (a + b)[1..] == a[1..] + b;
      CountAppend(a[1..], b, p);
    } else {
      assert a + b == b;
    }
  }

  /** Counting the calls of which every one or none satisfies `p`. */
  lemma {:induction false} CountUniform(calls: seq<Call>, p: Call -> bool)
    ensures (forall j :: 0 <= j < |calls| ==> p(calls[j])) ==> Count(calls, p) == |calls|
    ensures (forall j :: 0 <= j < |calls| ==> !p(calls[j])) ==> Count(calls, p) == 0
  {
    if |calls| > 0 {
      CountUniform(calls[1..], p);
      assert forall j :: 1 <= j < |calls| ==> calls[1..][j - 1] == calls[j];
    }
  }

  function IsLabel(c: Call): bool { c.CreateLabel? }
  function IsList(c: Call): bool { c.CreateList? }
  function IsCard(c: Call): bool { c.CreateCard? }

  /** A complete run's requests are the six stages one after the other. */
  lemma ProvisionedCalls(log: seq<Exchange>, projectName: string, cards: seq<Card>, emails: seq<string>, dates: DueTable)
    requires |dates| == |Phases| && Provisioned(log, projectName, cards, emails, dates)
    ensures var n, b := |cards|, log[0].reply.id;
      && log[0].reply.Created? && log[15 + n].reply.Created? && log[16 + n].reply.Created?
      && Calls(log) == [CreateBoard(BoardName(projectName))] + LabelCalls(b) + ListCalls(b)
                       + CardCalls(cards, Ids(log[1..5]), Ids(log[5..14]), dates)
                       + AdminCalls(Ids(log[5..14])[0], Ids(log[1..5])[3], log[15 + n].reply.id, log[16 + n].reply.id,
                                    DueOf(dates, Admin))
                       + InviteCalls(b, emails)
  {
    var n := |cards|;
    var pre := 14 + n + AdminLength(DueOf(dates, Admin));
    assert log[..pre][0] == log[0] && log[..pre][15 + n] == log[15 + n] && log[..pre][16 + n] == log[16 + n];
    assert log == log[..1] + log[1..5] + log[5..14] + log[14..14 + n] + log[14 + n..pre] + log[pre..];
    CallsAppend(log[..1], log[1..5]);
    CallsAppend(log[..1] + log[1..5], log[5..14]);
    CallsAppend(log[..1] + log[1..5] + log[5..14], log[14..14 + n]);
    CallsAppend(log[..1] + log[1..5] + log[5..14] + log[14..14 + n], log[14 + n..pre]);
    CallsAppend(log[..1] + log[1..5] + log[5..14] + log[14..14 + n] + log[14 + n..pre], log[pre..]);
    assert Calls(log[..1]) == [CreateBoard(BoardName(projectName))];
  }

  /** Counting over the stages one after the other. */
  lemma CountStages(s0: seq<Call>, s1: seq<Call>, s2: seq<Call>, s3: seq<Call>, s4: seq<Call>, s5: seq<Call>, p: Call -> bool)
    ensures Count(s0 + s1 + s2 + s3 + s4 + s5, p)
         == Count(s0, p) + Count(s1, p) + Count(s2, p) + Count(s3, p) + Count(s4, p) + Count(s5, p)
  {
    CountAppend(s0, s1, p);
    CountAppend(s0 + s1, s2, p);
    CountAppend(s0 + s1 + s2, s3, p);
    CountAppend(s0 + s1 + s2 + s3, s4, p);
    CountAppend(s0 + s1 + s2 + s3 + s4, s5, p);
  }

  /** Of the Admin requests, three are cards and none is a label or a list. */
  lemma AdminCallsCount(adminList: string, everyone: string, teamCard: string, checklist: string, admin: Option<int>)
    ensures var calls := AdminCalls(adminList, everyone, teamCard, checklist, admin);
      Count(calls, IsCard) == 3 && Count(calls, IsLabel) == 0 && Count(calls, IsList) == 0
  {
    var calls := AdminCalls(adminList, everyone, teamCard, checklist, admin);
    var fixed := calls[..3];
    var items := CheckItemCalls(checklist);
    var tail := calls[3 + |items|..];
    assert calls == fixed + items + tail;
    AdminCountsOf(fixed, items, tail, IsCard);
    AdminCountsOf(fixed, items, tail, IsLabel);
    AdminCountsOf(fixed, items, tail, IsList);
    assert fixed[1..][1..][1..] == [];
    assert Count(fixed[1..][1..], IsCard) == 0 && Count(fixed[1..][1..], IsLabel) == 0 && Count(fixed[1..][1..], IsList) == 0;
    assert Count(fixed[1..], IsCard) == 1 && Count(fixed[1..], IsLabel) == 0 && Count(fixed[1..], IsList) == 0;
    if admin.Some? {
      assert tail[1..][1..] == [];
      assert Count(tail[1..], IsCard) == 1 && Count(tail[1..], IsLabel) == 0 && Count(tail[1..], IsList) == 0;
    } else {
      assert tail[1..] == [];
    }
  }

  lemma AdminCountsOf(fixed: seq<Call>, items: seq<Call>, tail: seq<Call>, p: Call -> bool)
    requires forall j :: 0 <= j < |items| ==> !p(items[j])
    ensures Count(fixed + items + tail, p) == Count(fixed, p) + Count(tail, p)
  {
    CountAppend(fixed, items, p);
    CountAppend(fixed + items, tail, p);
    CountUniform(items, p);
  }

  /** The counts a complete run reports are the numbers of labels, lists and cards it requested. */
  lemma SummaryCountsRequests(log: seq<Exchange>, projectName: string, cards: seq<Card>, emails: seq<string>, dates: DueTable)
    requires |dates| == |Phases| && Provisioned(log, projectName, cards, emails, dates)
    ensures Count(Calls(log), IsLabel) == |TrelloLabels()|
    ensures Count(Calls(log), IsList) == |Phases|
    ensures Count(Calls(log), IsCard) == |cards| + 3
  {
    ProvisionedCalls(log, projectName, cards, emails, dates);
    var n, b := |cards|, log[0].reply.id;
    var s3 := CardCalls(cards, Ids(log[1..5]), Ids(log[5..14]), dates);
    var s4 := AdminCalls(Ids(log[5..14])[0], Ids(log[1..5])[3], log[15 + n].reply.id, log[16 + n].reply.id, DueOf(dates, Admin));
    AdminCallsCount(Ids(log[5..14])[0], Ids(log[1..5])[3], log[15 + n].reply.id, log[16 + n].reply.id, DueOf(dates, Admin));
    StageCount([CreateBoard(BoardName(projectName))], LabelCalls(b), ListCalls(b), s3, s4, InviteCalls(b, emails), IsLabel);
    StageCount([CreateBoard(BoardName(projectName))], LabelCalls(b), ListCalls(b), s3, s4, InviteCalls(b, emails), IsList);
    StageCount([CreateBoard(BoardName(projectName))], LabelCalls(b), ListCalls(b), s3, s4, InviteCalls(b, emails), IsCard);
  }

  /** Counting over the six stages of a run, given which stages hold which kind of request. */
  lemma StageCount(s0: seq<Call>, s1: seq<Call>, s2: seq<Call>, s3: seq<Call>, s4: seq<Call>, s5: seq<Call>, p: Call -> bool)
    requires |s0| == 1 && s0[0].CreateBoard?
    requires forall j :: 0 <= j < |s1| ==> s1[j].CreateLabel?
    requires forall j :: 0 <= j < |s2| ==> s2[j].CreateList?
    requires forall j :: 0 <= j < |s3| ==> s3[j].CreateCard?
    requires forall j :: 0 <= j < |s5| ==> s5[j].InviteMember?
    requires p == IsLabel || p == IsList || p == IsCard
    ensures Count(s0 + s1 + s2 + s3 + s4 + s5, p)
         == (if p == IsLabel then |s1| else 0) + (if p == IsList then |s2| else 0) + (if p == IsCard then |s3| else 0)
            + Count(s4, p)
  {
    CountStages(s0, s1, s2, s3, s4, s5, p);
    CountUniform(s0, p);
    CountUniform(s1, p);
    CountUniform(s2, p);
    CountUniform(s3, p);
    CountUniform(s5, p);
  }

  // ---------------------------------------------------------------------------
  // The installer as written
  // ---------------------------------------------------------------------------

  /**
   * The installer as its source reads: the team-agreement post's reply is
   * never bound to `teamAgreementCard`, so the next statement, the checklist
   * request on `teamAgreementCard.id`, throws a reference error inside the
   * same `try`, which rethrows it. Every run fails, and no request after the
   * team-agreement card is sent: no checklist, no decision log, no invitation.
   */
  method CreateCompleteBoardAsWritten(api: Api, authorized: bool, projectName: string, roles: seq<string>,
                                      teamEmails: Option<string>, deadline: Option<int>, intensity: Option<string>, now: int)
    returns (log: seq<Exchange>, outcome: Outcome)
    ensures outcome.Failure?
    ensures !authorized ==> log == [] && outcome == Failure(NotAuthorized)
    ensures authorized ==> InstalledAsWritten(api, Assemble(roles), log, outcome)
  {
    if !authorized {
      return [], Failure(NotAuthorized);
    }
    log, outcome := InstallAsWritten(api, projectName, Assemble(roles), PhaseDates(deadline, intensity, now));
  }

  /**
   * What an authorised createCompleteBoard does as written: every call answered, it always
   * fails, and with a service that accepts every call it fails on the unbound reference just
   * after sending the team-agreement card, before any invitation.
   */
  ghost predicate InstalledAsWritten(api: Api, cards: seq<Card>, log: seq<Exchange>, outcome: Outcome)
  {
    && Answered(api, log)
    && outcome.Failure?
    && |log| <= 16 + |cards|
    && ((forall h, c :: api(h, c).Created?) ==>
      && outcome.error == UnboundReference("teamAgreementCard")
      && |log| == 16 + |cards|
      && log[|log| - 1].call.CreateCard? && log[|log| - 1].call.desc == TeamAgreement)
  }

  /** An authorised installation as written: it never gets past the team-agreement card. */
  method InstallAsWritten(api: Api, projectName: string, cards: seq<Card>, dates: DueTable)
    returns (log: seq<Exchange>, outcome: Outcome)
    requires |dates| == |Phases|
    ensures InstalledAsWritten(api, cards, log, outcome)
  {
    var failure;
    log, failure := CreateStructure(api, projectName);
    if failure.Some? {
      AcceptingNeverFailsIf(api, log);
      return log, Failure(ApiError(failure.value));
    }
    var structure := log;
    var cardPart;
    cardPart, failure := CreateTemplateCards(api, structure, cards, dates);
    log := structure + cardPart;
    if failure.Some? {
      FailedRun(api, structure, cardPart);
      return log, Failure(ApiError(failure.value));
    }
    var labelMap := BuildMap(LabelNames(), Ids(structure[1..5]));
    var listMap := BuildMap(ListNames(), Ids(structure[5..14]));
    var head;
    head, failure := CreateAgreementCards(api, log, Lookup(listMap, PhaseName(Admin)),
                                          Lookup(labelMap, EveryoneLabel), DueOf(dates, Admin));
    CreatedAfter(structure, cardPart);
    NoInvitesAfter(structure, cardPart);
    log := log + head;
    if failure.Some? {
      FailedRun(api, structure + cardPart, head);
      return log, Failure(ApiError(failure.value));
    }
    assert head[1].call == Calls(head)[1];
    assert log[|log| - 1] == head[1];
    outcome := Failure(UnboundReference("teamAgreementCard"));
  }

}

/**
 * Card assembly: the base group plus every selected role group, put in a
 * stable order by (phase rank, order), and the counts derived from it.
 */
module Assembler {
  import opened Catalog

  /** `a` may stand before `b`: a lower phase rank, or the same phase and no larger order. */
  predicate Precedes(a: Card, b: Card) {
    || PhaseRank(a.phase) < PhaseRank(b.phase)
    || (PhaseRank(a.phase) == PhaseRank(b.phase) && a.order <= b.order)
  }

  /** Every card precedes every later card. */
  predicate Sorted(s: seq<Card>) {
    forall i, j :: 0 <= i < j < |s| ==> Precedes(s[i], s[j])
  }

  /** The cards of `s` whose sort key is (`phase`, `order`), kept in their order in `s`. */
  function Ties(s: seq<Card>, phase: Phase, order: int): seq<Card> {
    if |s| == 0 then []
    else TieOf(s[0], phase, order) + Ties(s[1..], phase, order)
  }

  /** Puts `x` in front of the first card it may precede. */
  function Insert(x: Card, s: seq<Card>): (r: seq<Card>)
    ensures multiset(r) == multiset(s) + multiset{x}
    ensures |r| == |s| + 1
  {
    if |s| == 0 || Precedes(x, s[0]) then [x] + s
    else
      assert s == [s[0]] + s[1..];
      [s[0]] + Insert(x, s[1..])
  }

  /** Insertion sort; an element is inserted ahead of every card that ties with it. */
  function SortCards(s: seq<Card>): (r: seq<Card>)
    ensures multiset(r) == multiset(s)
    ensures |r| == |s|
  {
    if |s| == 0 then []
    else
      assert s == [s[0]] + s[1..];
      Insert(s[0], SortCards(s[1..]))
  }

  lemma {:induction false} InsertSorted(x: Card, s: seq<Card>)
    requires Sorted(s)
    ensures Sorted(Insert(x, s))
  {
    if |s| == 0 || Precedes(x, s[0]) {
    } else {
      var rest := Insert(x, s[1..]);
      InsertSorted(x, s[1..]);
      forall k | 0 <= k < |rest|
        ensures Precedes(s[0], rest[k])
      {
        assert rest[k] in multiset(rest);
        if rest[k] != x {
          assert rest[k] in multiset(s[1..]);
          var m :| 0 <= m < |s[1..]| && s[1..][m] == rest[k];
          assert s[1 + m] == rest[k];
        }
      }
      assert Insert(x, s) == [s[0]] + rest;
    }
  }

  lemma {:induction false} SortCardsSorted(s: seq<Card>)
    ensures Sorted(SortCards(s))
  {
    if |s| > 0 {
      SortCardsSorted(s[1..]);
      InsertSorted(s[0], SortCards(s[1..]));
    }
  }

  lemma SortCardsMembers(s: seq<Card>, c: Card)
    ensures c in SortCards(s) <==> c in s
  {
    assert c in SortCards(s) <==> c in multiset(SortCards(s));
  }

  lemma {:induction false} TiesAppend(a: seq<Card>, b: seq<Card>, phase: Phase, order: int)
    ensures Ties(a + b, phase, order) == Ties(a, phase, order) + Ties(b, phase, order)
  {
    if |a| > 0 {
      assert (a + b)[1..] == a[1..] + b;
      TiesAppend(a[1..], b, phase, order);
    } else {
      assert a + b == b;
    }
  }

  /** The part of `Ties` contributed by one card. */
  function TieOf(c: Card, phase: Phase, order: int): seq<Card> {
    if c.phase == phase && c.order == order then [c] else []
  }

  lemma TiesCons(c: Card, s: seq<Card>, phase: Phase, order: int)
    ensures Ties([c] + s, phase, order) == TieOf(c, phase, order) + Ties(s, phase, order)
  {
    assert ([c] + s)[1..] == s;
  }

  /** Inserting a card puts it ahead of every card that ties with it. */
  lemma {:induction false} TiesInsert(x: Card, s: seq<Card>, phase: Phase, order: int)
    ensures Ties(Insert(x, s), phase, order) == TieOf(x, phase, order) + Ties(s, phase, order)
  {
    if |s| == 0 || Precedes(x, s[0]) {
      TiesCons(x, s, phase, order);
    } else {
      var rest := Insert(x, s[1..]);
      TiesInsert(x, s[1..], phase, order);
      TiesCons(s[0], rest, phase, order);
      TiesCons(s[0], s[1..], phase, order);
      assert s == [s[0]] + s[1..];
      assert TieOf(x, phase, order) == [] || TieOf(s[0], phase, order) == [];
    }
  }

  /** The sort is stable: cards with equal keys keep their input order. */
  lemma {:induction false} SortCardsStable(s: seq<Card>, phase: Phase, order: int)
    ensures Ties(SortCards(s), phase, order) == Ties(s, phase, order)
  {
    if |s| > 0 {
      SortCardsStable(s[1..], phase, order);
      TiesInsert(s[0], SortCards(s[1..]), phase, order);
    }
  }

  /** A card is among the ties of a key iff it occurs and carries that key. */
  lemma {:induction false} TiesMember(s: seq<Card>, c: Card, phase: Phase, order: int)
    ensures c in Ties(s, phase, order) <==> c in s && c.phase == phase && c.order == order
  {
    if |s| > 0 {
      TiesMember(s[1..], c, phase, order);
      assert s == [s[0]] + s[1..];
    }
  }

  /** The ties of a key keep the relative order the cards have in `s`. */
  lemma {:induction false} TiesKeepOrder(s: seq<Card>, phase: Phase, order: int, a: nat, b: nat)
    requires a < b < |Ties(s, phase, order)|
    ensures exists i, j :: 0 <= i < j < |s| && s[i] == Ties(s, phase, order)[a] && s[j] == Ties(s, phase, order)[b]
  {
    var t, tail := Ties(s, phase, order), s[1..];
    var rest := Ties(tail, phase, order);
    assert t == TieOf(s[0], phase, order) + rest;
    if TieOf(s[0], phase, order) == [] {
      TiesKeepOrder(tail, phase, order, a, b);
      var i, j :| 0 <= i < j < |tail| && tail[i] == rest[a] && tail[j] == rest[b];
      assert s[i + 1] == t[a] && s[j + 1] == t[b];
    } else if a == 0 {
      HeadTieBeforeRest(s, phase, order, b);
    } else {
      assert t == [s[0]] + rest;
      TiesKeepOrder(tail, phase, order, a - 1, b - 1);
      var i, j :| 0 <= i < j < |tail| && tail[i] == rest[a - 1] && tail[j] == rest[b - 1];
      assert s[i + 1] == t[a] && s[j + 1] == t[b];
    }
  }

  /** When the first card is itself a tie, it precedes every later tie. */
  lemma HeadTieBeforeRest(s: seq<Card>, phase: Phase, order: int, b: nat)
    requires |s| > 0 && TieOf(s[0], phase, order) != [] && 0 < b < |Ties(s, phase, order)|
    ensures exists j :: 0 < j < |s| && s[0] == Ties(s, phase, order)[0] && s[j] == Ties(s, phase, order)[b]
  {
    var t, tail := Ties(s, phase, order), s[1..];
    var rest := Ties(tail, phase, order);
    assert t == [s[0]] + rest;
    assert rest[b - 1] in rest;
    TiesMember(tail, rest[b - 1], phase, order);
    var j :| 0 <= j < |tail| && tail[j] == rest[b - 1];
    assert s[j + 1] == t[b];
  }

  /** The unsorted selection: base cards, then the pm, uxr and ui groups whose id is in `roles`. */
  function Selected(roles: seq<string>): (selection: seq<Card>)
    ensures |BaseCards| <= |selection| && selection[..|BaseCards|] == BaseCards
  {
    BaseCards + RoleGroups(roles)
  }

  /** The role groups pushed after the base cards, in the fixed pm, uxr, ui order. */
  function RoleGroups(roles: seq<string>): seq<Card> {
    (if PmId in roles then PmCards else [])
    + (if UxrId in roles then UxrCards else [])
    + (if UiId in roles then UiCards else [])
  }

  /** The cards a board gets for the given role ids, in board order. */
  function Assemble(roles: seq<string>): (r: seq<Card>)
    ensures Sorted(r)
    ensures multiset(r) == multiset(Selected(roles))
    ensures |r| == |Selected(roles)|
    ensures forall phase, order :: Ties(r, phase, order) == Ties(Selected(roles), phase, order)
  {
    var s := Selected(roles);
    SortCardsSorted(s);
    forall phase, order ensures Ties(SortCards(s), phase, order) == Ties(s, phase, order) {
      SortCardsStable(s, phase, order);
    }
    SortCards(s)
  }

  /** A card is assembled iff it is a base card or belongs to a selected group. */
  lemma AssembleContents(roles: seq<string>, c: Card)
    ensures c in Assemble(roles)
        <==> || c in BaseCards
             || (PmId in roles && c in PmCards)
             || (UxrId in roles && c in UxrCards)
             || (UiId in roles && c in UiCards)
  {
    SortCardsMembers(Selected(roles), c);
    SelectedMembers(roles, c);
  }

  /** A card is selected iff it is a base card or belongs to a group whose id is among the roles. */
  lemma SelectedMembers(roles: seq<string>, c: Card)
    ensures c in Selected(roles)
        <==> || c in BaseCards
             || (PmId in roles && c in PmCards)
             || (UxrId in roles && c in UxrCards)
             || (UiId in roles && c in UiCards)
  {
    PickedMembers(BaseCards, PmId in roles, PmCards, UxrId in roles, UxrCards, UiId in roles, UiCards, c);
  }

  /** Membership in the base group followed by a conditional concatenation of three groups. */
  lemma PickedMembers(base: seq<Card>, p: bool, a: seq<Card>, q: bool, b: seq<Card>, r: bool, c: seq<Card>, x: Card)
    ensures x in base + ((if p then a else []) + (if q then b else []) + (if r then c else []))
        <==> x in base || (p && x in a) || (q && x in b) || (r && x in c)
  {
  }

  /** No card is assembled twice: the groups repeat no card and cards of different groups differ in role. */
  lemma AssembleNoDuplicates(roles: seq<string>)
    ensures NoDup(Assemble(roles))
  {
    SelectedNoDup(roles);
    NoDupPermutation(Selected(roles), Assemble(roles));
  }

  /** The unsorted selection repeats no card. */
  lemma SelectedNoDup(roles: seq<string>)
    ensures NoDup(Selected(roles))
  {
    BaseNoDup(); PmNoDup(); UxrNoDup(); UiNoDup();
    BaseCardsAreBase(); PmCardsArePm(); UxrCardsAreUxr(); UiCardsAreUi();
    PickedNoDup(BaseCards, PmId in roles, PmCards, UxrId in roles, UxrCards, UiId in roles, UiCards);
  }

  /** Groups without repeats, each of one role, picked and joined, give a list without repeats. */
  lemma PickedNoDup(base: seq<Card>, p: bool, a: seq<Card>, q: bool, b: seq<Card>, r: bool, c: seq<Card>)
    requires NoDup(base) && NoDup(a) && NoDup(b) && NoDup(c)
    requires forall x :: x in base ==> x.role == Base
    requires forall x :: x in a ==> x.role == Pm
    requires forall x :: x in b ==> x.role == Uxr
    requires forall x :: x in c ==> x.role == Ui
    ensures NoDup(base + ((if p then a else []) + (if q then b else []) + (if r then c else [])))
  {
    var pa, qb, rc := if p then a else [], if q then b else [], if r then c else [];
    NoDupAppend(pa, qb);
    NoDupAppend(pa + qb, rc);
    NoDupAppend(base, pa + qb + rc);
  }

  /** Joining two lists without repeats and without a common card gives a list without repeats. */
  lemma NoDupAppend(a: seq<Card>, b: seq<Card>)
    requires NoDup(a) && NoDup(b) && forall x :: x in a ==> x !in b
    ensures NoDup(a + b)
  {
    forall i, j | 0 <= i < j < |a + b|
      ensures (a + b)[i] != (a + b)[j]
    {
      if j < |a| {
        assert (a + b)[i] == a[i] && (a + b)[j] == a[j];
      } else if i >= |a| {
        assert (a + b)[i] == b[i - |a|] && (a + b)[j] == b[j - |a|];
      } else {
        assert (a + b)[i] == a[i] && a[i] in a;
        assert (a + b)[j] == b[j - |a|] && b[j - |a|] in b;
      }
    }
  }

  /** A list without repeats holds each card at most once. */
  lemma {:induction false} NoDupCount(s: seq<Card>, x: Card)
    requires NoDup(s)
    ensures multiset(s)[x] <= 1
  {
    if |s| > 0 {
      var tail := s[1..];
      assert s == [s[0]] + tail;
      forall i, j | 0 <= i < j < |tail|
        ensures tail[i] != tail[j]
      {
        assert tail[i] == s[i + 1] && tail[j] == s[j + 1];
      }
      NoDupCount(tail, x);
      if x in tail {
        var k :| 0 <= k < |tail| && tail[k] == x;
        assert s[k + 1] == x;
      }
    }
  }

  /** A list holding each card at most once has no repeats. */
  lemma CountNoDup(s: seq<Card>)
    requires forall x :: multiset(s)[x] <= 1
    ensures NoDup(s)
  {
    forall i, j | 0 <= i < j < |s|
      ensures s[i] != s[j]
    {
      assert s == s[..j] + s[j..];
      assert s[..j][i] == s[i] && s[j..][0] == s[j];
      assert multiset(s)[s[i]] == multiset(s[..j])[s[i]] + multiset(s[j..])[s[i]];
    }
  }

  /** A permutation of a list without repeats has no repeats. */
  lemma NoDupPermutation(a: seq<Card>, b: seq<Card>)
    requires multiset(a) == multiset(b) && NoDup(a)
    ensures NoDup(b)
  {
    forall x
      ensures multiset(b)[x] <= 1
    {
      NoDupCount(a, x);
    }
    CountNoDup(b);
  }

  /** Base cards are always assembled, whatever the roles (none included). */
  lemma BaseAlwaysAssembled(roles: seq<string>)
    ensures forall c :: c in BaseCards ==> c in Assemble(roles)
  {
    forall c | c in BaseCards ensures c in Assemble(roles) {
      AssembleContents(roles, c);
    }
  }

  /** A role-group card is assembled exactly when its group's id is among the roles. */
  lemma RoleCardIncludedIff(roles: seq<string>, c: Card)
    ensures c in PmCards ==> (c in Assemble(roles) <==> PmId in roles)
    ensures c in UxrCards ==> (c in Assemble(roles) <==> UxrId in roles)
    ensures c in UiCards ==> (c in Assemble(roles) <==> UiId in roles)
  {
    SortCardsMembers(Selected(roles), c);
    SelectedRoleCard(roles, c);
  }

  lemma SelectedRoleCard(roles: seq<string>, c: Card)
    ensures c in PmCards ==> (c in Selected(roles) <==> PmId in roles)
    ensures c in UxrCards ==> (c in Selected(roles) <==> UxrId in roles)
    ensures c in UiCards ==> (c in Selected(roles) <==> UiId in roles)
  {
    GroupRoles(c);
    PickedRoleCard(BaseCards, PmId in roles, PmCards, UxrId in roles, UxrCards, UiId in roles, UiCards, c);
  }

  /** In groups told apart by role, a group card is picked iff its group is. */
  lemma PickedRoleCard(base: seq<Card>, p: bool, a: seq<Card>, q: bool, b: seq<Card>, r: bool, c: seq<Card>, x: Card)
    requires x in base ==> x.role == Base
    requires x in a ==> x.role == Pm
    requires x in b ==> x.role == Uxr
    requires x in c ==> x.role == Ui
    ensures x in a ==> (x in base + ((if p then a else []) + (if q then b else []) + (if r then c else [])) <==> p)
    ensures x in b ==> (x in base + ((if p then a else []) + (if q then b else []) + (if r then c else [])) <==> q)
    ensures x in c ==> (x in base + ((if p then a else []) + (if q then b else []) + (if r then c else [])) <==> r)
  {
    PickedMembers(base, p, a, q, b, r, c, x);
  }

  /** With no recognised role id, only base (Everyone) cards are assembled. */
  lemma NoRolesOnlyBase(roles: seq<string>)
    requires PmId !in roles && UxrId !in roles && UiId !in roles
    ensures forall c :: c in Assemble(roles) ==> c.role == Base
    ensures |Assemble(roles)| == |BaseCards|
  {
    BaseCardsAreBase();
    forall c | c in Assemble(roles) ensures c.role == Base {
      AssembleContents(roles, c);
    }
  }

  /** Only membership of the three recognised ids matters: duplicates, order and other ids do not. */
  lemma AssembleDependsOnRoleSet(roles1: seq<string>, roles2: seq<string>)
    requires forall x :: x in roles1 <==> x in roles2
    ensures Assemble(roles1) == Assemble(roles2)
  {
    assert PmId in roles1 <==> PmId in roles2;
    assert UxrId in roles1 <==> UxrId in roles2;
    assert UiId in roles1 <==> UiId in roles2;
    assert RoleGroups(roles1) == RoleGroups(roles2);
  }

  /** An unrecognised role id contributes nothing. */
  lemma UnknownRoleIgnored(roles: seq<string>, id: string)
    requires id != PmId && id != UxrId && id != UiId
    ensures Assemble(roles + [id]) == Assemble(roles)
  {
    assert PmId in roles + [id] <==> PmId in roles;
    assert UxrId in roles + [id] <==> UxrId in roles;
    assert UiId in roles + [id] <==> UiId in roles;
    assert Selected(roles + [id]) == Selected(roles);
  }

  lemma SelectedSize(roles: seq<string>)
    ensures |Selected(roles)| == 3 + (if PmId in roles then 13 else 0)
                                   + (if UxrId in roles then 16 else 0)
                                   + (if UiId in roles then 14 else 0)
  {
    CatalogSizes();
    PickedSize(PmId in roles, PmCards, UxrId in roles, UxrCards, UiId in roles, UiCards);
  }

  /** The length of a conditional concatenation of three groups. */
  lemma PickedSize(p: bool, a: seq<Card>, q: bool, b: seq<Card>, r: bool, c: seq<Card>)
    ensures |(if p then a else []) + (if q then b else []) + (if r then c else [])|
         == (if p then |a| else 0) + (if q then |b| else 0) + (if r then |c| else 0)
  {
  }

  /** A card of an earlier part stays ahead of a tied card of a later part. */
  lemma StableAcrossParts(front: seq<Card>, back: seq<Card>, x: Card, y: Card)
    requires x in front && y in back
    requires x.phase == y.phase && x.order == y.order
    ensures exists i, j :: 0 <= i < j < |SortCards(front + back)|
                        && SortCards(front + back)[i] == x
                        && SortCards(front + back)[j] == y
  {
    var phase, order := x.phase, x.order;
    TiesAppend(front, back, phase, order);
    var tf, tb := Ties(front, phase, order), Ties(back, phase, order);
    TiesMember(front, x, phase, order);
    TiesMember(back, y, phase, order);
    var a :| 0 <= a < |tf| && tf[a] == x;
    var k :| 0 <= k < |tb| && tb[k] == y;
    var t := tf + tb;
    assert t[a] == x && t[|tf| + k] == y;
    SortCardsStable(front + back, phase, order);
    TiesKeepOrder(SortCards(front + back), phase, order, a, |tf| + k);
  }

  lemma TieInDelivery()
    ensures Retrospective in BaseCards && StakeholderPresentation in PmCards
    ensures Retrospective.phase == StakeholderPresentation.phase == Delivery
    ensures Retrospective.order == StakeholderPresentation.order == 1
  {
  }

  /**
   * The one tie between groups: both the base and the pm group have Delivery
   * cards of order 1. The base card was selected first, so it stays first.
   */
  lemma DeliveryTieKeepsBaseFirst(roles: seq<string>)
    requires PmId in roles
    ensures exists i, j :: 0 <= i < j < |Assemble(roles)|
                        && Assemble(roles)[i] == Retrospective
                        && Assemble(roles)[j] == StakeholderPresentation
  {
    TieInDelivery();
    PickedGroups(PmId in roles, PmCards, UxrId in roles, UxrCards, UiId in roles, UiCards, StakeholderPresentation);
    StableAcrossParts(BaseCards, RoleGroups(roles), Retrospective, StakeholderPresentation);
    AssembleSortsSelection(roles);
  }

  lemma AssembleSortsSelection(roles: seq<string>)
    ensures Assemble(roles) == SortCards(BaseCards + RoleGroups(roles))
  {
  }

  /** Membership in a conditional concatenation of three groups. */
  lemma PickedGroups(p: bool, a: seq<Card>, q: bool, b: seq<Card>, r: bool, c: seq<Card>, x: Card)
    ensures x in (if p then a else []) + (if q then b else []) + (if r then c else [])
        <==> (p && x in a) || (q && x in b) || (r && x in c)
  {
  }

  /** The number of cards a board gets: 3 base, 13 pm, 16 uxr, 14 ui. */
  function CardCount(roles: seq<string>): (n: nat)
    ensures n == 3 + (if PmId in roles then 13 else 0)
                   + (if UxrId in roles then 16 else 0)
                   + (if UiId in roles then 14 else 0)
  {
    var r := Assemble(roles);
    SelectedSize(roles);
    |r|
  }

  /** Selecting more role ids never lowers the card count. */
  lemma CardCountMonotone(roles1: seq<string>, roles2: seq<string>)
    requires forall x :: x in roles1 ==> x in roles2
    ensures CardCount(roles1) <= CardCount(roles2)
  {
    var p1, q1, r1 := PmId in roles1, UxrId in roles1, UiId in roles1;
    var p2, q2, r2 := PmId in roles2, UxrId in roles2, UiId in roles2;
    assert (p1 ==> p2) && (q1 ==> q2) && (r1 ==> r2);
    PickedCountMonotone(p1, q1, r1, p2, q2, r2);
  }

  /** Picking more groups never gives fewer cards. */
  lemma PickedCountMonotone(p1: bool, q1: bool, r1: bool, p2: bool, q2: bool, r2: bool)
    requires (p1 ==> p2) && (q1 ==> q2) && (r1 ==> r2)
    ensures 3 + (if p1 then 13 else 0) + (if q1 then 16 else 0) + (if r1 then 14 else 0)
         <= 3 + (if p2 then 13 else 0) + (if q2 then 16 else 0) + (if r2 then 14 else 0)
  {
  }

  /** Card counts per group, and the assembled total. */
  datatype RoleBreakdown = RoleBreakdown(base: nat, pm: nat, uxr: nat, ui: nat, total: nat)

  function Breakdown(roles: seq<string>): (b: RoleBreakdown)
    ensures b.total == b.base + b.pm + b.uxr + b.ui
    ensures b.total == |Assemble(roles)|
    ensures b.pm > 0 <==> PmId in roles
    ensures b.uxr > 0 <==> UxrId in roles
    ensures b.ui > 0 <==> UiId in roles
  {
    CatalogSizes();
    RoleBreakdown(
      |BaseCards|,
      if PmId in roles then |PmCards| else 0,
      if UxrId in roles then |UxrCards| else 0,
      if UiId in roles then |UiCards| else 0,
      CardCount(roles))
  }

  /** The phase count as the source writes it: a constant 8. */
  function PhaseCountAsWritten(): (n: nat)
    ensures n < |Phases|
  {
    8
  }

  /** The list count as the source writes it: a constant 8. */
  function ListCountAsWritten(): (n: nat)
    ensures n < |Phases|
  {
    8
  }

  /** The written counts leave out a phase: Delivery's rank lies above them. */
  lemma CountsAsWrittenMissAPhase()
    ensures PhaseCountAsWritten() < |Phases| && ListCountAsWritten() < |Phases|
    ensures PhaseRank(Delivery) > PhaseCountAsWritten()
  {
  }

  /** The number of phases, written out as a constant like the source does. */
  function PhaseCount(): (n: nat)
    ensures n == |Phases|
    ensures forall p: Phase :: 1 <= PhaseRank(p) <= n
  {
    9
  }

  /** One list per phase. */
  function ListCount(): (n: nat)
    ensures n == PhaseCount()
    ensures forall k :: 0 <= k < n ==> k < |Phases| && PhaseRank(Phases[k]) == k + 1
  {
    PhasesFollowRank();
    9
  }
}

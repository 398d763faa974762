/**
 * The card catalog of the workflow installer: the nine project phases, the
 * four card roles, the four static template groups and the label helpers.
 * All of it is immutable data fixed at build time.
 */
module Catalog {

  /** The project phases, in board order (one list per phase). */
  datatype Phase =
    | Admin | Frame | Research | Synthesis | Define
    | UISystem | Prototype | Testing | Delivery

  const Phases: seq<Phase> :=
    [Admin, Frame, Research, Synthesis, Define, UISystem, Prototype, Testing, Delivery]

  /** The display name of a phase; it names the board list and keys the due-date table. */
  function PhaseName(p: Phase): string {
    match p
    case Admin => "Admin"
    case Frame => "Frame"
    case Research => "Research"
    case Synthesis => "Synthesis"
    case Define => "Define"
    case UISystem => "UI System"
    case Prototype => "Prototype"
    case Testing => "Testing"
    case Delivery => "Delivery"
  }

  /** The rank of a phase in the assembler's sort table: Admin is 1, Delivery is 9. */
  function PhaseRank(p: Phase): nat {
    match p
    case Admin => 1
    case Frame => 2
    case Research => 3
    case Synthesis => 4
    case Define => 5
    case UISystem => 6
    case Prototype => 7
    case Testing => 8
    case Delivery => 9
  }

  /** The role a card is labelled with; `Base` cards go to everyone. */
  datatype Role = Base | Pm | Uxr | Ui

  /** A card template. */
  datatype Card = Card(title: string, phase: Phase, description: string, order: int, role: Role)

  /** The base and the project-manager group each have a Delivery card of order 1. */
  const Retrospective: Card :=
    Card("Project retrospective", Delivery,
         "Reflect on what worked, what didn't, lessons learned",
         1, Base)

  const StakeholderPresentation: Card :=
    Card("Prepare stakeholder presentation", Delivery,
         "Create final presentation highlighting outcomes and recommendations",
         1, Pm)

  /** Cards every board gets. */
  const BaseCards: seq<Card> := [
      Card("Project kickoff meeting", Admin,
           "Align team on goals, timeline, and ways of working",
           1, Base),
      Retrospective,
      Card("Archive & handoff", Delivery,
           "Organize final deliverables and transfer knowledge",
           2, Base)
    ]

  /** Project-manager cards. */
  const PmCards: seq<Card> := [
      Card("Define project scope", Frame,
           "Document what's in/out of scope, constraints, assumptions",
           1, Pm),
      Card("Create project timeline", Frame,
           "Build realistic schedule with milestones and dependencies",
           2, Pm),
      Card("Identify stakeholders", Frame,
           "Map key stakeholders, their interests, and communication needs",
           3, Pm),
      Card("Set success metrics", Frame,
           "Define measurable criteria for project success",
           4, Pm),
      Card("Coordinate research logistics", Research,
           "Schedule sessions, manage resources, track budget",
           1, Pm),
      Card("Prioritize insights", Synthesis,
           "Work with team to rank findings by impact and feasibility",
           1, Pm),
      Card("Facilitate feature prioritization", Define,
           "Lead team through prioritization framework (MoSCoW, RICE, etc)",
           1, Pm),
      Card("Create requirement docs", Define,
           "Document functional and non-functional requirements",
           2, Pm),
      Card("Manage prototype scope", Prototype,
           "Ensure prototype addresses key questions without scope creep",
           1, Pm),
      Card("Coordinate testing schedule", Testing,
           "Arrange sessions, participants, and resources",
           1, Pm),
      Card("Track issues and bugs", Testing,
           "Log, prioritize, and manage resolution of findings",
           2, Pm),
      StakeholderPresentation,
      Card("Document lessons learned", Delivery,
           "Capture what worked, what didn't, recommendations for next time",
           2, Pm)
    ]

  /** UX-researcher cards. */
  const UxrCards: seq<Card> := [
      Card("Define research questions", Frame,
           "Identify key unknowns that research needs to answer",
           5, Uxr),
      Card("Create research plan", Research,
           "Define methods, timeline, participants, and deliverables",
           2, Uxr),
      Card("Write discussion guide", Research,
           "Develop questions and activities for user sessions",
           3, Uxr),
      Card("Recruit participants", Research,
           "Find and screen users matching target criteria",
           4, Uxr),
      Card("Conduct user interviews", Research,
           "Run sessions, take notes, record (with permission)",
           5, Uxr),
      Card("Organize research data", Research,
           "Transcribe, tag, and prepare data for analysis",
           6, Uxr),
      Card("Affinity mapping", Synthesis,
           "Group observations into themes and patterns",
           2, Uxr),
      Card("Identify user needs", Synthesis,
           "Articulate core user problems and motivations",
           3, Uxr),
      Card("Create personas", Synthesis,
           "Develop representative user archetypes with goals and pain points",
           4, Uxr),
      Card("Present research findings", Synthesis,
           "Share insights with team through presentation or workshop",
           5, Uxr),
      Card("Write usability test plan", Testing,
           "Define test objectives, tasks, and success criteria",
           3, Uxr),
      Card("Create test script", Testing,
           "Write scenarios and tasks for participants",
           4, Uxr),
      Card("Recruit test participants", Testing,
           "Find users matching target audience for testing",
           5, Uxr),
      Card("Conduct usability tests", Testing,
           "Run test sessions, observe, and document findings",
           6, Uxr),
      Card("Analyze test results", Testing,
           "Identify patterns, severity ratings, and recommendations",
           7, Uxr),
      Card("Create findings report", Testing,
           "Document issues found with evidence and recommendations",
           8, Uxr)
    ]

  /** UI-designer cards. */
  const UiCards: seq<Card> := [
      Card("Audit existing designs", Frame,
           "Review current UI, identify inconsistencies and opportunities",
           6, Ui),
      Card("Create user flows", Define,
           "Map out step-by-step paths users take through product",
           3, Ui),
      Card("Design information architecture", Define,
           "Organize content structure, navigation, and labeling",
           4, Ui),
      Card("Create wireframes", Define,
           "Sketch low-fidelity layouts showing structure and content",
           5, Ui),
      Card("Define design tokens", UISystem,
           "Establish colors, typography, spacing, and other foundation values",
           1, Ui),
      Card("Create component library", UISystem,
           "Design reusable UI components (buttons, inputs, cards, etc)",
           2, Ui),
      Card("Document design system", UISystem,
           "Write usage guidelines, do's and don'ts for each component",
           3, Ui),
      Card("Design system QA", UISystem,
           "Test components in various contexts, ensure consistency",
           4, Ui),
      Card("Design high-fidelity screens", Prototype,
           "Create polished UI designs with real content and visuals",
           2, Ui),
      Card("Build interactive prototype", Prototype,
           "Connect screens with interactions for realistic testing",
           3, Ui),
      Card("Create design specs", Prototype,
           "Document measurements, behaviors, and assets for developers",
           4, Ui),
      Card("Update designs based on feedback", Testing,
           "Iterate on UI based on test findings and team input",
           9, Ui),
      Card("Prepare design handoff", Delivery,
           "Package final designs, assets, and documentation for development",
           3, Ui),
      Card("Create design system guide", Delivery,
           "Final documentation of design patterns and components",
           4, Ui)
    ]

  /** The role ids the wizard passes in, one per selectable role group. */
  const PmId: string := "pm"
  const UxrId: string := "uxr"
  const UiId: string := "ui"

  /** A label the installer creates on every board. */
  datatype LabelSpec = LabelSpec(name: string, color: string)

  const EveryoneLabel: string := "Everyone"

  /** The four board labels, in creation order. */
  function TrelloLabels(): (labels: seq<LabelSpec>)
    ensures |labels| == 4 && labels[3].name == EveryoneLabel
  {
    [ LabelSpec("PM", "purple"),
      LabelSpec("UXR", "blue"),
      LabelSpec("UI", "green"),
      LabelSpec(EveryoneLabel, "yellow") ]
  }

  /** The name of the label a card is tagged with. */
  function CardLabel(c: Card): (name: string)
    ensures exists j :: 0 <= j < |TrelloLabels()| && TrelloLabels()[j].name == name
    ensures name == EveryoneLabel <==> c.role == Base
  {
    match c.role
    case Base => assert TrelloLabels()[3].name == EveryoneLabel; EveryoneLabel
    case Pm => assert TrelloLabels()[0].name == "PM"; "PM"
    case Uxr => assert TrelloLabels()[1].name == "UXR"; "UXR"
    case Ui => assert TrelloLabels()[2].name == "UI"; "UI"
  }

  /** Two cards of different roles carry different labels. */
  lemma CardLabelSeparatesRoles(a: Card, b: Card)
    ensures CardLabel(a) == CardLabel(b) <==> a.role == b.role
  {
  }

  /** The label names are pairwise distinct, so a name-keyed label map loses nothing. */
  lemma LabelNamesDistinct()
    ensures forall i, j :: 0 <= i < j < |TrelloLabels()| ==> TrelloLabels()[i].name != TrelloLabels()[j].name
  {
  }

  /** The phase list is the phase-rank table read in order. */
  lemma PhasesFollowRank()
    ensures |Phases| == 9
    ensures forall i :: 0 <= i < |Phases| ==> PhaseRank(Phases[i]) == i + 1
    ensures forall p: Phase :: Phases[PhaseRank(p) - 1] == p
  {
  }

  /** Phase names are pairwise distinct, so name-keyed lookups pick out one phase. */
  lemma PhaseNamesDistinct()
    ensures forall p: Phase, q: Phase :: PhaseName(p) == PhaseName(q) ==> p == q
  {
  }

  /** Every template sits in the group of its own role. */
  lemma BaseCardsAreBase()
    ensures forall c :: c in BaseCards ==> c.role == Base
  {
    assert forall i :: 0 <= i < |BaseCards| ==> BaseCards[i].role == Base;
  }

  lemma PmCardsArePm()
    ensures forall c :: c in PmCards ==> c.role == Pm
  {
    assert forall i :: 0 <= i < |PmCards| ==> PmCards[i].role == Pm;
  }

  lemma UxrCardsAreUxr()
    ensures forall c :: c in UxrCards ==> c.role == Uxr
  {
    assert forall i :: 0 <= i < |UxrCards| ==> UxrCards[i].role == Uxr;
  }

  lemma UiCardsAreUi()
    ensures forall c :: c in UiCards ==> c.role == Ui
  {
    assert forall i :: 0 <= i < |UiCards| ==> UiCards[i].role == Ui;
  }

  /** A card's group determines its role, so no card lies in two groups. */
  lemma GroupRoles(c: Card)
    ensures c in BaseCards ==> c.role == Base
    ensures c in PmCards ==> c.role == Pm
    ensures c in UxrCards ==> c.role == Uxr
    ensures c in UiCards ==> c.role == Ui
  {
    BaseCardsAreBase();
    PmCardsArePm();
    UxrCardsAreUxr();
    UiCardsAreUi();
  }

  /** No element occurs twice. */
  predicate NoDup<T(==)>(s: seq<T>) {
    forall i, j :: 0 <= i < j < |s| ==> s[i] != s[j]
  }

  /** `a` has a strictly smaller sort key (phase rank, then order) than `b`. */
  predicate KeyBefore(a: Card, b: Card) {
    || PhaseRank(a.phase) < PhaseRank(b.phase)
    || (PhaseRank(a.phase) == PhaseRank(b.phase) && a.order < b.order)
  }

  /** Each card has a strictly smaller sort key than the next one. */
  predicate StrictlyKeyed(s: seq<Card>) {
    forall i :: 0 < i < |s| ==> KeyBefore(s[i - 1], s[i])
  }

  /** In a strictly keyed list every earlier card has a smaller key than every later one. */
  lemma {:induction false} KeyedChain(s: seq<Card>, i: nat, j: nat)
    requires StrictlyKeyed(s) && i < j < |s|
    ensures KeyBefore(s[i], s[j])
    decreases j - i
  {
    if i + 1 < j {
      KeyedChain(s, i, j - 1);
    }
  }

  /** A strictly keyed list lists no card twice. */
  lemma StrictlyKeyedNoDup(s: seq<Card>)
    requires StrictlyKeyed(s)
    ensures NoDup(s)
  {
    forall i, j | 0 <= i < j < |s|
      ensures s[i] != s[j]
    {
      KeyedChain(s, i, j);
    }
  }

  /** Each group is written in strictly increasing key order, so it lists no card twice. */
  lemma BaseNoDup()
    ensures NoDup(BaseCards)
  {
    assert KeyBefore(BaseCards[0], BaseCards[1]);
    assert KeyBefore(BaseCards[1], BaseCards[2]);
    StrictlyKeyedNoDup(BaseCards);
  }

  lemma PmNoDup()
    ensures NoDup(PmCards)
  {
    assert KeyBefore(PmCards[0], PmCards[1]);
    assert KeyBefore(PmCards[1], PmCards[2]);
    assert KeyBefore(PmCards[2], PmCards[3]);
    assert KeyBefore(PmCards[3], PmCards[4]);
    assert KeyBefore(PmCards[4], PmCards[5]);
    assert KeyBefore(PmCards[5], PmCards[6]);
    assert KeyBefore(PmCards[6], PmCards[7]);
    assert KeyBefore(PmCards[7], PmCards[8]);
    assert KeyBefore(PmCards[8], PmCards[9]);
    assert KeyBefore(PmCards[9], PmCards[10]);
    assert KeyBefore(PmCards[10], PmCards[11]);
    assert KeyBefore(PmCards[11], PmCards[12]);
    StrictlyKeyedNoDup(PmCards);
  }

  lemma UxrNoDup()
    ensures NoDup(UxrCards)
  {
    assert KeyBefore(UxrCards[0], UxrCards[1]);
    assert KeyBefore(UxrCards[1], UxrCards[2]);
    assert KeyBefore(UxrCards[2], UxrCards[3]);
    assert KeyBefore(UxrCards[3], UxrCards[4]);
    assert KeyBefore(UxrCards[4], UxrCards[5]);
    assert KeyBefore(UxrCards[5], UxrCards[6]);
    assert KeyBefore(UxrCards[6], UxrCards[7]);
    assert KeyBefore(UxrCards[7], UxrCards[8]);
    assert KeyBefore(UxrCards[8], UxrCards[9]);
    assert KeyBefore(UxrCards[9], UxrCards[10]);
    assert KeyBefore(UxrCards[10], UxrCards[11]);
    assert KeyBefore(UxrCards[11], UxrCards[12]);
    assert KeyBefore(UxrCards[12], UxrCards[13]);
    assert KeyBefore(UxrCards[13], UxrCards[14]);
    assert KeyBefore(UxrCards[14], UxrCards[15]);
    StrictlyKeyedNoDup(UxrCards);
  }

  lemma UiNoDup()
    ensures NoDup(UiCards)
  {
    assert KeyBefore(UiCards[0], UiCards[1]);
    assert KeyBefore(UiCards[1], UiCards[2]);
    assert KeyBefore(UiCards[2], UiCards[3]);
    assert KeyBefore(UiCards[3], UiCards[4]);
    assert KeyBefore(UiCards[4], UiCards[5]);
    assert KeyBefore(UiCards[5], UiCards[6]);
    assert KeyBefore(UiCards[6], UiCards[7]);
    assert KeyBefore(UiCards[7], UiCards[8]);
    assert KeyBefore(UiCards[8], UiCards[9]);
    assert KeyBefore(UiCards[9], UiCards[10]);
    assert KeyBefore(UiCards[10], UiCards[11]);
    assert KeyBefore(UiCards[11], UiCards[12]);
    assert KeyBefore(UiCards[12], UiCards[13]);
    StrictlyKeyedNoDup(UiCards);
  }

  /** The group sizes the card counts are built from. */
  lemma CatalogSizes()
    ensures |BaseCards| == 3 && |PmCards| == 13 && |UxrCards| == 16 && |UiCards| == 14
  {
  }
}

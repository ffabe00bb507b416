/**
 * The desktop app shell (App.tsx): a navigator between the home, about and
 * project-detail screens, a mobile menu, a contact modal with copy buttons,
 * and the choice of what the main area shows.
 *
 * The state transitions are functions of an `AppState` value; the class
 * `Portfolio` holds the same state in fields and its methods are proved to
 * perform exactly those transitions.
 */
module App {
  import opened Wrappers
  import opened Types
  import opened JsString
  import opened Constants
  import opened Content
  import ProjectCard
  import MobileHomeList

  datatype CopyKind = EmailAddress | PhoneNumber

  datatype AppState = AppState(
    view: ViewState,
    selectedProjectId: Option<string>,
    isMobileMenuOpen: bool,
    isContactModalOpen: bool,
    copiedType: Option<CopyKind>)

  const Initial := AppState(Home, None, false, false, None)

  // ---------------------------------------------------------------------
  // Transitions

  /** `handleProjectClick`: open the detail view for the id, whether or not a project has that id. */
  function OnProjectClick(s: AppState, id: string): AppState {
    s.(view := ProjectDetail, selectedProjectId := Some(id))
  }

  /** `handleNavClick`: show the view, drop the selection and close the mobile menu. */
  function OnNavClick(s: AppState, v: ViewState): AppState {
    s.(view := v, selectedProjectId := None, isMobileMenuOpen := false)
  }

  function OnMenuToggle(s: AppState): AppState {
    s.(isMobileMenuOpen := !s.isMobileMenuOpen)
  }

  function OnContactOpen(s: AppState): AppState {
    s.(isContactModalOpen := true)
  }

  /** The modal's close button and its backdrop. */
  function OnContactClose(s: AppState): AppState {
    s.(isContactModalOpen := false)
  }

  /** `copyToClipboard`, its state part: the copied field shows a check mark. */
  function OnCopy(s: AppState, kind: CopyKind): AppState {
    s.(copiedType := Some(kind))
  }

  /** The timer `copyToClipboard` sets, when it fires: no field shows a check mark. */
  function OnCopyReset(s: AppState): AppState {
    s.(copiedType := None)
  }

  datatype AppEvent =
    | ProjectClicked(id: string)
    | NavClicked(target: ViewState)
    | MenuToggled
    | ContactOpened
    | ContactClosed
    | Copied(kind: CopyKind)
    | CopyTimerFired

  function Step(s: AppState, e: AppEvent): AppState {
    match e
    case ProjectClicked(id) => OnProjectClick(s, id)
    case NavClicked(v) => OnNavClick(s, v)
    case MenuToggled => OnMenuToggle(s)
    case ContactOpened => OnContactOpen(s)
    case ContactClosed => OnContactClose(s)
    case Copied(kind) => OnCopy(s, kind)
    case CopyTimerFired => OnCopyReset(s)
  }

  function Run(s: AppState, events: seq<AppEvent>): AppState
    decreases |events|
  {
    if events == [] then s else Run(Step(s, events[0]), events[1..])
  }

  /** The project the selection resolves to (`currentProject`). */
  function CurrentProject(s: AppState): Option<Project> {
    ProjectById(s.selectedProjectId)
  }

  // ---------------------------------------------------------------------
  // What the main area shows

  /** The home grid's cards as written: each gets its project and `onClick`, but neither `index` nor `onHover`. */
  function HomeCardsAsWritten(): (cards: seq<ProjectCard.CardProps>)
    ensures |cards| == |Projects|
    ensures forall i :: 0 <= i < |cards| ==>
      cards[i].project == Projects[i] && cards[i].index.None? && !cards[i].hasOnHover
  {
    seq(|Projects|, i requires 0 <= i < |Projects| => ProjectCard.CardProps(Projects[i], None, false))
  }

  /** As written, every card of the home grid is labelled "NaN", and pointing at one throws. */
  lemma HomeCardsAsWrittenMisbehave()
    ensures forall c :: c in HomeCardsAsWritten() ==>
      ProjectCard.Label(c.index) == "NaN"
      && ProjectCard.Dispatch(c, ProjectCard.MouseEntered).ThrewTypeError?
      && ProjectCard.Dispatch(c, ProjectCard.MouseLeft).ThrewTypeError?
  {
  }

  /** The corrected home grid: the cards as the mobile list passes them, each with its position and a hover handler that does nothing. */
  function HomeCards(): (cards: seq<ProjectCard.CardProps>)
    ensures |cards| == |Projects|
    ensures forall i :: 0 <= i < |cards| ==>
      cards[i].project == Projects[i] && cards[i].index == Some(i) && cards[i].hasOnHover
  {
    MobileHomeList.ListCards()
  }

  /** So passed, the cards read "01", "02", "03" and a hover only reports the card. */
  lemma HomeCardsBehave()
    ensures |HomeCards()| == 3
    ensures ProjectCard.Label(HomeCards()[0].index) == "01"
    ensures ProjectCard.Label(HomeCards()[1].index) == "02"
    ensures ProjectCard.Label(HomeCards()[2].index) == "03"
    ensures forall c, e :: c in HomeCards() ==>
      ProjectCard.Dispatch(c, e) == ProjectCard.Reacted(ProjectCard.React(c.project, e))
  {
    ProjectsHaveUniqueIds();
    ProjectCard.FormattedIndexShape(0);
    ProjectCard.FormattedIndexShape(1);
    ProjectCard.FormattedIndexShape(2);
  }

  datatype Screen =
    | DetailScreen(project: Project)
    | NotFound
    | AboutScreen(paragraphs: seq<string>, skills: seq<SkillGroup>)
    | HomeScreen(countLabel: string, cards: seq<ProjectCard.CardProps>)

  /**
   * `renderContent`. The home screen's counter is `0` followed by the number
   * of projects, and its cards are passed as App.tsx passes them.
   */
  function RenderContent(s: AppState): (screen: Screen)
    ensures screen.DetailScreen? <==> s.view == ProjectDetail && CurrentProject(s).Some?
    ensures screen.NotFound? <==> s.view == ProjectDetail && CurrentProject(s).None?
    ensures screen.AboutScreen? <==> s.view == About
    ensures screen.HomeScreen? <==> s.view == Home
    ensures screen.DetailScreen? ==>
      screen.project in Projects && Some(screen.project.id) == s.selectedProjectId
    ensures screen.AboutScreen? ==> screen.paragraphs == Paragraphs(AboutText) && screen.skills == Skills
    ensures screen.HomeScreen? ==> screen == HomeScreen("03", HomeCardsAsWritten())
  {
    match s.view
    case ProjectDetail =>
      if CurrentProject(s).Some? then DetailScreen(CurrentProject(s).value) else NotFound
    case About => AboutScreen(Paragraphs(AboutText), Skills)
    case Home =>
      ProjectsHaveUniqueIds();
      HomeScreen("0" + NatToString(|Projects|), HomeCardsAsWritten())
  }

  /** The home screen lists every project in order, counts them as "03", and labels every card "NaN". */
  lemma HomeScreenListsProjects(s: AppState)
    requires s.view == Home
    ensures RenderContent(s) == HomeScreen("03", HomeCardsAsWritten())
    ensures |RenderContent(s).cards| == |Projects|
    ensures forall i :: 0 <= i < |Projects| ==>
      RenderContent(s).cards[i].project == Projects[i]
      && ProjectCard.Label(RenderContent(s).cards[i].index) == "NaN"
  {
    HomeCardsAsWrittenMisbehave();
  }

  /** The about screen shows the three paragraphs of the about text and the four skill groups. */
  lemma AboutScreenContent(s: AppState)
    requires s.view == About
    ensures RenderContent(s) == AboutScreen([AboutLine1, AboutLine2, AboutLine3], Skills)
    ensures |RenderContent(s).skills| == 4
  {
    AboutTextHasThreeParagraphs();
    SkillsWellFormed();
  }

  // ---------------------------------------------------------------------
  // Navigation highlights and copy marks

  /** JavaScript truthiness of a nullable string: null and "" are falsy. */
  predicate Truthy(x: Option<string>) {
    x.Some? && x.value != ""
  }

  /** "Work" is highlighted on the home view with no (truthy) selection. */
  predicate WorkHighlighted(s: AppState) {
    s.view == Home && !Truthy(s.selectedProjectId)
  }

  predicate AboutHighlighted(s: AppState) {
    s.view == About
  }

  /** The check mark replaces a field's copy icon while that field is the one copied. */
  predicate ShowsCheckMark(s: AppState, kind: CopyKind) {
    s.copiedType == Some(kind)
  }

  /** The two highlights are never shown together, nor are the two check marks. */
  lemma HighlightsExclusive(s: AppState)
    ensures !(WorkHighlighted(s) && AboutHighlighted(s))
    ensures !(ShowsCheckMark(s, EmailAddress) && ShowsCheckMark(s, PhoneNumber))
  {
  }

  /** What the open contact modal shows: the two links and, per field, whether its check mark replaces its copy icon. */
  datatype ContactCard = ContactCard(mailto: string, tel: string, emailChecked: bool, phoneChecked: bool)

  /** `renderContactModal`: nothing while the modal is closed. */
  function ContactModalFor(s: AppState): (m: Option<ContactCard>)
    ensures m.Some? <==> s.isContactModalOpen
    ensures m.Some? ==>
      m.value.mailto == "mailto:" + ContactEmail && m.value.tel == "tel:15551234567"
      && (m.value.emailChecked <==> ShowsCheckMark(s, EmailAddress))
      && (m.value.phoneChecked <==> ShowsCheckMark(s, PhoneNumber))
      && !(m.value.emailChecked && m.value.phoneChecked)
  {
    if !s.isContactModalOpen then None
    else
      TelLinkDigits();
      Some(ContactCard("mailto:" + ContactEmail, TelHref(ContactPhone),
                       s.copiedType == Some(EmailAddress), s.copiedType == Some(PhoneNumber)))
  }

  // ---------------------------------------------------------------------
  // Properties of the transitions

  /** A selection is present only on the detail view. */
  predicate Consistent(s: AppState) {
    s.selectedProjectId.Some? ==> s.view == ProjectDetail
  }

  /** From the initial state, every sequence of events keeps the selection consistent with the view. */
  lemma {:induction false} RunKeepsConsistent(s: AppState, events: seq<AppEvent>)
    requires Consistent(s)
    ensures Consistent(Run(s, events))
    decreases |events|
  {
    if events != [] {
      RunKeepsConsistent(Step(s, events[0]), events[1..]);
    }
  }

  /** In every reachable state "Work" is highlighted exactly on the home view. */
  lemma ReachableWorkHighlight(events: seq<AppEvent>)
    ensures var s := Run(Initial, events);
      WorkHighlighted(s) <==> s.view == Home
  {
    RunKeepsConsistent(Initial, events);
  }

  /**
   * A project click needs no known id: it always moves to the detail view
   * with that selection, and an id no project has renders "not found".
   */
  lemma ProjectClickIsUnchecked(s: AppState, id: string)
    ensures OnProjectClick(s, id).view == ProjectDetail
    ensures OnProjectClick(s, id).selectedProjectId == Some(id)
    ensures (forall i :: 0 <= i < |Projects| ==> Projects[i].id != id) ==>
      RenderContent(OnProjectClick(s, id)) == NotFound
    ensures forall k :: 0 <= k < |Projects| && Projects[k].id == id ==>
      RenderContent(OnProjectClick(s, id)) == DetailScreen(Projects[k])
  {
    ProjectsHaveUniqueIds();
    forall k | 0 <= k < |Projects| && Projects[k].id == id
      ensures RenderContent(OnProjectClick(s, id)) == DetailScreen(Projects[k])
    {
      FindListedProject(Projects, k);
    }
  }

  /**
   * Clicking a home card calls `onClick` with its project's id, and the grid
   * wires that call to `handleProjectClick`: the detail view then shows that
   * project.
   */
  lemma HomeCardClickOpensProject(s: AppState, k: nat)
    requires k < |HomeCardsAsWritten()|
    ensures var c := HomeCardsAsWritten()[k];
      ProjectCard.Dispatch(c, ProjectCard.Clicked)
        == ProjectCard.Reacted(ProjectCard.Reaction(false, [ProjectCard.Click(c.project.id)]))
    ensures var c := HomeCardsAsWritten()[k];
      RenderContent(OnProjectClick(s, c.project.id)) == DetailScreen(c.project)
  {
    ProjectClickIsUnchecked(s, Projects[k].id);
  }

  /** A nav click shows its view with no selection and the menu closed, and leaves the modal and the copy mark alone. */
  lemma NavClickResult(s: AppState, v: ViewState)
    ensures var r := OnNavClick(s, v);
      r.view == v && r.selectedProjectId.None? && !r.isMobileMenuOpen
      && r.isContactModalOpen == s.isContactModalOpen && r.copiedType == s.copiedType
  {
  }

  /** Clicking the same nav item twice is the same as clicking it once. */
  lemma NavClickIdempotent(s: AppState, v: ViewState)
    ensures OnNavClick(OnNavClick(s, v), v) == OnNavClick(s, v)
  {
  }

  /** The detail view's back action is a click on Home: it lands on the home screen with "Work" highlighted. */
  lemma BackLandsHome(s: AppState)
    ensures var r := OnNavClick(s, Home);
      r.view == Home && r.selectedProjectId.None?
      && RenderContent(r) == HomeScreen("03", HomeCardsAsWritten()) && WorkHighlighted(r)
  {
    HomeScreenListsProjects(OnNavClick(s, Home));
  }

  /** Toggling the mobile menu twice restores it. */
  lemma MenuToggleTwice(s: AppState)
    ensures OnMenuToggle(OnMenuToggle(s)) == s
  {
  }

  // ---------------------------------------------------------------------
  // The component's state, updated in place

  class Portfolio {
    var view: ViewState
    var selectedProjectId: Option<string>
    var isMobileMenuOpen: bool
    var isContactModalOpen: bool
    var copiedType: Option<CopyKind>

    function State(): AppState
      reads this
    {
      AppState(view, selectedProjectId, isMobileMenuOpen, isContactModalOpen, copiedType)
    }

    constructor ()
      ensures State() == Initial
    {
      view, selectedProjectId := Home, None;
      isMobileMenuOpen, isContactModalOpen, copiedType := false, false, None;
    }

    method HandleProjectClick(id: string)
      modifies this
      ensures State() == OnProjectClick(old(State()), id)
      ensures view == ProjectDetail && selectedProjectId == Some(id)
      ensures isMobileMenuOpen == old(isMobileMenuOpen) && isContactModalOpen == old(isContactModalOpen)
      ensures copiedType == old(copiedType)
    {
      selectedProjectId := Some(id);
      view := ProjectDetail;
    }

    method HandleNavClick(newView: ViewState)
      modifies this
      ensures State() == OnNavClick(old(State()), newView)
      ensures view == newView && selectedProjectId == None && !isMobileMenuOpen
      ensures isContactModalOpen == old(isContactModalOpen) && copiedType == old(copiedType)
    {
      view := newView;
      selectedProjectId := None;
      isMobileMenuOpen := false;
    }

    /** The detail view's `onBack`. */
    method Back()
      modifies this
      ensures State() == OnNavClick(old(State()), Home)
      ensures view == Home && selectedProjectId == None && !isMobileMenuOpen
      ensures isContactModalOpen == old(isContactModalOpen) && copiedType == old(copiedType)
    {
      HandleNavClick(Home);
    }

    method ToggleMobileMenu()
      modifies this
      ensures State() == OnMenuToggle(old(State()))
      ensures isMobileMenuOpen == !old(isMobileMenuOpen)
      ensures view == old(view) && selectedProjectId == old(selectedProjectId)
      ensures isContactModalOpen == old(isContactModalOpen) && copiedType == old(copiedType)
    {
      isMobileMenuOpen := !isMobileMenuOpen;
    }

    method OpenContactModal()
      modifies this
      ensures State() == OnContactOpen(old(State()))
      ensures isContactModalOpen
      ensures view == old(view) && selectedProjectId == old(selectedProjectId)
      ensures isMobileMenuOpen == old(isMobileMenuOpen) && copiedType == old(copiedType)
    {
      isContactModalOpen := true;
    }

    method CloseContactModal()
      modifies this
      ensures State() == OnContactClose(old(State()))
      ensures !isContactModalOpen
      ensures view == old(view) && selectedProjectId == old(selectedProjectId)
      ensures isMobileMenuOpen == old(isMobileMenuOpen) && copiedType == old(copiedType)
    {
      isContactModalOpen := false;
    }

    method CopyToClipboard(kind: CopyKind)
      modifies this
      ensures State() == OnCopy(old(State()), kind)
      ensures copiedType == Some(kind)
      ensures view == old(view) && selectedProjectId == old(selectedProjectId)
      ensures isMobileMenuOpen == old(isMobileMenuOpen) && isContactModalOpen == old(isContactModalOpen)
    {
      copiedType := Some(kind);
    }

    /** The copy timer firing. */
    method ResetCopied()
      modifies this
      ensures State() == OnCopyReset(old(State()))
      ensures copiedType == None
      ensures view == old(view) && selectedProjectId == old(selectedProjectId)
      ensures isMobileMenuOpen == old(isMobileMenuOpen) && isContactModalOpen == old(isContactModalOpen)
    {
      copiedType := None;
    }
  }
}

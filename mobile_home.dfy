/**
 * The mobile home screen (components/MobileHome.tsx): a horizontally
 * swipeable top area with a light pane and a dark pane, above the project
 * list. Its state is the selected project, which the dark pane shows, and a
 * flag recording that the user has swiped, which hides the swipe hint.
 *
 * The scroll container is reached through a ref that is empty before the
 * element is mounted; it is passed to each handler as an `Option` holding
 * the container's horizontal scroll offset in whole pixels.
 */
module MobileHome {
  import opened Wrappers
  import opened Types
  import opened Constants

  /** The mounted scroll container, as far as the handlers read it. */
  datatype Container = Container(scrollLeft: int)

  datatype HomeState = HomeState(selectedProjectId: Option<string>, hasSwiped: bool)

  const Initial := HomeState(None, false)

  // ---------------------------------------------------------------------
  // Handlers, as functions of the state

  /** `handleScroll`: a scroll that has moved more than 50 pixels right marks the swipe; nothing else changes. */
  function OnScroll(s: HomeState, ref: Option<Container>): (r: HomeState)
    ensures r.selectedProjectId == s.selectedProjectId
    ensures r.hasSwiped <==> s.hasSwiped || (ref.Some? && ref.value.scrollLeft > 50)
  {
    if ref.Some? && ref.value.scrollLeft > 50 then s.(hasSwiped := true) else s
  }

  /** `scrollToDarkPane`: with the container mounted it scrolls to the dark pane and marks the swipe. */
  function OnScrollToDarkPane(s: HomeState, ref: Option<Container>): (r: HomeState)
    ensures r.selectedProjectId == s.selectedProjectId
    ensures r.hasSwiped <==> s.hasSwiped || ref.Some?
  {
    if ref.Some? then s.(hasSwiped := true) else s
  }

  /** `handleCardClick`: select the card's project, then scroll to the dark pane. */
  function OnCardClick(s: HomeState, id: string, ref: Option<Container>): (r: HomeState)
    ensures r.selectedProjectId == Some(id)
    ensures r.hasSwiped <==> s.hasSwiped || ref.Some?
  {
    OnScrollToDarkPane(s.(selectedProjectId := Some(id)), ref)
  }

  datatype HomeEvent =
    | Scrolled(scrolledRef: Option<Container>)
    | PaneButtonPressed(buttonRef: Option<Container>)
    | CardClicked(id: string, cardRef: Option<Container>)

  function Step(s: HomeState, e: HomeEvent): HomeState {
    match e
    case Scrolled(ref) => OnScroll(s, ref)
    case PaneButtonPressed(ref) => OnScrollToDarkPane(s, ref)
    case CardClicked(id, ref) => OnCardClick(s, id, ref)
  }

  /** The state after the events, in order. */
  function Run(s: HomeState, events: seq<HomeEvent>): HomeState
    decreases |events|
  {
    if events == [] then s else Run(Step(s, events[0]), events[1..])
  }

  /** Whether an event marks the swipe. */
  predicate Swipes(e: HomeEvent) {
    match e
    case Scrolled(ref) => ref.Some? && ref.value.scrollLeft > 50
    case PaneButtonPressed(ref) => ref.Some?
    case CardClicked(_, ref) => ref.Some?
  }

  /**
   * `hasSwiped` is never reset: after any events it holds exactly when it
   * held before or one of the events marked the swipe.
   */
  lemma {:induction false} RunHasSwiped(s: HomeState, events: seq<HomeEvent>)
    ensures Run(s, events).hasSwiped <==>
      s.hasSwiped || exists i :: 0 <= i < |events| && Swipes(events[i])
    decreases |events|
  {
    if events != [] {
      var rest := events[1..];
      RunHasSwiped(Step(s, events[0]), rest);
      if exists i :: 0 <= i < |events| && Swipes(events[i]) {
        var i :| 0 <= i < |events| && Swipes(events[i]);
        if i > 0 { assert Swipes(rest[i - 1]); }
      }
      if exists i :: 0 <= i < |rest| && Swipes(rest[i]) {
        var i :| 0 <= i < |rest| && Swipes(rest[i]);
        assert Swipes(events[i + 1]);
      }
    }
  }

  /** Without a card click the selection stays as it was. */
  lemma {:induction false} RunSelectionWithoutClick(s: HomeState, events: seq<HomeEvent>)
    requires forall i :: 0 <= i < |events| ==> !events[i].CardClicked?
    ensures Run(s, events).selectedProjectId == s.selectedProjectId
    decreases |events|
  {
    if events != [] {
      assert !events[0].CardClicked?;
      var rest := events[1..];
      assert forall i :: 0 <= i < |rest| ==> rest[i] == events[i + 1];
      RunSelectionWithoutClick(Step(s, events[0]), rest);
    }
  }

  /** After any events the selection is the id of the last card clicked. */
  lemma {:induction false} RunSelectionLastClick(s: HomeState, events: seq<HomeEvent>, k: nat)
    requires k < |events| && events[k].CardClicked?
    requires forall i :: k < i < |events| ==> !events[i].CardClicked?
    ensures Run(s, events).selectedProjectId == Some(events[k].id)
    decreases |events|
  {
    var rest := events[1..];
    assert forall i :: 0 <= i < |rest| ==> rest[i] == events[i + 1];
    if k == 0 {
      RunSelectionWithoutClick(Step(s, events[0]), rest);
    } else {
      RunSelectionLastClick(Step(s, events[0]), rest, k - 1);
    }
  }

  /** A selection, once made, is never cleared. */
  lemma {:induction false} RunKeepsSelection(s: HomeState, events: seq<HomeEvent>)
    requires s.selectedProjectId.Some?
    ensures Run(s, events).selectedProjectId.Some?
    decreases |events|
  {
    if events != [] {
      RunKeepsSelection(Step(s, events[0]), events[1..]);
    }
  }

  // ---------------------------------------------------------------------
  // What the screen shows

  /** The swipe hint fades out once the user has swiped. */
  predicate SwipeHintVisible(s: HomeState) {
    !s.hasSwiped
  }

  /** Once hidden, the swipe hint stays hidden; from the start it is hidden exactly when some event marked the swipe. */
  lemma SwipeHintStaysHidden(s: HomeState, events: seq<HomeEvent>)
    ensures !SwipeHintVisible(s) ==> !SwipeHintVisible(Run(s, events))
    ensures !SwipeHintVisible(Run(Initial, events)) <==> exists i :: 0 <= i < |events| && Swipes(events[i])
  {
    RunHasSwiped(s, events);
    RunHasSwiped(Initial, events);
  }

  /** `selectedProject.tags.slice(0, 2)`: the first two tags, or all of them when there are fewer. */
  function FirstTwoTags(tags: seq<string>): (r: seq<string>)
    ensures |r| == (if |tags| < 2 then |tags| else 2)
    ensures r == tags[..|r|]
  {
    if |tags| < 2 then tags else tags[..2]
  }

  /** The content of the dark pane. */
  datatype DarkPane =
    | ProjectPane(heroUrl: string, title: string, tags: seq<string>, tagline: string)
    | SkillsPane(groups: seq<SkillGroup>)

  /** The selected project's hero, tags, title and tagline when the selection resolves, the skills list otherwise. */
  function DarkPaneFor(s: HomeState): (pane: DarkPane)
    ensures pane.ProjectPane? <==> ProjectById(s.selectedProjectId).Some?
    ensures pane.SkillsPane? ==> pane.groups == Skills
    ensures pane.ProjectPane? ==>
      var p := ProjectById(s.selectedProjectId).value;
      p.id == s.selectedProjectId.value
      && pane == ProjectPane(p.heroUrl, p.title, FirstTwoTags(p.tags), p.tagline)
  {
    match ProjectById(s.selectedProjectId)
    case Some(p) => ProjectPane(p.heroUrl, p.title, FirstTwoTags(p.tags), p.tagline)
    case None => SkillsPane(Skills)
  }

  /** A clicked card's project always resolves, and its dark pane then shows exactly its first two tags. */
  lemma ClickedCardShowsTwoTags(s: HomeState, k: nat, ref: Option<Container>)
    requires k < |Projects|
    ensures var pane := DarkPaneFor(OnCardClick(s, Projects[k].id, ref));
      pane.ProjectPane? && pane.title == Projects[k].title
      && |pane.tags| == 2 && pane.tags == Projects[k].tags[..2]
  {
    ProjectsHaveUniqueIds();
    ProjectsHaveTwoTags();
    FindListedProject(Projects, k);
  }

  /** `selectedProjectId === project.id`. */
  predicate IsActive(s: HomeState, id: string) {
    s.selectedProjectId == Some(id)
  }

  /** With unique ids, at most one card of the list is active. */
  lemma AtMostOneActive(s: HomeState, ps: seq<Project>)
    requires UniqueIds(ps)
    ensures forall i, j :: 0 <= i < |ps| && 0 <= j < |ps| && IsActive(s, ps[i].id) && IsActive(s, ps[j].id) ==> i == j
  {
  }

  // ---------------------------------------------------------------------
  // The component's state, updated in place

  class MobileHomeScreen {
    var selectedProjectId: Option<string>
    var hasSwiped: bool

    function State(): HomeState
      reads this
    {
      HomeState(selectedProjectId, hasSwiped)
    }

    constructor ()
      ensures State() == Initial
    {
      selectedProjectId := None;
      hasSwiped := false;
    }

    method HandleScroll(ref: Option<Container>)
      modifies this
      ensures State() == OnScroll(old(State()), ref)
      ensures selectedProjectId == old(selectedProjectId)
      ensures hasSwiped == (old(hasSwiped) || (ref.Some? && ref.value.scrollLeft > 50))
    {
      if ref.Some? && ref.value.scrollLeft > 50 {
        hasSwiped := true;
      }
    }

    method ScrollToDarkPane(ref: Option<Container>)
      modifies this
      ensures State() == OnScrollToDarkPane(old(State()), ref)
      ensures selectedProjectId == old(selectedProjectId)
      ensures hasSwiped == (old(hasSwiped) || ref.Some?)
    {
      if ref.Some? {
        hasSwiped := true;
      }
    }

    method HandleCardClick(id: string, ref: Option<Container>)
      modifies this
      ensures State() == OnCardClick(old(State()), id, ref)
      ensures selectedProjectId == Some(id)
      ensures hasSwiped == (old(hasSwiped) || ref.Some?)
    {
      selectedProjectId := Some(id);
      ScrollToDarkPane(ref);
    }
  }
}

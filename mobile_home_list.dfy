/**
 * The project list of the mobile home screen (components/MobileHome.tsx):
 * the cards it renders and what clicking one of them does to the screen.
 */
module MobileHomeList {
  import opened Wrappers
  import opened Constants
  import MobileHome
  import ProjectCard

  /** The list's cards as MobileHome.tsx passes them: each gets its project, its position and a hover handler. */
  function ListCards(): (cards: seq<ProjectCard.CardProps>)
    ensures |cards| == |Projects|
    ensures forall i :: 0 <= i < |cards| ==>
      cards[i].project == Projects[i] && cards[i].index == Some(i) && cards[i].hasOnHover
  {
    seq(|Projects|, i requires 0 <= i < |Projects| => ProjectCard.CardProps(Projects[i], Some(i), true))
  }

  /**
   * Clicking a card of the list calls `onClick` with its project's id, and
   * the list wires that call to `handleCardClick`: the card becomes the
   * active one and the dark pane shows its project.
   */
  lemma ListCardClickShowsProject(s: MobileHome.HomeState, k: nat, ref: Option<MobileHome.Container>)
    requires k < |ListCards()|
    ensures var c := ListCards()[k];
      ProjectCard.Dispatch(c, ProjectCard.Clicked)
        == ProjectCard.Reacted(ProjectCard.Reaction(false, [ProjectCard.Click(c.project.id)]))
    ensures var c := ListCards()[k];
      var r := MobileHome.OnCardClick(s, c.project.id, ref);
      MobileHome.IsActive(r, c.project.id)
      && MobileHome.DarkPaneFor(r) == MobileHome.ProjectPane(c.project.heroUrl, c.project.title, MobileHome.FirstTwoTags(c.project.tags), c.project.tagline)
  {
    ProjectsHaveUniqueIds();
    FindListedProject(Projects, k);
  }
}

/** The records and enumerations of types.ts, and the shape of the skill groups of constants.ts. */
module Types {
  import opened Wrappers

  /** The three screens of the desktop app. */
  datatype ViewState = Home | ProjectDetail | About

  /** The two panes of a case study; declared by the app, not used by the modelled components. */
  datatype DetailMode = Video | Written

  /** A portfolio entry. The optional fields of the record are `Option`s. */
  datatype Project = Project(
    id: string,
    title: string,
    tagline: string,
    tags: seq<string>,
    thumbnailUrl: string,
    heroUrl: string,
    videoUrl: Option<string>,
    liveUrl: Option<string>,
    description: string,
    role: string,
    duration: string,
    challenge: string,
    solution: string,
    interactionNotes: string,
    outcome: string,
    accentColor: Option<string>)

  /** One column of the skills list: the inferred type of the `SKILLS` entries of constants.ts, which types.ts does not declare. */
  datatype SkillGroup = SkillGroup(category: string, items: seq<string>)
}

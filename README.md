# Portfolio site: a verified model of its view logic

The site is a single-page React portfolio with three parts:

- a desktop shell that switches between a home grid, an about page and a per-project case study, with a mobile menu and a contact modal;
- a mobile home screen with a swipeable top area;
- a split-pane case-study view with a custom video player.

This project models the state those components keep and the strings they compute, in Dafny. It proves what the components guarantee about them.

Modules: one per core source file (`Types` is types.ts's) except MobileHome.tsx, which has two (`MobileHome` and `MobileHomeList`), plus three shared ones, `JsString`, `Wrappers` and `Content`:

- `JsString`: the JavaScript string built-ins the components call, over `seq<char>`. These are `toString()` on non-negative integers, `padStart`, `split` on one character, `trim` (with the ECMAScript whitespace set) and `replace(/\D/g, '')`.
- `Wrappers`, `Types`: `Option`. The `Project`, `ViewState` and `DetailMode` records of types.ts, and `SkillGroup`, the shape of the `SKILLS` entries of constants.ts, which declares no type for them.
- `Constants`: the three project records, the four skill groups and the about text of constants.ts. Also the `find`-by-id lookup and the facts about the table that the lookups rely on.
- `Content`: the contact details and the text the desktop shell derives from constants. This covers the non-blank paragraph split of the about text and the digits-only `tel:` link.
- `ProjectCard`: the card's position label, its hover colour and its event dispatch.
- `MobileHomeList`: the cards of the mobile home's project list, and what a click on one does to that screen. It is kept apart from `MobileHome`, whose state it drives.
- `App`, `MobileHome`, `MobileProjectDetail`: each component's state is modelled in three layers:
  - a value (`AppState`, `HomeState`, `PlayerState`) with one transition function per handler;
  - a `Run` over a sequence of events, with lemmas about every reachable state;
  - a class holding the same fields, whose methods update them in place. Each method is proved to perform exactly its transition.

What a handler reads from a ref is passed to it as an `Option`, which is `None` before the element mounts. That covers the scroll container, the video element and the written pane. Timers become separate events: the 2-second reset of the copy mark and the 10 ms delayed play. JavaScript truthiness is modelled where the code relies on it:

- `!selectedProjectId` is true for `null` and for `""`;
- `accentColor || …` falls back on a missing or empty colour;
- `project.videoUrl ? … : …` treats an empty URL as no video.

Opening a project does not check that the id exists: App.tsx:21-25 moves to the detail view for any id, and an unknown id renders "Project not found".

## Model

| member | source | states |
|---|---|---|
| JsString.NatToString | components/ProjectCard.tsx:12 | `toString()` of a non-negative integer is a non-empty digit string with no leading zero, and it is "0" exactly for zero |
| JsString.ParseNatToString | components/ProjectCard.tsx:12 | reading a numeral back gives the number it was printed from |
| JsString.NatToStringLength | components/MobileProjectDetail.tsx:38-40 | a numeral has one digit exactly below 10, two exactly from 10 to 99, three or more exactly from 100 on |
| JsString.PadStart | components/ProjectCard.tsx:12 | `padStart` yields the wider of the input and the width, keeps the input as its suffix, and fills the front with the pad character; it never truncates |
| JsString.ParseZeroPadded | components/MobileProjectDetail.tsx:40 | zero-padding a digit string keeps it a digit string with the same value |
| JsString.ParseLeadingZero | components/MobileProjectDetail.tsx:40 | one leading '0' does not change a numeral's value |
| JsString.DigitsOnly | App.tsx:85 | `replace(/\D/g, '')` yields only digits and is never longer than its input |
| JsString.DigitsOnlyAppend | App.tsx:85 | removing the non-digits of a concatenation removes them from each part, so the digits keep their order |
| JsString.DigitsOnlyOfDigits | App.tsx:85 | a string of digits is left unchanged |
| JsString.DigitsOnlyIdempotent | App.tsx:85 | applying the filter twice is applying it once |
| JsString.DigitsOnlyKeepsDigits | App.tsx:85 | every digit occurs in the result exactly as often as in the input |
| JsString.Split | App.tsx:125 | `split` on a character yields at least one piece and no piece contains the separator |
| JsString.JoinSplit | App.tsx:125 | joining the pieces with the separator gives back the original string |
| JsString.SplitNoSeparator | App.tsx:125 | a string without the separator splits into itself alone |
| JsString.SplitAround | App.tsx:125 | splitting around one separator is splitting each side, concatenated |
| JsString.TrimStart | App.tsx:126 | the result is a suffix of the input, starts with non-whitespace, and everything dropped is whitespace |
| JsString.TrimEnd | App.tsx:126 | the result is a prefix of the input, ends with non-whitespace, and everything dropped is whitespace |
| JsString.Trim | App.tsx:126 | `trim()` is `TrimEnd` after `TrimStart`; what this keeps and drops is stated by `JsString.TrimShape` |
| JsString.TrimShape | App.tsx:126 | `trim()` keeps one contiguous segment of the input; everything before and after it is whitespace, and the segment, when not empty, starts and ends with non-whitespace |
| JsString.TrimEmptyIff | App.tsx:126 | `trim()` gives the empty string exactly when every character is whitespace |
| Constants.FindProject | App.tsx:40 | `find` by id gives nothing exactly when no entry has the selected id, else the first entry that has it |
| Constants.FindListedProject | App.tsx:40 | with distinct ids, looking up a listed project's id finds that very project |
| Constants.ProjectById | components/MobileHome.tsx:38 | the selected project exists exactly when the selection is a listed id, and it is the `PROJECTS` entry with that id |
| Constants.ProjectsHaveUniqueIds | constants.ts:3-58 | there are exactly three projects, with the distinct ids "smriti", "flavor-filter" and "portfolio-system" |
| Constants.ProjectsHaveTwoTags | constants.ts:8 | every project has at least two tags |
| Constants.ProjectsDefineOptionalFields | constants.ts:11-12 | every project defines a video, a live prototype and a non-empty accent colour |
| Constants.SkillsWellFormed | constants.ts:60-77 | four skill groups with distinct categories, each with at least one item |
| Constants.AboutLine1IsSingleLine | constants.ts:80 | the first paragraph holds no line break and starts with text |
| Constants.AboutLine2IsSingleLine | constants.ts:82 | the second paragraph holds no line break and starts with text |
| Constants.AboutLine3IsSingleLine | constants.ts:84 | the third paragraph holds no line break and starts with text |
| Content.Blank | App.tsx:126 | a line is blank when `trim()` empties it, so `paragraph.trim() && …` renders nothing for it |
| Content.NonBlankLines | App.tsx:125-127 | the lines that are not blank, in their order; `NonBlankLinesKept`, `NonBlankLinesComplete` and `NonBlankLinesAppend` state what it keeps |
| Content.Paragraphs | App.tsx:125-127 | the about text split on line breaks, blank lines dropped; `AboutTextHasThreeParagraphs` states its value for the about text |
| Content.NonBlankLinesKept | App.tsx:125-127 | only lines of the input are rendered, and none of them is blank |
| Content.NonBlankLinesComplete | App.tsx:125-127 | every non-blank line of the input is rendered |
| Content.NonBlankLinesAppend | App.tsx:125-127 | the filter distributes over concatenation, so rendered paragraphs keep their order |
| Content.SplitAboutLayout | constants.ts:79-85 | the about text's layout splits into seven lines, the three paragraphs between empty lines |
| Content.StartsWithTextNotBlank | App.tsx:126 | a line that starts with a non-whitespace character survives `trim()` |
| Content.NonBlankLinesCons | App.tsx:126 | a line in front of others is rendered exactly when it is not blank |
| Content.KeepsLinesBetweenBlanks | App.tsx:125-127 | of three non-blank lines between empty ones exactly the three are rendered |
| Content.AboutLayoutParagraphs | App.tsx:125-127 | three single-line paragraphs laid out as the about text are rendered as exactly those three |
| Content.AboutTextHasThreeParagraphs | App.tsx:125-127 | the about page renders exactly the three paragraphs of `ABOUT_TEXT`, in order |
| Content.TelHref | App.tsx:85 | the phone link is `tel:` followed by digits only |
| Content.DigitsOnlyOfParts | App.tsx:85 | the phone's digits are the digits of its four groups, in order |
| Content.TelLinkDigits | App.tsx:85 | the contact phone's link is `tel:15551234567` |
| App.OnProjectClick | App.tsx:21-25 | the detail view with the clicked id selected, whatever the id; `ProjectClickIsUnchecked` states what it renders |
| App.OnNavClick | App.tsx:27-32 | the chosen view with no selection and the mobile menu closed; `NavClickResult` and `NavClickIdempotent` state its properties |
| App.OnMenuToggle | App.tsx:241 | the mobile menu flag flipped; `MenuToggleTwice` states that two toggles cancel |
| App.OnContactOpen | App.tsx:165 | the contact modal open; `ContactModalFor` states what it renders |
| App.OnContactClose | App.tsx:47-57 | the contact modal closed |
| App.OnCopy | App.tsx:34-36 | the copied field recorded; `HighlightsExclusive` states that one check mark shows at a time |
| App.OnCopyReset | App.tsx:37 | no field recorded as copied |
| App.Step | App.tsx:21-37 | one handler applied to the state, per event |
| App.Run | App.tsx:21-37 | the handlers applied in order; `RunKeepsConsistent` and `ReachableWorkHighlight` state what every reachable state satisfies |
| App.CurrentProject | App.tsx:40 | the project whose id is selected, if any; `Constants.FindProject` states the lookup |
| App.Truthy | App.tsx:219 | JavaScript truthiness of a nullable string: false for `null` and `""` |
| App.WorkHighlighted | App.tsx:219 | "Work" is highlighted on the home view when the selection is falsy |
| App.AboutHighlighted | App.tsx:225 | "About" is highlighted on the about view |
| App.ShowsCheckMark | App.tsx:77 | a field shows its check mark while it is the one copied; the phone field at App.tsx:93 likewise |
| App.RenderContent | App.tsx:102-194 | the detail view with a resolving selection renders that project; with any other selection it renders "not found"; the about view renders the paragraphs of the about text and the skill groups; the home view renders the counter "03" and the cards exactly as App.tsx passes them |
| App.HomeCardsAsWritten | App.tsx:182-188 | the home grid gives each card its project and no `index` and no `onHover` |
| App.HomeCardsAsWrittenMisbehave | App.tsx:182-188 | so every home card is labelled "NaN" and pointing at or leaving one throws a `TypeError` |
| App.HomeCards | components/MobileHome.tsx:133 | corrected home grid: the mobile list's cards, each with its position and a hover handler |
| App.HomeCardsBehave | App.tsx:182-188 | the corrected cards read "01", "02", "03" and no event makes one throw |
| App.HomeScreenListsProjects | App.tsx:151-192 | the home view counts the projects as "03", lists every project in order, and labels every card "NaN" |
| App.AboutScreenContent | App.tsx:115-149 | the about view shows exactly the three paragraphs of the about text, in order, and the four skill groups |
| App.HighlightsExclusive | App.tsx:219-225 | "Work" and "About" are never highlighted together, and the two copy check marks are never shown together |
| App.ContactModalFor | App.tsx:42-100 | the modal renders exactly while it is open; its links are `mailto:` plus the address and `tel:15551234567`; a field shows its check mark exactly when it was the one copied |
| App.RunKeepsConsistent | App.tsx:21-32 | along any events a selection exists only on the detail view |
| App.ReachableWorkHighlight | App.tsx:219 | in every reachable state "Work" is highlighted exactly on the home view |
| App.ProjectClickIsUnchecked | App.tsx:21-25 | a project click shows the detail view with that id for any id; an id no project has renders "not found", a listed one renders that project |
| App.HomeCardClickOpensProject | App.tsx:183-187 | clicking a home card calls `onClick` with its project's id, which the grid hands to `handleProjectClick`, so the detail view then shows that project |
| App.NavClickResult | App.tsx:27-32 | a nav click shows its view with no selection and the menu closed, and leaves the modal and the copy mark unchanged |
| App.NavClickIdempotent | App.tsx:27-32 | clicking the same nav item twice is clicking it once |
| App.BackLandsHome | App.tsx:109 | the detail view's back action lands on the home view, with no selection, the home grid as App.tsx renders it, and "Work" highlighted |
| App.MenuToggleTwice | App.tsx:241 | toggling the mobile menu twice restores it |
| App.Portfolio.constructor | App.tsx:10-14 | the shell starts on the home view with nothing selected, both overlays closed and no check mark |
| App.Portfolio.HandleProjectClick | App.tsx:21-25 | sets the view to the detail view and the selection to the id; nothing else changes |
| App.Portfolio.HandleNavClick | App.tsx:27-32 | sets the view, clears the selection, closes the menu; the modal and the copy mark are unchanged |
| App.Portfolio.Back | App.tsx:109 | is a nav click on the home view |
| App.Portfolio.ToggleMobileMenu | App.tsx:241 | flips the menu flag and nothing else |
| App.Portfolio.OpenContactModal | App.tsx:165 | opens the modal and nothing else |
| App.Portfolio.CloseContactModal | App.tsx:47-57 | the backdrop and the close button close the modal and nothing else |
| App.Portfolio.CopyToClipboard | App.tsx:34-36 | marks the copied field and nothing else |
| App.Portfolio.ResetCopied | App.tsx:37 | the timer clears the copy mark and nothing else |
| MobileHome.OnScroll | components/MobileHome.tsx:16-20 | the swipe is marked exactly when it was already marked or the mounted container has scrolled more than 50 pixels; the selection is unchanged |
| MobileHome.OnScrollToDarkPane | components/MobileHome.tsx:22-31 | the swipe is marked exactly when it was already marked or the container is mounted; the selection is unchanged |
| MobileHome.OnCardClick | components/MobileHome.tsx:33-36 | the clicked id becomes the selection and the swipe is marked when the container is mounted |
| MobileHome.Step | components/MobileHome.tsx:16-36 | one handler applied to the state, per event |
| MobileHome.Run | components/MobileHome.tsx:16-36 | the handlers applied in order; the `Run…` lemmas below state what every reachable state satisfies |
| MobileHome.RunHasSwiped | components/MobileHome.tsx:14-31 | after any events the swipe is marked exactly when it was before or some event marked it; it is never reset |
| MobileHome.RunSelectionWithoutClick | components/MobileHome.tsx:16-31 | events other than card clicks leave the selection unchanged |
| MobileHome.RunSelectionLastClick | components/MobileHome.tsx:33-36 | after any events the selection is the id of the last card clicked |
| MobileHome.RunKeepsSelection | components/MobileHome.tsx:13 | a selection, once made, is never cleared |
| MobileHome.SwipeHintVisible | components/MobileHome.tsx:73 | the swipe hint shows until the swipe is marked |
| MobileHome.SwipeHintStaysHidden | components/MobileHome.tsx:73 | once hidden the swipe hint stays hidden; from the start it is hidden exactly when some event marked the swipe |
| MobileHome.FirstTwoTags | components/MobileHome.tsx:91 | `slice(0, 2)` gives the first two tags in order, or all of them when there are fewer |
| MobileHome.DarkPaneFor | components/MobileHome.tsx:85-104 | the dark pane shows the selected project's hero, title, first two tags and tagline when the selection resolves, and the skills list otherwise |
| MobileHome.ClickedCardShowsTwoTags | components/MobileHome.tsx:33-38 | after a click on a listed card the dark pane shows that project with exactly its first two tags |
| MobileHome.IsActive | components/MobileHome.tsx:133 | a card is active when its id is the selection; `AtMostOneActive` states that at most one is |
| MobileHomeList.ListCards | components/MobileHome.tsx:132-134 | the list passes each card its project, its position and a hover handler |
| MobileHomeList.ListCardClickShowsProject | components/MobileHome.tsx:133 | clicking a card of the list calls `onClick` with its project's id, which the list hands to `handleCardClick`, so that card becomes active and the dark pane shows its project |
| MobileHome.AtMostOneActive | components/MobileHome.tsx:133 | with distinct ids at most one card is active |
| MobileHome.MobileHomeScreen.constructor | components/MobileHome.tsx:13-14 | starts with no selection and no swipe |
| MobileHome.MobileHomeScreen.HandleScroll | components/MobileHome.tsx:16-20 | marks the swipe only past 50 pixels and changes nothing else |
| MobileHome.MobileHomeScreen.ScrollToDarkPane | components/MobileHome.tsx:22-31 | marks the swipe only when the container is mounted |
| MobileHome.MobileHomeScreen.HandleCardClick | components/MobileHome.tsx:33-36 | selects the id, then scrolls to the dark pane |
| MobileProjectDetail.MinutesField | components/MobileProjectDetail.tsx:38-40 | the whole minutes as a numeral padded to two digits; `FormatTimeFields` states its value |
| MobileProjectDetail.SecondsField | components/MobileProjectDetail.tsx:39-40 | the seconds past the minute as a numeral padded to two digits; `FormatTimeFields` states its value |
| MobileProjectDetail.FormatTime | components/MobileProjectDetail.tsx:37-41 | the two fields joined by a colon; `FormatTimeFields`, `FormatTimeShape` and `FormatTimeRoundTrip` state its properties |
| MobileProjectDetail.FormatTimeFields | components/MobileProjectDetail.tsx:37-41 | both clock fields are numerals of at least two digits denoting the minutes and the seconds; the seconds lie in 0..59 |
| MobileProjectDetail.FormatTimeShape | components/MobileProjectDetail.tsx:37-41 | below 6000 seconds the clock is five characters with the colon at index 2 and digits elsewhere |
| MobileProjectDetail.FormatTimeLongMinutes | components/MobileProjectDetail.tsx:38-40 | from 100 minutes on the minutes field is the full numeral of three or more digits |
| MobileProjectDetail.FormatTimeRoundTrip | components/MobileProjectDetail.tsx:37-41 | reading the clock back as `60*MM + SS` gives the whole seconds it was formatted from |
| MobileProjectDetail.ReadingProgress | components/MobileProjectDetail.tsx:25-35 | a pane that does not scroll reads 100 without reaching the division; otherwise the progress is the scrolled fraction of the range in percent |
| MobileProjectDetail.ReadingProgressBounds | components/MobileProjectDetail.tsx:31-32 | a position inside the range reads between 0 and 100, 0 at the top and 100 at the bottom |
| MobileProjectDetail.InitialClockIsZero | components/MobileProjectDetail.tsx:15 | the initial clock "00:00" is the formatted time zero |
| MobileProjectDetail.OnStartVideo | components/MobileProjectDetail.tsx:64-65 | the thumbnail dismissed; `RunKeepsStarted` states it is never shown again |
| MobileProjectDetail.OnDelayedPlay | components/MobileProjectDetail.tsx:66-71 | the player marked playing when the video is mounted, otherwise unchanged |
| MobileProjectDetail.OnTogglePlay | components/MobileProjectDetail.tsx:52-62 | with the video mounted the player is marked playing exactly when the video was paused; without it nothing changes |
| MobileProjectDetail.OnTimeUpdate | components/MobileProjectDetail.tsx:43-50 | the clock showing the mounted video's current time, formatted; `StepKeepsClock` states that the clock always shows a formatted time |
| MobileProjectDetail.OnWrittenScroll | components/MobileProjectDetail.tsx:25-35 | the reading progress recomputed when the pane is mounted; `ReadingProgressBounds` bounds it |
| MobileProjectDetail.Step | components/MobileProjectDetail.tsx:25-71 | one handler applied to the state, per event, with the media element's `play`, `pause` and `ended` events of lines 185-187 |
| MobileProjectDetail.Run | components/MobileProjectDetail.tsx:25-71 | the handlers applied in order; `RunKeepsStarted` and `RunKeepsClock` state what every reachable state satisfies |
| MobileProjectDetail.RunKeepsStarted | components/MobileProjectDetail.tsx:64-65 | `hasStarted` is never reset and is set once the video has been started |
| MobileProjectDetail.StepClockUnchanged | components/MobileProjectDetail.tsx:43-50 | only a time update with the video mounted changes the clock; every other event leaves it as it was |
| MobileProjectDetail.StepKeepsClock | components/MobileProjectDetail.tsx:43-50 | every event leaves the clock showing some formatted time |
| MobileProjectDetail.RunKeepsClock | components/MobileProjectDetail.tsx:43-50 | along any events the clock keeps showing some formatted time |
| MobileProjectDetail.ReachableClock | components/MobileProjectDetail.tsx:43-50 | in every reachable state the clock shows some formatted time |
| MobileProjectDetail.VideoPaneFor | components/MobileProjectDetail.tsx:177-240 | without a video only the hero image shows; with one exactly one of the thumbnail overlay (not started) and the controls (started) shows, and the controls show the pause icon exactly while playing |
| MobileProjectDetail.ProjectDetailPlayer.constructor | components/MobileProjectDetail.tsx:12-19 | starts not started, not playing, at "00:00" with no reading progress |
| MobileProjectDetail.ProjectDetailPlayer.StartVideo | components/MobileProjectDetail.tsx:64-65 | dismisses the thumbnail and changes nothing else |
| MobileProjectDetail.ProjectDetailPlayer.DelayedPlay | components/MobileProjectDetail.tsx:66-71 | the delayed callback marks the player playing when the video is mounted |
| MobileProjectDetail.ProjectDetailPlayer.TogglePlay | components/MobileProjectDetail.tsx:52-62 | marks playing exactly when the mounted video was paused |
| MobileProjectDetail.ProjectDetailPlayer.HandleMediaEvent | components/MobileProjectDetail.tsx:185-187 | `play` marks the player playing, `ended` and `pause` mark it not playing |
| MobileProjectDetail.ProjectDetailPlayer.HandleTimeUpdate | components/MobileProjectDetail.tsx:43-50 | the clock shows the mounted video's current time, formatted |
| MobileProjectDetail.ProjectDetailPlayer.HandleScroll | components/MobileProjectDetail.tsx:25-35 | recomputes the reading progress when the pane is mounted, 100 for a pane that does not scroll |
| ProjectCard.FormattedIndex | components/ProjectCard.tsx:12 | the 1-based position padded to two digits; `FormattedIndexDenotesPosition` and `FormattedIndexShape` state its value |
| ProjectCard.FormattedIndexDenotesPosition | components/ProjectCard.tsx:12 | the label has at least two digits and denotes `index + 1` |
| ProjectCard.FormattedIndexShape | components/ProjectCard.tsx:12 | positions 1 to 9 read '0' and a digit, 10 to 99 the plain two-digit numeral, 100 on the full numeral of three or more digits |
| ProjectCard.HoverBackground | components/ProjectCard.tsx:15-17 | the hover colour is the accent colour unless it is missing or empty, then the paper-dark token |
| ProjectCard.ListedProjectsHoverInAccent | components/ProjectCard.tsx:16 | every listed project hovers in its own accent colour |
| ProjectCard.IsActivationKey | components/ProjectCard.tsx:28 | Enter and Space activate the card |
| ProjectCard.React | components/ProjectCard.tsx:22-33 | a click, Enter or Space calls `onClick` with the id, only the two keys prevent the default, mouse enter and leave report the id and null, and any other key calls nothing |
| ProjectCard.KeyboardActivationIsClick | components/ProjectCard.tsx:28-33 | Enter and Space make exactly the calls a click makes; any other key makes none |
| ProjectCard.Label | components/ProjectCard.tsx:12 | a given index gives the padded position label; a missing index gives "NaN" |
| ProjectCard.Dispatch | components/ProjectCard.tsx:22-24 | an event throws exactly when it is a mouse enter or leave and no `onHover` was passed; otherwise the card reacts as it declares |
| ProjectCard.CompletePropsBehave | components/ProjectCard.tsx:4-12 | a card given its index and `onHover` labels itself with the numeral of its position and never throws |

## Left out

- DOM side effects are not modelled: `window.scrollTo`, the smooth `scrollTo` of the top area and `navigator.clipboard.writeText`. They move the page's and the top area's scroll positions and write the clipboard. The model tracks none of these, so it does not say which of the top area's two panes is on screen. No modelled state depends on them: `scrollToDarkPane` sets `hasSwiped` itself, so a later `handleScroll` that reads the new `scrollLeft` changes nothing.
- The video element's `play()`/`pause()` calls are not modelled. The element's `paused` flag and `currentTime` are inputs of each event, and the `play`/`pause` events those calls trigger are separate events the caller issues. The model therefore does not capture that two toggles in a row alternate: nothing ties the `paused` a toggle reads to the call the previous toggle made.
- Numbers are unbounded naturals. JavaScript's double precision above 2^53 and the exponent notation `toString()` uses from 1e21 on are not modelled, so the numeral lemmas hold of the model's naturals, not of such huge doubles.
- Timers are not modelled as time. The 2-second copy-mark reset and the 10 ms delayed play are events the caller issues.
- Floating-point media maths is not modelled: the video progress bar and the timeline seek. Video times are whole seconds, so a fractional `currentTime` and its `Math.floor` are out of scope.
- Scroll offsets and heights are whole pixels (`int`). The DOM reports them as doubles, so a fractional `scrollLeft` between 50 and 51, which marks the swipe, is not captured.
- MobileProjectDetail.ReadingProgress: uses exact reals, so it does not model IEEE rounding of the division.
- The sound hook, the custom cursor, the button and tooltip components and components/ProjectDetail.tsx are not part of this model. Neither are layout, styling, animation and the icons.
- Every constant's text is copied, but only the facts listed above are stated about the record fields. The spelled-out descriptions and image URLs are data.
- MobileHome passes `isActive` and `onNavigate` to the card, but the card declares neither prop and ignores both. `IsActive` is therefore a predicate of the screen state, not something the card shows.
- The mobile screen's hard-coded contact links (`tel:+15551234567`) are not modelled. Unlike the desktop `tel:` link, they keep the '+'.
- The back navigation of the mobile screens and the mobile header are not modelled.
- `DetailMode` is declared but no modelled component uses it.

## Findings

| source | as written | input that shows it | evidently intended | confidence | as-written member | corrected member |
|---|---|---|---|---|---|---|
| App.tsx:182-188 | the home grid renders each card with only `project` and `onClick`, though the card requires `index` and `onHover` | showing the home view labels every card `(undefined + 1).toString()`, i.e. "NaN"; moving the pointer onto a card calls the missing `onHover` and throws a `TypeError` | pass the card's position and a hover handler, as components/MobileHome.tsx:133 does | medium, not executed | App.HomeCardsAsWrittenMisbehave | App.HomeCardsBehave |

`App.RenderContent` renders the home grid as App.tsx writes it; `App.HomeCards` is the corrected grid, proved well-behaved on its own.

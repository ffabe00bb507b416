/**
 * A row of the project index (components/ProjectCard.tsx). The card holds no
 * state: it formats its position, picks its hover colour, and turns pointer
 * and key events into calls of the `onClick` and `onHover` callbacks it was
 * given, which are modelled here as the list of calls it makes.
 */
module ProjectCard {
  import opened Wrappers
  import opened Types
  import opened JsString
  import Constants

  // ---------------------------------------------------------------------
  // Position label

  /** `(index + 1).toString().padStart(2, '0')`: the 1-based position, at least two characters wide. */
  function FormattedIndex(index: nat): string {
    PadStart(NatToString(index + 1), 2, '0')
  }

  /** The label is a decimal numeral for `index + 1`, leading zero included. */
  lemma FormattedIndexDenotesPosition(index: nat)
    ensures |FormattedIndex(index)| >= 2 && AllDigits(FormattedIndex(index))
    ensures ParseDecimal(FormattedIndex(index)) == index + 1
  {
    ParseNatToString(index + 1);
    ParseZeroPadded(NatToString(index + 1), 2);
  }

  /**
   * Positions 1 to 9 read '0' and one digit, 10 to 99 are the plain two-digit
   * numeral, and from 100 on the numeral is longer than the padding width and
   * is kept whole.
   */
  lemma FormattedIndexShape(index: nat)
    ensures index <= 8 ==> FormattedIndex(index) == ['0', DigitChar(index + 1)]
    ensures 9 <= index <= 98 ==>
      |FormattedIndex(index)| == 2 && FormattedIndex(index) == NatToString(index + 1)
      && FormattedIndex(index)[0] != '0'
    ensures index >= 99 ==>
      |FormattedIndex(index)| >= 3 && FormattedIndex(index) == NatToString(index + 1)
  {
    NatToStringLength(index + 1);
  }

  // ---------------------------------------------------------------------
  // Hover colour

  const PaperDarkToken := "var(--color-paper-dark)"

  /** `project.accentColor || 'var(--color-paper-dark)'`: the accent colour unless it is missing or empty. */
  function HoverBackground(p: Project): (bg: string)
    ensures p.accentColor.Some? && p.accentColor.value != "" ==> bg == p.accentColor.value
    ensures p.accentColor.None? || p.accentColor.value == "" ==> bg == PaperDarkToken
  {
    if p.accentColor.Some? && p.accentColor.value != "" then p.accentColor.value else PaperDarkToken
  }

  /** Every listed project hovers in its own accent colour. */
  lemma ListedProjectsHoverInAccent()
    ensures forall i :: 0 <= i < |Constants.Projects| ==>
      HoverBackground(Constants.Projects[i]) == Constants.Projects[i].accentColor.value
  {
    Constants.ProjectsDefineOptionalFields();
  }

  // ---------------------------------------------------------------------
  // Events

  /** A call the card makes to one of its callbacks. */
  datatype Callback = Click(clickedId: string) | Hover(hoveredId: Option<string>)

  /** An event the card's element receives; `key` is `KeyboardEvent.key`. */
  datatype CardEvent = Clicked | MouseEntered | MouseLeft | KeyDown(key: string)

  /** What the card does with an event: whether it prevents the default action, and the calls it makes. */
  datatype Reaction = Reaction(preventDefault: bool, calls: seq<Callback>)

  predicate IsActivationKey(key: string) {
    key == "Enter" || key == " "
  }

  function React(p: Project, e: CardEvent): (r: Reaction)
    ensures |r.calls| <= 1
    ensures r.preventDefault <==> e.KeyDown? && IsActivationKey(e.key)
    ensures r.calls == [Click(p.id)] <==> e.Clicked? || (e.KeyDown? && IsActivationKey(e.key))
    ensures r.calls == [Hover(Some(p.id))] <==> e.MouseEntered?
    ensures r.calls == [Hover(None)] <==> e.MouseLeft?
    ensures r.calls == [] <==> e.KeyDown? && !IsActivationKey(e.key)
  {
    match e
    case Clicked => Reaction(false, [Click(p.id)])
    case MouseEntered => Reaction(false, [Hover(Some(p.id))])
    case MouseLeft => Reaction(false, [Hover(None)])
    case KeyDown(key) =>
      if IsActivationKey(key) then Reaction(true, [Click(p.id)]) else Reaction(false, [])
  }

  /** Enter and Space activate the card exactly as a click does; no other key makes any call. */
  lemma KeyboardActivationIsClick(p: Project, key: string)
    ensures React(p, KeyDown(key)).calls == (if key == "Enter" || key == " " then React(p, Clicked).calls else [])
  {
  }

  // ---------------------------------------------------------------------
  // Props a parent may leave out

  /**
   * What a parent passes: the declared props are all required, but a parent
   * that is not type-checked can omit `index` and `onHover`.
   */
  datatype CardProps = CardProps(project: Project, index: Option<nat>, hasOnHover: bool)

  /**
   * The position label for a possibly missing index: `undefined + 1` is
   * `NaN`, whose string "NaN" is already wider than the padding.
   */
  function Label(index: Option<nat>): (r: string)
    ensures index.Some? ==> r == FormattedIndex(index.value)
    ensures index.None? ==> r == "NaN"
  {
    match index
    case Some(i) => FormattedIndex(i)
    case None => PadStart("NaN", 2, '0')
  }

  /** What handling an event comes to: the card's reaction, or a `TypeError` from calling a missing `onHover`. */
  datatype Outcome = Reacted(reaction: Reaction) | ThrewTypeError

  function Dispatch(props: CardProps, e: CardEvent): (o: Outcome)
    ensures o.ThrewTypeError? <==> (e.MouseEntered? || e.MouseLeft?) && !props.hasOnHover
    ensures o.Reacted? ==> o.reaction == React(props.project, e)
  {
    if (e.MouseEntered? || e.MouseLeft?) && !props.hasOnHover then ThrewTypeError
    else Reacted(React(props.project, e))
  }

  /** A card given its position and an `onHover` labels itself with a numeral and never throws. */
  lemma CompletePropsBehave(props: CardProps, e: CardEvent)
    requires props.index.Some? && props.hasOnHover
    ensures AllDigits(Label(props.index)) && ParseDecimal(Label(props.index)) == props.index.value + 1
    ensures Dispatch(props, e) == Reacted(React(props.project, e))
  {
    FormattedIndexDenotesPosition(props.index.value);
  }
}

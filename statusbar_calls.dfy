/**
 * What the public calls of StatusBarManager do, as values: one call is a
 * `Step` on the item's fields together with the shared ERROR tooltip, a
 * sequence of calls is a `Run`. The class in module StatusBar is proved to
 * follow `Step`, so everything proved here about runs holds of the object.
 */
module StatusBarCalls {
  import opened Wrappers
  import opened StatusBarStates

  /** The calls a client can make on the manager (`dispose` aside). */
  datatype Call =
    | SetDefaultState
    | SetUpToDate
    | SetOutOfDate
    | SetError(message: Option<string>)
    | SetUpdating
    | Show
    | Hide

  /** Everything the calls read or write: the item, and the ERROR tooltip shared by all instances. */
  datatype World = World(item: Item, errorTooltip: string)

  /** The state a setter shows; None for `show` and `hide`. */
  function Setter(c: Call): (k: Option<StateKind>)
    ensures k.None? <==> c.Show? || c.Hide?
  {
    match c
    case SetDefaultState => Some(Default)
    case SetUpToDate => Some(UpToDate)
    case SetOutOfDate => Some(OutOfDate)
    case SetError(_) => Some(Error)
    case SetUpdating => Some(Updating)
    case Show => None
    case Hide => None
  }

  /** One call. */
  function Step(w: World, c: Call): (r: World)
    // no call changes the click command
    ensures r.item.command == w.item.command
    // the shared tooltip only grows, and only setError makes it grow
    ensures w.errorTooltip <= r.errorTooltip
    ensures !c.SetError? ==> r.errorTooltip == w.errorTooltip
    // visibility changes only through show and hide, which change nothing else
    ensures c.Show? ==> r == w.(item := w.item.(visible := true))
    ensures c.Hide? ==> r == w.(item := w.item.(visible := false))
    ensures Setter(c).Some? ==> r.item.visible == w.item.visible
    // a setter shows its state's text and tooltip, the error state with the updated tooltip
    ensures Setter(c).Some? ==> r.item.text == StateFor(Setter(c).value, r.errorTooltip).text
    ensures Setter(c).Some? ==> r.item.tooltip == StateFor(Setter(c).value, r.errorTooltip).tooltip
  {
    match c
    case SetDefaultState => w.(item := ApplyState(w.item, StateFor(Default, w.errorTooltip)))
    case SetUpToDate => w.(item := ApplyState(w.item, StateFor(UpToDate, w.errorTooltip)))
    case SetOutOfDate => w.(item := ApplyState(w.item, StateFor(OutOfDate, w.errorTooltip)))
    case SetError(message) =>
      var tooltip := AppendErrorMessage(w.errorTooltip, message);
      World(ApplyState(w.item, StateFor(Error, tooltip)), tooltip)
    case SetUpdating => w.(item := ApplyState(w.item, StateFor(Updating, w.errorTooltip)))
    case Show => w.(item := w.item.(visible := true))
    case Hide => w.(item := w.item.(visible := false))
  }

  /** The calls `cs`, in order. */
  function Run(w: World, cs: seq<Call>): (r: World)
    ensures r.item.command == w.item.command
    ensures w.errorTooltip <= r.errorTooltip
    decreases |cs|
  {
    if cs == [] then w else Run(Step(w, cs[0]), cs[1..])
  }

  /**
   * What the private constructor leaves behind: the fresh item with the
   * command set, the default state applied, and the item shown.
   */
  function Constructed(command: string, errorTooltip: string): (w: World)
    ensures w.item == Item(DefaultText, DefaultTooltip, None, command, true)
    ensures w.errorTooltip == errorTooltip
  {
    Run(World(FreshItem.(command := command), errorTooltip), [SetDefaultState, Show])
  }

  /**
   * The world right after the first `getInstance`: the constructed item and
   * the ERROR tooltip as declared.
   */
  function Initial(command: string): (w: World)
    ensures w == World(Item(DefaultText, DefaultTooltip, None, command, true), ErrorBaseTooltip)
  {
    Constructed(command, ErrorBaseTooltip)
  }

  /** Running one more call is one more step. */
  lemma {:induction false} RunSnoc(w: World, cs: seq<Call>, c: Call)
    ensures Run(w, cs + [c]) == Step(Run(w, cs), c)
    decreases |cs|
  {
    if cs == [] {
      assert [c][1..] == [];
    } else {
      assert (cs + [c])[1..] == cs[1..] + [c];
      RunSnoc(Step(w, cs[0]), cs[1..], c);
    }
  }

  /** Visibility after `cs`: that of the last show or hide, or `visible` if there is none. */
  function VisibleAfter(visible: bool, cs: seq<Call>): bool
    decreases |cs|
  {
    if cs == [] then visible
    else if cs[|cs| - 1].Show? then true
    else if cs[|cs| - 1].Hide? then false
    else VisibleAfter(visible, cs[..|cs| - 1])
  }

  /** Visibility depends only on the show and hide calls. */
  lemma {:induction false} RunVisible(w: World, cs: seq<Call>)
    ensures Run(w, cs).item.visible == VisibleAfter(w.item.visible, cs)
    decreases |cs|
  {
    if cs != [] {
      var init := cs[..|cs| - 1];
      assert cs == init + [cs[|cs| - 1]];
      RunSnoc(w, init, cs[|cs| - 1]);
      RunVisible(w, init);
    }
  }

  /**
   * Colour after `cs`: that of the last call to a setter whose state has a
   * colour, or `color` if there is none. The default state has none, so
   * `setDefaultState` is skipped over like `show` and `hide`.
   */
  function ColorAfter(color: Option<ThemeColorId>, cs: seq<Call>): Option<ThemeColorId>
    decreases |cs|
  {
    if cs == [] then color
    else match cs[|cs| - 1]
      case SetUpToDate => Some(StatusBarForeground)
      case SetUpdating => Some(StatusBarForeground)
      case SetOutOfDate => Some(ErrorForeground)
      case SetError(_) => Some(ErrorForeground)
      case _ => ColorAfter(color, cs[..|cs| - 1])
  }

  /** The colour shown is the last colour a coloured state set. */
  lemma {:induction false} RunColor(w: World, cs: seq<Call>)
    ensures Run(w, cs).item.color == ColorAfter(w.item.color, cs)
    decreases |cs|
  {
    if cs != [] {
      var init := cs[..|cs| - 1];
      assert cs == init + [cs[|cs| - 1]];
      RunSnoc(w, init, cs[|cs| - 1]);
      RunColor(w, init);
    }
  }

  /** The error messages of `cs` that reach the tooltip, each preceded by ": ", in order. */
  function ErrorSuffix(cs: seq<Call>): string
    decreases |cs|
  {
    if cs == [] then ""
    else (if cs[0].SetError? && Truthy(cs[0].message) then ": " + cs[0].message.value else "")
         + ErrorSuffix(cs[1..])
  }

  /**
   * The shared ERROR tooltip accumulates: after `cs` it is the tooltip before
   * followed by ": m" for every non-empty message m given to setError, in order.
   */
  lemma {:induction false} RunErrorTooltip(w: World, cs: seq<Call>)
    ensures Run(w, cs).errorTooltip == w.errorTooltip + ErrorSuffix(cs)
    decreases |cs|
  {
    if cs != [] {
      var w' := Step(w, cs[0]);
      RunErrorTooltip(w', cs[1..]);
      assert w'.errorTooltip == w.errorTooltip
        + (if cs[0].SetError? && Truthy(cs[0].message) then ": " + cs[0].message.value else "");
    }
  }

  /** The state shown by the last setter in `cs`, if any. */
  function LastSetter(cs: seq<Call>): Option<StateKind>
    decreases |cs|
  {
    if cs == [] then None
    else if Setter(cs[|cs| - 1]).Some? then Setter(cs[|cs| - 1])
    else LastSetter(cs[..|cs| - 1])
  }

  /**
   * The text and tooltip on display are those of the last setter's state
   * (for the error state, the current shared tooltip), or unchanged if no
   * setter was called.
   */
  lemma {:induction false} RunShowsLastState(w: World, cs: seq<Call>)
    ensures var r := Run(w, cs);
            LastSetter(cs).Some? ==>
              r.item.text == StateFor(LastSetter(cs).value, r.errorTooltip).text &&
              r.item.tooltip == StateFor(LastSetter(cs).value, r.errorTooltip).tooltip
    ensures var r := Run(w, cs);
            LastSetter(cs).None? ==> r.item.text == w.item.text && r.item.tooltip == w.item.tooltip
    decreases |cs|
  {
    if cs != [] {
      var init := cs[..|cs| - 1];
      assert cs == init + [cs[|cs| - 1]];
      RunSnoc(w, init, cs[|cs| - 1]);
      RunShowsLastState(w, init);
    }
  }

  /**
   * Starting from the declared tables, the error tooltip always begins with
   * its declared text, so the error state never looks like the out-of-date one.
   */
  lemma ErrorNeverLooksOutOfDate(command: string, cs: seq<Call>)
    ensures ErrorBaseTooltip <= Run(Initial(command), cs).errorTooltip
    ensures StateFor(Error, Run(Initial(command), cs).errorTooltip) != StateFor(OutOfDate, Run(Initial(command), cs).errorTooltip)
  {
    OutOfDateAndErrorDifferOnlyInTooltip(Run(Initial(command), cs).errorTooltip);
  }

  /** Two errors with messages, one without: the messages pile up in the tooltip. */
  lemma ErrorMessagesPileUp(command: string)
    ensures Run(Initial(command), [SetError(Some("m1")), SetError(None), SetError(Some("")), SetError(Some("m2"))]).item.tooltip
            == ErrorBaseTooltip + ": m1: m2"
  {
  }
}

/**
 * The display states of the CRC status bar (CONFIG.STATES in src/statusbar.ts),
 * the fields of the status bar item the manager writes, and `updateState`,
 * which copies a state onto the item.
 */
module StatusBarStates {
  import opened Wrappers

  /** The theme colours the states use, by their vscode.ThemeColor id. */
  datatype ThemeColorId = StatusBarForeground | ErrorForeground {
    function Id(): string {
      match this
      case StatusBarForeground => "statusBar.foreground"
      case ErrorForeground => "errorForeground"
    }
  }

  /** The five entries of CONFIG.STATES. */
  datatype StateKind = Default | UpToDate | OutOfDate | Error | Updating

  /** One entry of CONFIG.STATES: TEXT, TOOLTIP and the optional COLOR. */
  datatype StateDef = StateDef(text: string, tooltip: string, color: Option<ThemeColorId>)

  const DefaultText: string := "CRC"
  const DefaultTooltip: string := "Central Remote Config"
  const UpToDateText: string := "CRC ✔"
  const UpToDateTooltip: string := "Configuration locale à jour"
  const OutOfDateText: string := "CRC ✘"
  // The two long tooltips are written as two literals each: Dafny's verifier
  // does not look inside a single literal of this length.
  const OutOfDateTooltip: string := "Configuration locale non à jour. " + "Veuillez la mettre à jour"
  const ErrorText: string := "CRC ✘"
  /** The ERROR tooltip as declared, before any error message has been appended to it. */
  const ErrorBaseTooltip: string := "Erreur lors de la vérification " + "de la configuration"
  const UpdatingText: string := "CRC $(sync~spin)"
  const UpdatingTooltip: string := "Mise à jour en cours..."

  /**
   * CONFIG.STATES[k]. Every entry is fixed except the ERROR tooltip, which
   * `setError` rewrites in place; its current value is passed as `errorTooltip`.
   */
  function StateFor(k: StateKind, errorTooltip: string): (s: StateDef)
    // only the default state leaves the colour alone
    ensures s.color.None? <==> k == Default
    // the two failure states look alike: same mark, same error colour
    ensures k in {OutOfDate, Error} <==> s.text == "CRC ✘"
    ensures k in {OutOfDate, Error} <==> s.color == Some(ErrorForeground)
    ensures k in {UpToDate, Updating} <==> s.color == Some(StatusBarForeground)
    // the error state shows the shared string
    ensures k == Error ==> s.tooltip == errorTooltip
  {
    match k
    case Default => StateDef(DefaultText, DefaultTooltip, None)
    case UpToDate => StateDef(UpToDateText, UpToDateTooltip, Some(StatusBarForeground))
    case OutOfDate => StateDef(OutOfDateText, OutOfDateTooltip, Some(ErrorForeground))
    case Error => StateDef(ErrorText, errorTooltip, Some(ErrorForeground))
    case Updating => StateDef(UpdatingText, UpdatingTooltip, Some(StatusBarForeground))
  }

  /** The entries other than ERROR do not depend on the shared error tooltip. */
  lemma FixedStates(k: StateKind, t1: string, t2: string)
    requires k != Error
    ensures StateFor(k, t1) == StateFor(k, t2)
  {
  }

  /**
   * The out-of-date and error states differ only in their tooltip, and they
   * always do differ there as long as the error tooltip still begins with its
   * declared text (which `setError` never removes).
   */
  lemma OutOfDateAndErrorDifferOnlyInTooltip(errorTooltip: string)
    requires ErrorBaseTooltip <= errorTooltip
    ensures StateFor(OutOfDate, errorTooltip).text == StateFor(Error, errorTooltip).text
    ensures StateFor(OutOfDate, errorTooltip).color == StateFor(Error, errorTooltip).color
    ensures StateFor(OutOfDate, errorTooltip).tooltip != StateFor(Error, errorTooltip).tooltip
  {
    assert errorTooltip[..|ErrorBaseTooltip|] == ErrorBaseTooltip;
    assert errorTooltip[0] == 'E' != OutOfDateTooltip[0];
  }

  /**
   * Any two different states can be told apart on screen by their text or
   * tooltip alone (the colour need not differ: the default state has none and
   * keeps the previous one), given an error tooltip that still begins with its
   * declared text.
   */
  lemma StatesDistinguishable(k1: StateKind, k2: StateKind, errorTooltip: string)
    requires ErrorBaseTooltip <= errorTooltip
    requires k1 != k2
    ensures StateFor(k1, errorTooltip).text != StateFor(k2, errorTooltip).text
         || StateFor(k1, errorTooltip).tooltip != StateFor(k2, errorTooltip).tooltip
  {
    if {k1, k2} == {OutOfDate, Error} {
      OutOfDateAndErrorDifferOnlyInTooltip(errorTooltip);
    } else {
      assert |DefaultText| == 3 && |UpToDateText| == 5 && |UpdatingText| == 16;
      assert UpToDateText[4] != OutOfDateText[4];
    }
  }

  /**
   * `if (errorMessage)`: JavaScript truthiness of an optional string, false for
   * an absent message and for the empty string.
   */
  predicate Truthy(message: Option<string>) {
    message.Some? && message.value != ""
  }

  /** The ERROR tooltip after `setError(message)` has updated it. */
  function AppendErrorMessage(tooltip: string, message: Option<string>): (r: string)
    // the old tooltip is never lost
    ensures tooltip <= r
    // it changes exactly when a non-empty message is given ...
    ensures r == tooltip <==> !Truthy(message)
    // ... and then it grows by ": " and the message
    ensures Truthy(message) ==> r[|tooltip|..] == ": " + message.value
  {
    if Truthy(message) then tooltip + ": " + message.value else tooltip
  }

  /** The fields of the vscode status bar item that the manager writes. */
  datatype Item = Item(text: string, tooltip: string, color: Option<ThemeColorId>, command: string, visible: bool)

  /**
   * A status bar item as the host creates it: no text, no tooltip, no colour,
   * no command, and hidden.
   */
  const FreshItem: Item := Item("", "", None, "", false)

  /** `updateState`: show a state's text and tooltip, and its colour if it has one. */
  function ApplyState(item: Item, s: StateDef): (r: Item)
    // only text, tooltip and colour are touched
    ensures r.(text := item.text, tooltip := item.tooltip, color := item.color) == item
    ensures r.text == s.text && r.tooltip == s.tooltip
    ensures s.color.Some? ==> r.color == s.color
    // a state without colour keeps whatever colour was shown before
    ensures s.color.None? ==> r.color == item.color
  {
    item.(text := s.text, tooltip := s.tooltip, color := if s.color.Some? then s.color else item.color)
  }

  /** Showing the same state twice is the same as showing it once. */
  lemma ApplyStateIdempotent(item: Item, s: StateDef)
    ensures ApplyState(ApplyState(item, s), s) == ApplyState(item, s)
  {
  }

  /** A state with a colour erases every trace of the state shown before it. */
  lemma ColouredStateForgetsPrevious(item: Item, s1: StateDef, s2: StateDef)
    requires s2.color.Some?
    ensures ApplyState(ApplyState(item, s1), s2) == ApplyState(item, s2)
  {
  }

  /**
   * The default state does not: after an error, going back to the default
   * state shows "CRC" in the error colour.
   */
  lemma DefaultKeepsPreviousColour(item: Item, k: StateKind, errorTooltip: string)
    requires k != Default
    ensures var r := ApplyState(ApplyState(item, StateFor(k, errorTooltip)), StateFor(Default, errorTooltip));
            r.text == DefaultText && r.tooltip == DefaultTooltip && r.color == StateFor(k, errorTooltip).color
  {
  }
}

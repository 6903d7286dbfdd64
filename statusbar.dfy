/**
 * StatusBarManager (src/statusbar.ts) as a class. Its status bar item is
 * represented by the fields the manager writes; the class's static members,
 * the singleton slot and the one mutable entry of its state table, live in a
 * `Statics` object that every instance refers to. Every call is proved to do
 * exactly what `StatusBarCalls.Step` says, so the lemmas about runs in that
 * module apply to the object.
 */
module StatusBar {
  import opened Wrappers
  import opened StatusBarStates
  import opened StatusBarCalls

  /** The static side of StatusBarManager. */
  class Statics {
    /** The unique instance, once created. */
    var instance: StatusBarManager?
    /** CONFIG.STATES.ERROR.TOOLTIP, which setError rewrites in place. */
    var errorTooltip: string

    ghost predicate Valid()
      reads this
    {
      instance != null ==> instance.statics == this
    }

    /** The static members as the class is loaded: no instance, the declared error tooltip. */
    constructor ()
      ensures Valid()
      ensures instance == null && errorTooltip == ErrorBaseTooltip
    {
      instance := null;
      errorTooltip := ErrorBaseTooltip;
    }

    /**
     * `getInstance`: creates the instance on the first call only; every later
     * call returns that same instance, untouched, whatever its command argument.
     */
    method GetInstance(command: string) returns (m: StatusBarManager)
      requires Valid()
      modifies this`instance
      ensures Valid()
      ensures instance == m && m.statics == this
      ensures errorTooltip == old(errorTooltip)
      ensures old(instance) == null ==> fresh(m) && m.WorldView() == Constructed(command, errorTooltip)
      ensures old(instance) != null ==> m == old(instance) && unchanged(m)
    {
      if instance == null {
        instance := new StatusBarManager(command, this);
      }
      m := instance;
    }
  }

  class StatusBarManager {
    // the fields of the status bar item
    var text: string
    var tooltip: string
    var color: Option<ThemeColorId>
    var command: string
    var visible: bool
    /** The static members shared by all instances. */
    const statics: Statics

    /** The item as the host displays it. */
    function ItemView(): Item
      reads this
    {
      Item(text, tooltip, color, command, visible)
    }

    /** The item together with the shared error tooltip. */
    ghost function WorldView(): World
      reads this, statics
    {
      World(ItemView(), statics.errorTooltip)
    }

    /**
     * The private constructor: a fresh item gets the click command, the
     * default state, and is shown.
     */
    constructor (command: string, statics: Statics)
      ensures this.statics == statics
      ensures WorldView() == Constructed(command, statics.errorTooltip)
    {
      text, tooltip, color, visible := FreshItem.text, FreshItem.tooltip, FreshItem.color, FreshItem.visible;
      this.command := FreshItem.command;
      this.statics := statics;
      new;
      this.command := command;
      SetDefaultState();
      Show();
    }

    /** `setDefaultState`: "CRC", the default tooltip, and the colour as it was. */
    method SetDefaultState()
      modifies this`text, this`tooltip, this`color
      ensures WorldView() == Step(old(WorldView()), Call.SetDefaultState)
      ensures text == DefaultText && tooltip == DefaultTooltip && color == old(color)
    {
      UpdateState(StateFor(Default, statics.errorTooltip));
    }

    /** `setUpToDate`. */
    method SetUpToDate()
      modifies this`text, this`tooltip, this`color
      ensures WorldView() == Step(old(WorldView()), Call.SetUpToDate)
      ensures text == UpToDateText && tooltip == UpToDateTooltip && color == Some(StatusBarForeground)
    {
      UpdateState(StateFor(UpToDate, statics.errorTooltip));
    }

    /** `setOutOfDate`. */
    method SetOutOfDate()
      modifies this`text, this`tooltip, this`color
      ensures WorldView() == Step(old(WorldView()), Call.SetOutOfDate)
      ensures text == OutOfDateText && tooltip == OutOfDateTooltip && color == Some(ErrorForeground)
    {
      UpdateState(StateFor(OutOfDate, statics.errorTooltip));
    }

    /**
     * `setError`: a non-empty message is appended to the shared error
     * tooltip for good; then the error state is shown with that tooltip.
     */
    method SetError(errorMessage: Option<string>)
      modifies this`text, this`tooltip, this`color, statics`errorTooltip
      ensures WorldView() == Step(old(WorldView()), Call.SetError(errorMessage))
      ensures statics.errorTooltip == AppendErrorMessage(old(statics.errorTooltip), errorMessage)
      ensures text == ErrorText && tooltip == statics.errorTooltip && color == Some(ErrorForeground)
    {
      if Truthy(errorMessage) {
        statics.errorTooltip := statics.errorTooltip + ": " + errorMessage.value;
      }
      UpdateState(StateFor(Error, statics.errorTooltip));
    }

    /** `setUpdating`. */
    method SetUpdating()
      modifies this`text, this`tooltip, this`color
      ensures WorldView() == Step(old(WorldView()), Call.SetUpdating)
      ensures text == UpdatingText && tooltip == UpdatingTooltip && color == Some(StatusBarForeground)
    {
      UpdateState(StateFor(Updating, statics.errorTooltip));
    }

    /** `updateState`: the item shows `state`, keeping its colour when `state` has none. */
    method UpdateState(state: StateDef)
      modifies this`text, this`tooltip, this`color
      ensures ItemView() == ApplyState(old(ItemView()), state)
    {
      text := state.text;
      tooltip := state.tooltip;
      if state.color.Some? {
        color := state.color;
      }
    }

    /** `show`. */
    method Show()
      modifies this`visible
      ensures WorldView() == Step(old(WorldView()), Call.Show)
      ensures visible
    {
      visible := true;
    }

    /** `hide`. */
    method Hide()
      modifies this`visible
      ensures WorldView() == Step(old(WorldView()), Call.Hide)
      ensures !visible
    {
      visible := false;
    }
  }
}

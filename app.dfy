/**
 * The top-level focus machine of simple_rss_lib/src/app.rs. The item list,
 * the content pane and the help popup are represented by the flags the
 * application sets on them; what each component answers to an event is an
 * input.
 */
module AppFocus {
  import opened Options
  import Events

  datatype Focus = ItemList | Content | Help

  /** The focus and the focus remembered while help is open. */
  datatype FocusState = FocusState(focus: Focus, prevFocus: Option<Focus>)

  /** What `set_focus(f)` does to the focus state. */
  function SetFocusState(s: FocusState, f: Focus): (r: FocusState)
    ensures r.focus == f
    ensures r.prevFocus == if f == Help then Some(s.focus) else s.prevFocus
  {
    if f == Help then FocusState(f, Some(s.focus)) else FocusState(f, s.prevFocus)
  }

  /** The focus `handle_event` moves to, or None when the event moves nothing. */
  function FocusTarget(s: FocusState, e: Events.Event): Option<Focus>
  {
    match e
    case Keyboard(Back) =>
      (match s.focus
       case ItemList => None
       case Content => Some(ItemList)
       case Help => Some(s.prevFocus.GetOr(ItemList)))
    case Keyboard(Left) => if s.focus == Content then Some(ItemList) else None
    case Keyboard(Right) => if s.focus == ItemList then Some(Content) else None
    case Keyboard(Help) => Some(Help)
    case Keyboard(_) => None
    case StartLoadingItem => if s.focus == ItemList then Some(Content) else None
    case Tick => None
    case LoadedItem(_) => None
    case Toast(_) => None
  }

  /** The focus state after one event. */
  function Step(s: FocusState, e: Events.Event): FocusState
  {
    match FocusTarget(s, e)
    case Some(f) => SetFocusState(s, f)
    case None => s
  }

  /** The focus rules, event by event. */
  lemma FocusRules(s: FocusState)
    ensures Step(s, Events.Keyboard(Events.Back)).focus ==
      match s.focus
      case ItemList => ItemList
      case Content => ItemList
      case Help => s.prevFocus.GetOr(ItemList)
    ensures Step(s, Events.Keyboard(Events.Left)).focus == if s.focus == Content then ItemList else s.focus
    ensures Step(s, Events.Keyboard(Events.Right)).focus == if s.focus == ItemList then Content else s.focus
    ensures Step(s, Events.Keyboard(Events.Help)) == FocusState(Help, Some(s.focus))
    ensures Step(s, Events.StartLoadingItem).focus == if s.focus == ItemList then Content else s.focus
    ensures forall text :: Step(s, Events.LoadedItem(text)) == s
    ensures forall t :: Step(s, Events.Toast(t)) == s
    ensures Step(s, Events.Tick) == s
  {
  }

  /** Only Back, Left, Right, Help and StartLoadingItem can move the focus, and only Help touches `prevFocus`. */
  lemma OnlyFocusEventsMove(s: FocusState, e: Events.Event)
    ensures Step(s, e) != s ==>
      || e.StartLoadingItem?
      || e in {Events.Keyboard(Events.Back), Events.Keyboard(Events.Left), Events.Keyboard(Events.Right), Events.Keyboard(Events.Help)}
    ensures Step(s, e).prevFocus != s.prevFocus ==> e == Events.Keyboard(Events.Help)
  {
  }

  /** Opening help and going back returns to where the user was. */
  lemma HelpThenBackReturns(s: FocusState)
    requires s.focus != Help
    ensures Step(Step(s, Events.Keyboard(Events.Help)), Events.Keyboard(Events.Back)).focus == s.focus
  {
  }

  /** Pressing Help while help is open remembers Help itself, so Back then leaves help open. */
  lemma HelpTwiceThenBackStaysInHelp(s: FocusState)
    ensures Step(Step(Step(s, Events.Keyboard(Events.Help)), Events.Keyboard(Events.Help)), Events.Keyboard(Events.Back)).focus == Help
  {
  }

  class App {
    var focus: Focus
    var prevFocus: Option<Focus>
    /** `item_list.focused` */
    var itemListFocused: bool
    /** `content.focused` */
    var contentFocused: bool
    /** `help.open` */
    var helpOpen: bool

    /** The component flags follow the focus. */
    predicate FlagsFollowFocus()
      reads this
    {
      && itemListFocused == (focus == ItemList)
      && contentFocused == (focus == Content)
      && helpOpen == (focus == Help)
    }

    constructor()
      ensures focus == ItemList && prevFocus == None
      ensures itemListFocused && !contentFocused && !helpOpen
      ensures FlagsFollowFocus()
    {
      focus := ItemList;
      prevFocus := None;
      itemListFocused := true;
      contentFocused := false;
      helpOpen := false;
    }

    method SetFocus(f: Focus)
      modifies this
      ensures FocusState(focus, prevFocus) == SetFocusState(old(FocusState(focus, prevFocus)), f)
      ensures FlagsFollowFocus()
    {
      match f {
        case ItemList =>
          itemListFocused := true;
          contentFocused := false;
          helpOpen := false;
        case Content =>
          itemListFocused := false;
          contentFocused := true;
          helpOpen := false;
        case Help =>
          itemListFocused := false;
          contentFocused := false;
          prevFocus := Some(focus);
          helpOpen := true;
      }
      focus := f;
    }

    /**
     * One event: `itemListState`, `contentState` and `toastState` are what the
     * three components answered. Handled iff one of them handled it or the
     * focus moved.
     */
    method HandleEvent(e: Events.Event, itemListState: Events.EventState, contentState: Events.EventState,
                       toastState: Events.EventState) returns (r: Events.EventState)
      modifies this
      ensures FocusState(focus, prevFocus) == Step(old(FocusState(focus, prevFocus)), e)
      ensures old(FlagsFollowFocus()) ==> FlagsFollowFocus()
      ensures FocusTarget(old(FocusState(focus, prevFocus)), e).Some? ==> FlagsFollowFocus()
      ensures FocusTarget(old(FocusState(focus, prevFocus)), e).None? ==>
        itemListFocused == old(itemListFocused) && contentFocused == old(contentFocused) && helpOpen == old(helpOpen)
      ensures r.IsHandled() <==>
        || itemListState.IsHandled() || contentState.IsHandled() || toastState.IsHandled()
        || FocusTarget(old(FocusState(focus, prevFocus)), e).Some?
      ensures r == Events.OrAll([itemListState, contentState, toastState,
        if FocusTarget(old(FocusState(focus, prevFocus)), e).Some? then Events.Handled else Events.Ignored])
    {
      ghost var moved := if FocusTarget(FocusState(focus, prevFocus), e).Some? then Events.Handled else Events.Ignored;
      var resState := itemListState;
      resState := resState.Or(contentState);
      resState := resState.Or(toastState);

      var state: Events.EventState;
      match e {
        case Keyboard(key) =>
          match key {
            case Back =>
              match focus {
                case ItemList =>
                  state := Events.Ignored;
                case Content =>
                  SetFocus(ItemList);
                  state := Events.Handled;
                case Help =>
                  SetFocus(prevFocus.GetOr(ItemList));
                  state := Events.Handled;
              }
            case Left =>
              if focus == Content {
                SetFocus(ItemList);
                state := Events.Handled;
              } else {
                state := Events.Ignored;
              }
            case Right =>
              if focus == ItemList {
                SetFocus(Content);
                state := Events.Handled;
              } else {
                state := Events.Ignored;
              }
            case Help =>
              SetFocus(Help);
              state := Events.Handled;
            case _ =>
              state := Events.Ignored;
          }
        case StartLoadingItem =>
          if focus == ItemList {
            SetFocus(Content);
            state := Events.Handled;
          } else {
            state := Events.Ignored;
          }
        case Tick =>
          state := Events.Ignored;
        case LoadedItem(_) =>
          state := Events.Ignored;
        case Toast(_) =>
          state := Events.Ignored;
      }
      r := resState.Or(state);
      ghost var all := [itemListState, contentState, toastState, moved];
      assert all[0] == itemListState && all[1] == contentState && all[2] == toastState && all[3] == moved;
    }
  }
}

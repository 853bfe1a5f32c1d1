/**
 * The older content pane of src/components/content.rs. Its events carry raw
 * key codes, and it reports Consumed only for a loaded item, so that the
 * parent still sees StartLoadingItem and can move the focus.
 */
module LegacyContent {
  import KeyMap
  import ContentComponent

  datatype LegacyEvent = Keyboard(code: KeyMap.KeyCode) | Tick | StartLoadingItem | LoadedItem(text: string)

  datatype LegacyEventState = Consumed | NotConsumed

  datatype LegacyContentState = Empty | Loading(tick: ContentComponent.byte) | Data(text: string)

  /** The state after one event, and whether the pane consumed it. */
  function Next(s: LegacyContentState, e: LegacyEvent): (r: (LegacyContentState, LegacyEventState))
    ensures r.1 == Consumed <==> e.LoadedItem?
    ensures e.Keyboard? ==> r.0 == s
    ensures e.Tick? ==> r.0 == (if s.Loading? then Loading(ContentComponent.WrappingIncrement(s.tick)) else s)
    ensures e.StartLoadingItem? ==> r.0 == Loading(0)
    ensures e.LoadedItem? ==> r.0 == Data(e.text)
  {
    match e
    case Keyboard(_) => (s, NotConsumed)
    case Tick => (if s.Loading? then Loading(ContentComponent.WrappingIncrement(s.tick)) else s, NotConsumed)
    case StartLoadingItem => (Loading(0), NotConsumed)
    case LoadedItem(text) => (Data(text), Consumed)
  }

  /** No sequence of key presses changes the pane. */
  lemma {:induction false} KeysNeverChangeState(s: LegacyContentState, codes: seq<KeyMap.KeyCode>)
    ensures Run(s, seq(|codes|, i requires 0 <= i < |codes| => Keyboard(codes[i]))) == s
    decreases |codes|
  {
    var es := seq(|codes|, i requires 0 <= i < |codes| => Keyboard(codes[i]));
    if codes != [] {
      var p := codes[..|codes| - 1];
      var ps := seq(|p|, i requires 0 <= i < |p| => Keyboard(p[i]));
      assert es[..|es| - 1] == ps;
      KeysNeverChangeState(s, p);
    }
  }

  /** The state after a whole sequence of events. */
  function Run(s: LegacyContentState, es: seq<LegacyEvent>): LegacyContentState
    decreases es
  {
    if es == [] then s else Next(Run(s, es[..|es| - 1]), es[|es| - 1]).0
  }

  class Content {
    var focused: bool
    var state: LegacyContentState

    constructor(focused: bool)
      ensures this.focused == focused && state == Empty
    {
      this.focused := focused;
      state := Empty;
    }

    method SetFocused(focused: bool)
      modifies this
      ensures this.focused == focused && state == old(state)
    {
      this.focused := focused;
    }

    method HandleEvent(e: LegacyEvent) returns (r: LegacyEventState)
      modifies this
      ensures (state, r) == Next(old(state), e) && focused == old(focused)
    {
      match e {
        case Keyboard(code) =>
          r := HandleKeyboardEvent(code);
        case Tick =>
          match state {
            case Loading(tick) =>
              state := Loading(ContentComponent.WrappingIncrement(tick));
              r := NotConsumed;
            case _ =>
              r := NotConsumed;
          }
        case StartLoadingItem =>
          state := Loading(0);
          r := NotConsumed;
        case LoadedItem(text) =>
          state := Data(text);
          r := Consumed;
      }
    }

    /** Key handling is not implemented yet: nothing is ever consumed. */
    method HandleKeyboardEvent(code: KeyMap.KeyCode) returns (r: LegacyEventState)
      ensures r == NotConsumed
    {
      if !focused {
        return NotConsumed;
      }
      r := NotConsumed;
    }
  }
}

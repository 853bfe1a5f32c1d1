/**
 * The application's event vocabulary and the `EventState` combinator
 * (simple_rss_lib/src/event.rs).
 */
module Events {
  /** Keyboard events, already decoded from key codes. */
  datatype KeyboardEvent = Left | Right | Up | Down | Back | Enter | Space | Open | Help

  /** Requests to show or hide the toast. */
  datatype ToastEvent = Loading(message: string) | Error(message: string) | Hide

  /** Everything a component may be asked to handle. */
  datatype Event =
    | Tick
    | Keyboard(key: KeyboardEvent)
    | StartLoadingItem
    | LoadedItem(text: string)
    | Toast(toast: ToastEvent)

  /** Whether a component reacted to an event (used to decide when to redraw). */
  datatype EventState = Handled | Ignored
  {
    predicate IsHandled()
    {
      this == Handled
    }

    /** Handled as soon as either side is. */
    function Or(other: EventState): (r: EventState)
      ensures r.IsHandled() <==> IsHandled() || other.IsHandled()
      ensures r == Ignored <==> this == Ignored && other == Ignored
    {
      if IsHandled() || other.IsHandled() then Handled else Ignored
    }
  }

  lemma OrCommutative(a: EventState, b: EventState)
    ensures a.Or(b) == b.Or(a)
  {
  }

  lemma OrAssociative(a: EventState, b: EventState, c: EventState)
    ensures a.Or(b).Or(c) == a.Or(b.Or(c))
  {
  }

  lemma OrIdempotent(a: EventState)
    ensures a.Or(a) == a
  {
  }

  /** Ignored is the identity of `Or`, Handled absorbs. */
  lemma OrIdentityAndAbsorption(a: EventState)
    ensures Ignored.Or(a) == a && a.Or(Ignored) == a
    ensures Handled.Or(a) == Handled && a.Or(Handled) == Handled
  {
  }

  /** Folding `Or` over any sequence of states is Handled iff one of them is. */
  function OrAll(states: seq<EventState>): (r: EventState)
    ensures r.IsHandled() <==> exists i :: 0 <= i < |states| && states[i].IsHandled()
    decreases states
  {
    if states == [] then Ignored
    else
      var r := OrAll(states[..|states| - 1]).Or(states[|states| - 1]);
      assert forall i :: 0 <= i < |states| - 1 ==> states[..|states| - 1][i] == states[i];
      r
  }
}

/**
 * Translation of terminal key codes into keyboard events (`send_keycode`
 * in src/event.rs). The channel send is output; the model returns the
 * event that would be sent, or None when nothing is sent.
 */
module KeyMap {
  import opened Options
  import Events

  /** The terminal's key codes (crossterm's `KeyCode`); variants the program never inspects are grouped. */
  datatype KeyCode =
    | Backspace | Enter | Left | Right | Up | Down
    | Home | End | PageUp | PageDown | Tab | BackTab | Delete | Insert
    | F(number: nat)
    | Char(c: char)
    | Null
    | Esc
    | OtherKey

  /** The key code decoded into at most one keyboard event. */
  function SendKeycode(code: KeyCode): Option<Events.KeyboardEvent>
  {
    match code
    case Left => Some(Events.Left)
    case Char('h') => Some(Events.Left)
    case Right => Some(Events.Right)
    case Char('l') => Some(Events.Right)
    case Up => Some(Events.Up)
    case Char('k') => Some(Events.Up)
    case Down => Some(Events.Down)
    case Char('j') => Some(Events.Down)
    case Esc => Some(Events.Back)
    case Char('q') => Some(Events.Back)
    case Enter => Some(Events.Enter)
    case Char(' ') => Some(Events.Space)
    case Char('o') => Some(Events.Open)
    case Char('?') => Some(Events.Help)
    case _ => None
  }

  /** The key bindings as a table, one row per key. */
  const Bindings: seq<(KeyCode, Events.KeyboardEvent)> := [
    (Left, Events.Left), (Char('h'), Events.Left),
    (Right, Events.Right), (Char('l'), Events.Right),
    (Up, Events.Up), (Char('k'), Events.Up),
    (Down, Events.Down), (Char('j'), Events.Down),
    (Esc, Events.Back), (Char('q'), Events.Back),
    (Enter, Events.Enter),
    (Char(' '), Events.Space),
    (Char('o'), Events.Open),
    (Char('?'), Events.Help)
  ]

  /** `SendKeycode` sends exactly the event the table lists for the key. */
  lemma SendKeycodeMatchesBindings(code: KeyCode, e: Events.KeyboardEvent)
    ensures SendKeycode(code) == Some(e) <==> (code, e) in Bindings
  {
    if (code, e) in Bindings {
      var i :| 0 <= i < |Bindings| && Bindings[i] == (code, e);
      TableRowsAreSent(i);
    }
    if SendKeycode(code) == Some(e) {
      var i := RowOf(code);
      assert Bindings[i] == (code, e);
    }
  }

  /** Every row of the table is what `SendKeycode` sends for its key. */
  lemma TableRowsAreSent(i: nat)
    requires i < |Bindings|
    ensures SendKeycode(Bindings[i].0) == Some(Bindings[i].1)
  {
  }

  /** The row of the table for a key that sends an event. */
  function RowOf(code: KeyCode): (i: nat)
    requires SendKeycode(code).Some?
    ensures i < |Bindings| && Bindings[i].0 == code
  {
    match code
    case Left => 0
    case Char('h') => 1
    case Right => 2
    case Char('l') => 3
    case Up => 4
    case Char('k') => 5
    case Down => 6
    case Char('j') => 7
    case Esc => 8
    case Char('q') => 9
    case Enter => 10
    case Char(' ') => 11
    case Char('o') => 12
    case Char('?') => 13
  }

  /** Keys missing from the table send nothing. */
  lemma UnboundKeysSendNothing(code: KeyCode)
    ensures SendKeycode(code) == None <==> forall i :: 0 <= i < |Bindings| ==> Bindings[i].0 != code
  {
    if SendKeycode(code).Some? {
      SendKeycodeMatchesBindings(code, SendKeycode(code).value);
    }
  }

  /** No key appears twice in the table, so each key sends at most one event. */
  lemma BindingsAreFunctional()
    ensures forall i, j :: 0 <= i < j < |Bindings| ==> Bindings[i].0 != Bindings[j].0
  {
  }

  /** Every keyboard event can be produced by some key. */
  lemma EveryEventHasAKey(e: Events.KeyboardEvent)
    ensures exists code :: SendKeycode(code) == Some(e)
  {
    match e
    case Left => assert SendKeycode(Left) == Some(e);
    case Right => assert SendKeycode(Right) == Some(e);
    case Up => assert SendKeycode(Up) == Some(e);
    case Down => assert SendKeycode(Down) == Some(e);
    case Back => assert SendKeycode(Esc) == Some(e);
    case Enter => assert SendKeycode(Enter) == Some(e);
    case Space => assert SendKeycode(Char(' ')) == Some(e);
    case Open => assert SendKeycode(Char('o')) == Some(e);
    case Help => assert SendKeycode(Char('?')) == Some(e);
  }
}

/**
 * The older toast of src/components/toast.rs: the same machine written as an
 * enum that replaces itself, with the hide threshold taken from the
 * application's fixed tick rate.
 */
module LegacyToast {
  import Events
  import opened ToastComponent

  /** `TICK_FPS` (src/event.rs), 30.0 ticks per second, as the integer it is cast to. */
  const TickFps: nat := 30

  /** The enum value itself; `state` stands for `*self`. */
  class Toast {
    var state: ToastState

    constructor()
      ensures state == Hidden
    {
      state := Hidden;
    }

    method HandleEvent(e: Events.Event) returns (r: Events.EventState)
      modifies this
      ensures (state, r) == Next(old(state), TickFps, e)
    {
      match e {
        case Toast(Loading(msg)) =>
          state := Loading(msg, 0);
          r := Events.Handled;
        case Toast(Error(msg)) =>
          state := Error(msg, 0);
          r := Events.Handled;
        case Toast(Hide) =>
          state := Hidden;
          r := Events.Handled;
        case Tick =>
          match state {
            case Error(err, ticks) =>
              if ticks > TickFps * 5 {
                state := Hidden;
              } else {
                state := Error(err, ticks + 1);
              }
              r := Events.Handled;
            case Loading(msg, ticks) =>
              state := Loading(msg, ticks + 1);
              r := Events.Handled;
            case Hidden =>
              r := Events.Ignored;
          }
        case Keyboard(_) =>
          r := Events.Ignored;
        case StartLoadingItem =>
          r := Events.Ignored;
        case LoadedItem(_) =>
          r := Events.Ignored;
      }
    }

    function IsHidden(): (r: bool)
      reads this
      ensures r <==> state == Hidden
    {
      state.Hidden?
    }
  }

  /** With the threshold 150 an error is still shown after 151 ticks and hidden on the 152nd. */
  lemma ErrorHidesOnTick152(msg: string)
    ensures AfterTicks(Error(msg, 0), TickFps, 151) == Error(msg, 151)
    ensures AfterTicks(Error(msg, 0), TickFps, 152) == Hidden
  {
    ErrorLifetime(msg, TickFps, 151);
    ErrorLifetime(msg, TickFps, 152);
  }
}

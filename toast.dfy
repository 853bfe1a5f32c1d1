/**
 * The toast notification of simple_rss_lib/src/components/toast.rs: a
 * message shown while something loads, or an error that disappears on its
 * own after five seconds' worth of ticks.
 */
module ToastComponent {
  import Events

  datatype ToastState =
    | Hidden
    | Loading(message: string, ticks: nat)
    | Error(error: string, ticks: nat)

  /** The state after one event and whether the toast handled it; `tickFps` ticks make a second. */
  function Next(s: ToastState, tickFps: nat, e: Events.Event): (r: (ToastState, Events.EventState))
    ensures r.1 == Events.Ignored ==> r.0 == s
    ensures r.1 == Events.Handled <==> e.Toast? || (e.Tick? && !s.Hidden?)
    ensures r.0.Error? ==>
      || (e == Events.Toast(Events.Error(r.0.error)) && r.0.ticks == 0)
      || (s.Error? && e.Tick? && r.0 == Error(s.error, s.ticks + 1) && s.ticks <= tickFps * 5)
      || (s == r.0 && !e.Toast? && !e.Tick?)
    ensures e.Toast? && e.toast.Loading? ==> r == (Loading(e.toast.message, 0), Events.Handled)
    ensures e.Toast? && e.toast.Error? ==> r == (Error(e.toast.message, 0), Events.Handled)
    ensures e == Events.Toast(Events.Hide) ==> r == (Hidden, Events.Handled)
    ensures e.Tick? && s.Loading? ==> r == (Loading(s.message, s.ticks + 1), Events.Handled)
    ensures e.Tick? && s.Error? ==>
      r == (if s.ticks <= 5 * tickFps then Error(s.error, s.ticks + 1) else Hidden, Events.Handled)
    ensures !e.Toast? && !(e.Tick? && !s.Hidden?) ==> r == (s, Events.Ignored)
  {
    match e
    case Toast(Loading(msg)) => (Loading(msg, 0), Events.Handled)
    case Toast(Error(msg)) => (Error(msg, 0), Events.Handled)
    case Toast(Hide) => (Hidden, Events.Handled)
    case Tick =>
      (match s
       case Error(err, t) => (if t > tickFps * 5 then Hidden else Error(err, t + 1), Events.Handled)
       case Loading(msg, t) => (Loading(msg, t + 1), Events.Handled)
       case Hidden => (Hidden, Events.Ignored))
    case Keyboard(_) => (s, Events.Ignored)
    case StartLoadingItem => (s, Events.Ignored)
    case LoadedItem(_) => (s, Events.Ignored)
  }

  /** The state after `k` consecutive ticks. */
  function AfterTicks(s: ToastState, tickFps: nat, k: nat): ToastState
    decreases k
  {
    if k == 0 then s else Next(AfterTicks(s, tickFps, k - 1), tickFps, Events.Tick).0
  }

  /** A fresh error is shown for ticks 0 .. 5*tickFps + 1 and hidden by tick 5*tickFps + 2. */
  lemma {:induction false} ErrorLifetime(msg: string, tickFps: nat, k: nat)
    ensures k <= 5 * tickFps + 1 ==> AfterTicks(Error(msg, 0), tickFps, k) == Error(msg, k)
    ensures k == 5 * tickFps + 2 ==> AfterTicks(Error(msg, 0), tickFps, k) == Hidden
    decreases k
  {
    if k > 0 {
      ErrorLifetime(msg, tickFps, k - 1);
    }
  }

  /** Shown error toasts never count past 5*tickFps + 1 ticks. */
  predicate TicksBounded(s: ToastState, tickFps: nat)
  {
    s.Error? ==> s.ticks <= 5 * tickFps + 1
  }

  lemma NextKeepsTicksBounded(s: ToastState, tickFps: nat, e: Events.Event)
    requires TicksBounded(s, tickFps)
    ensures TicksBounded(Next(s, tickFps, e).0, tickFps)
  {
  }

  /** A loading toast stays up and counts every tick until another toast event arrives. */
  lemma {:induction false} LoadingCountsTicks(msg: string, tickFps: nat, k: nat)
    ensures AfterTicks(Loading(msg, 0), tickFps, k) == Loading(msg, k)
    decreases k
  {
    if k > 0 {
      LoadingCountsTicks(msg, tickFps, k - 1);
    }
  }

  class Toast {
    var state: ToastState
    const tickFps: nat

    constructor(tickFps: nat)
      ensures state == Hidden && this.tickFps == tickFps
    {
      state := Hidden;
      this.tickFps := tickFps;
    }

    method HandleEvent(e: Events.Event) returns (r: Events.EventState)
      modifies this
      ensures (state, r) == Next(old(state), tickFps, e)
    {
      match e {
        case Toast(Loading(msg)) =>
          state := Loading(msg, 0);
          r := Events.Handled;
        case Toast(Error(msg)) =>
          state := Error(msg, 0);
          r := Events.Handled;
        case Toast(Hide) =>
          state := Hidden;
          r := Events.Handled;
        case Tick =>
          match state {
            case Error(err, ticks) =>
              if ticks > tickFps * 5 {
                state := Hidden;
              } else {
                state := Error(err, ticks + 1);
              }
              r := Events.Handled;
            case Loading(msg, ticks) =>
              state := Loading(msg, ticks + 1);
              r := Events.Handled;
            case Hidden =>
              r := Events.Ignored;
          }
        case Keyboard(_) =>
          r := Events.Ignored;
        case StartLoadingItem =>
          r := Events.Ignored;
        case LoadedItem(_) =>
          r := Events.Ignored;
      }
    }

    function IsHidden(): (r: bool)
      reads this
      ensures r <==> state == Hidden
    {
      state.Hidden?
    }
  }
}

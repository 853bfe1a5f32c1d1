/**
 * The content pane of simple_rss_lib/src/components/content.rs: empty, a
 * loading spinner, or a loaded article that can be scrolled and whose
 * rendered lines are cached per terminal width.
 */
module ContentComponent {
  import opened Options
  import Events

  /** Rust's `u8`. */
  newtype byte = x: int | 0 <= x < 256

  /** `u8::wrapping_add(1)`. */
  function WrappingIncrement(b: byte): (r: byte)
    ensures b < 255 ==> r as int == b as int + 1
    ensures b == 255 ==> r == 0
  {
    ((b as int + 1) % 256) as byte
  }

  /** The lines of the article rendered for one terminal width. */
  datatype RenderCache = RenderCache(lines: seq<string>, renderWidth: nat)

  /** The largest scroll offset: five lines fewer than the article, or 0 (`saturating_sub(5)`). */
  function MaxOffset(nrLines: nat): nat
  {
    if nrLines >= 5 then nrLines - 5 else 0
  }

  /** The scroll offset after a key, and whether the article handled the key. */
  function Scroll(offset: nat, cache: Option<RenderCache>, key: Events.KeyboardEvent): (r: (nat, Events.EventState))
    ensures r.1 == Events.Handled <==> key == Events.Up || key == Events.Down
    ensures key == Events.Up ==> r.0 <= offset && offset <= r.0 + 1 && (r.0 == 0 || r.0 + 1 == offset)
    ensures key == Events.Down && cache.Some? ==>
      && r.0 <= offset + 1 && r.0 <= MaxOffset(|cache.value.lines|)
      && (r.0 == offset + 1 || r.0 == MaxOffset(|cache.value.lines|))
    ensures !(key == Events.Up) && !(key == Events.Down && cache.Some?) ==> r.0 == offset
  {
    match key
    case Up => (if offset > 0 then offset - 1 else 0, Events.Handled)
    case Down =>
      (match cache
       case Some(c) =>
         var next := offset + 1;
         var limit := MaxOffset(|c.lines|);
         (if next < limit then next else limit, Events.Handled)
       case None => (offset, Events.Handled))
    case _ => (offset, Events.Ignored)
  }

  /** Once within range, scrolling keeps the offset within range. */
  lemma ScrollStaysInRange(offset: nat, c: RenderCache, key: Events.KeyboardEvent)
    requires offset <= MaxOffset(|c.lines|)
    ensures Scroll(offset, Some(c), key).0 <= MaxOffset(|c.lines|)
  {
  }

  /** Down then Up returns to the same line unless Down hit the bottom. */
  lemma DownThenUp(offset: nat, c: RenderCache)
    requires offset < MaxOffset(|c.lines|)
    ensures Scroll(Scroll(offset, Some(c), Events.Down).0, Some(c), Events.Up).0 == offset
  {
  }

  /** At the bottom, Down changes nothing. */
  lemma DownAtBottomStays(c: RenderCache)
    ensures Scroll(MaxOffset(|c.lines|), Some(c), Events.Down).0 == MaxOffset(|c.lines|)
  {
  }

  /** A loaded article (`ContentStateData`), updated in place. */
  class ContentStateData {
    var rawText: string
    var scrollOffset: nat
    var renderCache: Option<RenderCache>

    constructor(text: string)
      ensures rawText == text && scrollOffset == 0 && renderCache == None
    {
      rawText := text;
      scrollOffset := 0;
      renderCache := None;
    }

    method HandleKeyboardEvent(key: Events.KeyboardEvent) returns (r: Events.EventState)
      modifies this
      ensures (scrollOffset, r) == Scroll(old(scrollOffset), old(renderCache), key)
      ensures rawText == old(rawText) && renderCache == old(renderCache)
    {
      match key {
        case Up =>
          if scrollOffset > 0 {
            scrollOffset := scrollOffset - 1;
          }
          r := Events.Handled;
        case Down =>
          if renderCache.Some? {
            var nrLines := |renderCache.value.lines|;
            scrollOffset := scrollOffset + 1;
            var limit := if nrLines >= 5 then nrLines - 5 else 0;
            if limit < scrollOffset {
              scrollOffset := limit;
            }
          }
          r := Events.Handled;
        case _ =>
          r := Events.Ignored;
      }
    }

    /** The cache holds what the renderer gives for the text at the cached width (minus the border). */
    predicate CacheCoherent(render: (string, nat) -> seq<string>)
      reads this
    {
      renderCache.Some? ==>
        renderCache.value.renderWidth >= 2
        && renderCache.value.lines == render(rawText, renderCache.value.renderWidth - 2)
    }

    /**
     * The rendered lines for a pane `width` columns wide, re-rendering only
     * when there is no cache or it was made for another width.
     */
    method GetRenderCache(width: nat, render: (string, nat) -> seq<string>) returns (lines: seq<string>)
      requires width >= 2
      modifies this
      ensures old(renderCache).Some? && old(renderCache).value.renderWidth == width ==> renderCache == old(renderCache)
      ensures !(old(renderCache).Some? && old(renderCache).value.renderWidth == width)
        ==> renderCache == Some(RenderCache(render(rawText, width - 2), width))
      ensures renderCache.Some? && renderCache.value.renderWidth == width && lines == renderCache.value.lines
      ensures rawText == old(rawText) && scrollOffset == old(scrollOffset)
      ensures old(CacheCoherent(render)) ==> CacheCoherent(render) && lines == render(rawText, width - 2)
    {
      if renderCache.None? || renderCache.value.renderWidth != width {
        RecalculateRenderCache(width, render);
      }
      lines := renderCache.value.lines;
    }

    method RecalculateRenderCache(width: nat, render: (string, nat) -> seq<string>)
      requires width >= 2
      modifies this
      ensures renderCache == Some(RenderCache(render(rawText, width - 2), width))
      ensures rawText == old(rawText) && scrollOffset == old(scrollOffset)
      ensures CacheCoherent(render)
    {
      renderCache := Some(RenderCache(render(rawText, width - 2), width));
    }
  }

  datatype ContentState = Empty | Loading(tick: byte) | Data(data: ContentStateData)

  /** The content of the pane as a value, looking through the article object. */
  datatype ContentView =
    | EmptyView
    | LoadingView(tick: byte)
    | DataView(rawText: string, scrollOffset: nat, renderCache: Option<RenderCache>)

  /** The pane's view after one event, and whether the pane handled it. */
  function NextView(v: ContentView, focused: bool, e: Events.Event): (r: (ContentView, Events.EventState))
    ensures r.1 == Events.Ignored ==> r.0 == v
    ensures e.Keyboard? && !(focused && v.DataView?) ==> r == (v, Events.Ignored)
    ensures e.Tick? ==> (r.1 == Events.Handled <==> v.LoadingView?)
    ensures e.Toast? ==> r == (v, Events.Ignored)
    ensures e.Tick? && v.LoadingView? ==> r == (LoadingView(WrappingIncrement(v.tick)), Events.Handled)
    ensures e == Events.StartLoadingItem ==> r == (LoadingView(0), Events.Handled)
    ensures e.LoadedItem? ==> r == (DataView(e.text, 0, None), Events.Handled)
    ensures e.Keyboard? && focused && v.DataView? ==>
      var s := Scroll(v.scrollOffset, v.renderCache, e.key);
      r == (v.(scrollOffset := s.0), s.1)
  {
    match e
    case Keyboard(key) =>
      if focused && v.DataView? then
        var s := Scroll(v.scrollOffset, v.renderCache, key);
        (v.(scrollOffset := s.0), s.1)
      else (v, Events.Ignored)
    case Tick =>
      if v.LoadingView? then (LoadingView(WrappingIncrement(v.tick)), Events.Handled) else (v, Events.Ignored)
    case StartLoadingItem => (LoadingView(0), Events.Handled)
    case LoadedItem(text) => (DataView(text, 0, None), Events.Handled)
    case Toast(_) => (v, Events.Ignored)
  }

  /** The spinner counter wraps: 256 ticks bring a loading pane back to the same tick. */
  function LoadingAfterTicks(t: byte, k: nat): (r: byte)
    ensures r as int == (t as int + k) % 256
    decreases k
  {
    if k == 0 then t
    else
      var prev := LoadingAfterTicks(t, k - 1);
      WrapStep(prev, t, k);
      NextView(LoadingView(prev), false, Events.Tick).0.tick
  }

  /** One more wrapping increment adds one more tick modulo 256. */
  lemma WrapStep(prev: byte, t: byte, k: nat)
    requires k > 0 && prev as int == (t as int + k - 1) % 256
    ensures WrappingIncrement(prev) as int == (t as int + k) % 256
  {
    assert (prev as int + 1) % 256 == (t as int + k) % 256;
  }

  /** Loading an item always ends in a fresh article at the top, whatever came before. */
  lemma StartThenLoad(v: ContentView, focused: bool, text: string)
    ensures NextView(NextView(v, focused, Events.StartLoadingItem).0, focused, Events.LoadedItem(text))
      == (DataView(text, 0, None), Events.Handled)
  {
  }

  class Content {
    var focused: bool
    var state: ContentState

    constructor(focused: bool)
      ensures this.focused == focused && state == Empty
    {
      this.focused := focused;
      state := Empty;
    }

    method SetFocused(focused: bool)
      modifies this
      ensures this.focused == focused && state == old(state)
    {
      this.focused := focused;
    }

    /** The objects `HandleEvent` may update: the pane and its current article. */
    function Footprint(): set<object>
      reads this
    {
      if state.Data? then {this, state.data} else {this}
    }

    function View(): ContentView
      reads Footprint()
    {
      match state
      case Empty => EmptyView
      case Loading(t) => LoadingView(t)
      case Data(d) => DataView(d.rawText, d.scrollOffset, d.renderCache)
    }

    method HandleEvent(e: Events.Event) returns (r: Events.EventState)
      modifies Footprint()
      ensures (View(), r) == NextView(old(View()), old(focused), e)
      ensures focused == old(focused)
      ensures !e.LoadedItem? && state.Data? && old(state).Data? ==> state.data == old(state).data
      ensures e.LoadedItem? ==> state.Data? && fresh(state.data)
    {
      match e {
        case Keyboard(key) =>
          r := HandleKeyboardEvent(key);
        case Tick =>
          match state {
            case Loading(tick) =>
              state := Loading(WrappingIncrement(tick));
              r := Events.Handled;
            case _ =>
              r := Events.Ignored;
          }
        case StartLoadingItem =>
          state := Loading(0);
          r := Events.Handled;
        case LoadedItem(text) =>
          var data := new ContentStateData(text);
          state := Data(data);
          r := Events.Handled;
        case Toast(_) =>
          r := Events.Ignored;
      }
    }

    method HandleKeyboardEvent(key: Events.KeyboardEvent) returns (r: Events.EventState)
      modifies Footprint()
      ensures (View(), r) == NextView(old(View()), focused, Events.Keyboard(key))
      ensures focused == old(focused) && state == old(state)
    {
      if !focused {
        return Events.Ignored;
      }
      match state {
        case Data(data) =>
          r := data.HandleKeyboardEvent(key);
        case _ =>
          r := Events.Ignored;
      }
    }
  }
}

/**
 * The item list of simple_rss_lib/src/components/item_list.rs: key handling
 * that opens, loads and marks items read, the per-width, per-version cache
 * of rendered list items, and the layout of one list item.
 */
module ItemListComponent {
  import opened Options
  import Events

  /** A feed item; `pubDate` is the publication date already formatted as year-month-day. */
  datatype Item = Item(
    id: string,
    channelName: string,
    title: string,
    description: Option<string>,
    pubDate: Option<string>,
    link: string,
    read: bool)

  datatype Config = Config(disableReadStatus: bool, disableChannelNames: bool, disableBrowserOpen: bool)

  /** The data source: the items and a version that changes whenever they do. */
  class Loader {
    var items: seq<Item>
    var version: nat

    constructor(items: seq<Item>)
      ensures this.items == items && version == 0
    {
      this.items := items;
      version := 0;
    }

    /** Set the read flag of item `index`; a change of data moves the version on. */
    method SetRead(index: nat, read: bool)
      requires index < |items|
      modifies this
      ensures items == old(items)[index := old(items)[index].(read := read)]
      ensures version == old(version) + 1
    {
      items := items[index := items[index].(read := read)];
      version := version + 1;
    }
  }

  // ---------------------------------------------------------------------
  // Layout of one list item
  // ---------------------------------------------------------------------

  /** A line of styled text, as its spans. */
  type Line = seq<string>

  /** The options handed to the line wrapper: width and first/other line indents. */
  datatype WrapOptions = WrapOptions(width: nat, initialIndent: string, subsequentIndent: string)

  const Indent: string := "    "

  /** Options for the title: a read marker in front when read status is shown. */
  function TitleOptions(it: Item, width: nat, config: Config): (o: WrapOptions)
    requires width >= 1
    ensures o.width == width - 1
    ensures o.initialIndent == "[X] " <==> !config.disableReadStatus && it.read
    ensures o.initialIndent == "[ ] " <==> !config.disableReadStatus && !it.read
    ensures o.initialIndent == "" <==> config.disableReadStatus
  {
    if config.disableReadStatus then WrapOptions(width - 1, "", "")
    else WrapOptions(width - 1, if it.read then "[X] " else "[ ] ", Indent)
  }

  /** Options for the channel name: indented when read status is shown. */
  function ChannelOptions(width: nat, config: Config): WrapOptions
    requires width >= 2
  {
    if config.disableReadStatus then WrapOptions(width - 2, "", "")
    else WrapOptions(width - 2, Indent, Indent)
  }

  /** Each wrapped string becomes a line of one span. */
  function OneSpanLines(ss: seq<string>): (r: seq<Line>)
    ensures |r| == |ss| && forall i :: 0 <= i < |ss| ==> r[i] == [ss[i]]
  {
    seq(|ss|, i requires 0 <= i < |ss| => [ss[i]])
  }

  /** Display width of channel and date, plus the indent when read status is shown. */
  function TotalWidth(it: Item, config: Config, w: string -> nat): nat
    requires it.pubDate.Some?
  {
    w(it.channelName) + w(it.pubDate.value) + (if config.disableReadStatus then 0 else 4)
  }

  /** Widths for which laying out the item does not underflow. */
  predicate WidthFits(it: Item, width: nat, config: Config)
  {
    width >= 2 && (it.pubDate.Some? && !config.disableChannelNames ==> width >= 3)
  }

  /** Channel and date fit on one line with room to spare. */
  predicate FitsOneLine(it: Item, width: nat, config: Config, w: string -> nat)
  {
    it.pubDate.Some? && !config.disableChannelNames && width >= 3 && TotalWidth(it, config, w) < width - 3
  }

  function Spaces(n: nat): seq<string>
  {
    seq(n, _ => " ")
  }

  /** The one-line layout: indent, channel, padding spaces, date. */
  function OneLineSpans(it: Item, width: nat, config: Config, w: string -> nat): Line
    requires FitsOneLine(it, width, config, w)
  {
    (if config.disableReadStatus then [] else [Indent])
    + [it.channelName]
    + Spaces(width - TotalWidth(it, config, w) - 1)
    + [it.pubDate.value]
  }

  /** The lines of a list item `width` columns wide. */
  function ListItemLines(it: Item, width: nat, config: Config, wrap: (string, WrapOptions) -> seq<string>,
                         w: string -> nat): (r: seq<Line>)
    requires WidthFits(it, width, config)
    ensures var title := OneSpanLines(wrap(it.title, TitleOptions(it, width, config)));
      |r| > |title| && r[..|title|] == title && r[|r| - 1] == [""]
  {
    var title := OneSpanLines(wrap(it.title, TitleOptions(it, width, config)));
    var rest :=
      if it.pubDate.None? then
        (if config.disableChannelNames then [] else OneSpanLines(wrap(it.channelName, ChannelOptions(width, config))))
      else if config.disableChannelNames then
        [[if config.disableReadStatus then it.pubDate.value else Indent + it.pubDate.value]]
      else if FitsOneLine(it, width, config, w) then
        [OneLineSpans(it, width, config, w)]
      else
        OneSpanLines(wrap(it.channelName, ChannelOptions(width, config))) + [[Indent + it.pubDate.value]];
    title + rest + [[""]]
  }

  /** Lay out one item, line by line (`item_to_list_item`). */
  method ItemToListItem(it: Item, width: nat, config: Config, wrap: (string, WrapOptions) -> seq<string>,
                        w: string -> nat) returns (text: seq<Line>)
    requires WidthFits(it, width, config)
    ensures text == ListItemLines(it, width, config, wrap, w)
  {
    text := OneSpanLines(wrap(it.title, TitleOptions(it, width, config)));
    var opts := ChannelOptions(width, config);

    if it.pubDate.None? {
      if !config.disableChannelNames {
        text := text + OneSpanLines(wrap(it.channelName, opts));
      }
      text := text + [[""]];
      return;
    }
    var pubTime := it.pubDate.value;

    if config.disableChannelNames {
      var line := if config.disableReadStatus then pubTime else Indent + pubTime;
      text := text + [[line]];
      text := text + [[""]];
      return;
    }

    var totalWidth := w(it.channelName) + w(pubTime);
    if !config.disableReadStatus {
      totalWidth := totalWidth + 4;
    }

    if totalWidth < width - 3 {
      var line: Line := if config.disableReadStatus then [] else [Indent];
      line := line + [it.channelName];
      var space := width - totalWidth - 1;
      var start := line;
      for i := 0 to space
        invariant line == start + Spaces(i)
      {
        line := line + [" "];
      }
      line := line + [pubTime];
      text := text + [line];
      text := text + [[""]];
      return;
    }

    text := text + OneSpanLines(wrap(it.channelName, opts));
    text := text + [[Indent + pubTime]];
    text := text + [[""]];
  }

  /** The display width of a line: the sum of its spans' widths. */
  function LineWidth(line: Line, w: string -> nat): nat
    decreases line
  {
    if line == [] then 0 else LineWidth(line[..|line| - 1], w) + w(line[|line| - 1])
  }

  lemma {:induction false} LineWidthAppend(a: Line, b: Line, w: string -> nat)
    ensures LineWidth(a + b, w) == LineWidth(a, w) + LineWidth(b, w)
    decreases b
  {
    if b != [] {
      assert (a + b)[..|a + b| - 1] == a + b[..|b| - 1];
      assert (a + b)[|a + b| - 1] == b[|b| - 1];
      LineWidthAppend(a, b[..|b| - 1], w);
    } else {
      assert a + b == a;
    }
  }

  lemma {:induction false} SpacesWidth(n: nat, w: string -> nat)
    requires w(" ") == 1
    ensures LineWidth(Spaces(n), w) == n
  {
    if n > 0 {
      assert Spaces(n)[..n - 1] == Spaces(n - 1);
      SpacesWidth(n - 1, w);
    }
  }

  /**
   * In the one-line layout the indent, channel, padding and date fill exactly
   * `width - 1` columns, with at least three spaces of padding.
   */
  lemma OneLineFillsWidth(it: Item, width: nat, config: Config, w: string -> nat)
    requires FitsOneLine(it, width, config, w)
    requires w(" ") == 1 && w(Indent) == 4
    ensures LineWidth(OneLineSpans(it, width, config, w), w) == width - 1
    ensures width - TotalWidth(it, config, w) - 1 >= 3
  {
    var pad := width - TotalWidth(it, config, w) - 1;
    var head: Line := (if config.disableReadStatus then [] else [Indent]) + [it.channelName];
    LineWidthAppend(head, Spaces(pad), w);
    LineWidthAppend(head + Spaces(pad), [it.pubDate.value], w);
    SpacesWidth(pad, w);
    assert LineWidth([it.pubDate.value], w) == w(it.pubDate.value);
    if config.disableReadStatus {
      assert LineWidth(head, w) == w(it.channelName) by {
        assert head[..0] == [];
      }
    } else {
      LineWidthAppend([Indent], [it.channelName], w);
      assert LineWidth([Indent], w) == 4;
    }
  }

  // ---------------------------------------------------------------------
  // Key handling
  // ---------------------------------------------------------------------

  /** What a key press does: which read flag is set to what, and which side effects are requested. */
  datatype KeyEffect = KeyEffect(
    setRead: Option<(nat, bool)>,
    openLink: bool,
    startLoading: bool,
    state: Events.EventState)

  const NoEffect := KeyEffect(None, false, false, Events.Ignored)

  /** The effect of a key on the list with the given selection. */
  function KeyEffectOf(key: Events.KeyboardEvent, config: Config, focused: bool, selected: Option<nat>,
                       items: seq<Item>): (r: KeyEffect)
    requires selected.Some? ==> selected.value < |items|
    ensures r.state == Events.Ignored ==> r == NoEffect
    ensures r.setRead.Some? ==> selected == Some(r.setRead.value.0) && !config.disableReadStatus
    ensures (r.openLink || r.startLoading) ==> selected.Some?
  {
    if key == Events.Open && !config.disableBrowserOpen then
      match selected
      case Some(i) => KeyEffect(if config.disableReadStatus then None else Some((i, true)), true, false, Events.Handled)
      case None => KeyEffect(None, false, false, Events.Handled)
    else if !focused then NoEffect
    else
      match key
      case Up => KeyEffect(None, false, false, Events.Handled)
      case Down => KeyEffect(None, false, false, Events.Handled)
      case Enter =>
        (match selected
         case Some(i) => KeyEffect(if config.disableReadStatus then None else Some((i, true)), false, true, Events.Handled)
         case None => KeyEffect(None, false, false, Events.Handled))
      case Space =>
        (match selected
         case Some(i) => KeyEffect(if config.disableReadStatus then None else Some((i, !items[i].read)), false, false, Events.Handled)
         case None => KeyEffect(None, false, false, Events.Handled))
      case _ => NoEffect
  }

  /** The items after the read-flag update of an effect. */
  function ApplyRead(items: seq<Item>, setRead: Option<(nat, bool)>): (r: seq<Item>)
    requires setRead.Some? ==> setRead.value.0 < |items|
    ensures |r| == |items|
    ensures forall j :: 0 <= j < |items| ==> r[j].(read := items[j].read) == items[j]
    ensures forall j :: 0 <= j < |items| && (setRead.None? || j != setRead.value.0) ==> r[j] == items[j]
  {
    match setRead
    case Some((i, b)) => items[i := items[i].(read := b)]
    case None => items
  }

  /** With browser opening enabled, Open is handled whatever the focus, and marks the selection read. */
  lemma OpenIgnoresFocus(config: Config, focused: bool, selected: Option<nat>, items: seq<Item>)
    requires !config.disableBrowserOpen && (selected.Some? ==> selected.value < |items|)
    ensures KeyEffectOf(Events.Open, config, focused, selected, items).state == Events.Handled
    ensures KeyEffectOf(Events.Open, config, focused, selected, items).openLink == selected.Some?
    ensures KeyEffectOf(Events.Open, config, focused, selected, items).setRead ==
      if selected.Some? && !config.disableReadStatus then Some((selected.value, true)) else None
  {
  }

  /** Unfocused, every other key is ignored without effect. */
  lemma UnfocusedIgnoresOtherKeys(key: Events.KeyboardEvent, config: Config, selected: Option<nat>, items: seq<Item>)
    requires !(key == Events.Open && !config.disableBrowserOpen) && (selected.Some? ==> selected.value < |items|)
    ensures KeyEffectOf(key, config, false, selected, items) == NoEffect
  {
  }

  /** Space and Enter are handled even with nothing selected; Enter loads and marks read, Space flips the flag. */
  lemma EnterAndSpaceRules(config: Config, selected: Option<nat>, items: seq<Item>)
    requires selected.Some? ==> selected.value < |items|
    ensures KeyEffectOf(Events.Enter, config, true, selected, items).state == Events.Handled
    ensures KeyEffectOf(Events.Space, config, true, selected, items).state == Events.Handled
    ensures KeyEffectOf(Events.Enter, config, true, selected, items).startLoading == selected.Some?
    ensures selected.Some? && !config.disableReadStatus ==>
      && ApplyRead(items, KeyEffectOf(Events.Enter, config, true, selected, items).setRead)[selected.value].read
      && ApplyRead(items, KeyEffectOf(Events.Space, config, true, selected, items).setRead)[selected.value].read
         == !items[selected.value].read
    ensures config.disableReadStatus ==>
      && KeyEffectOf(Events.Enter, config, true, selected, items).setRead == None
      && KeyEffectOf(Events.Space, config, true, selected, items).setRead == None
  {
  }

  /** Pressing Space twice on the same item restores every read flag. */
  lemma SpaceTwiceRestores(config: Config, selected: Option<nat>, items: seq<Item>)
    requires selected.Some? ==> selected.value < |items|
    ensures var once := ApplyRead(items, KeyEffectOf(Events.Space, config, true, selected, items).setRead);
      ApplyRead(once, KeyEffectOf(Events.Space, config, true, selected, once).setRead) == items
  {
    var once := ApplyRead(items, KeyEffectOf(Events.Space, config, true, selected, items).setRead);
    var twice := ApplyRead(once, KeyEffectOf(Events.Space, config, true, selected, once).setRead);
    assert forall j :: 0 <= j < |items| ==> twice[j] == items[j];
  }

  // ---------------------------------------------------------------------
  // The list component
  // ---------------------------------------------------------------------

  /** Rendered list items, with the width and data version they were made for. */
  datatype RenderCache = RenderCache(list: seq<seq<Line>>, width: nat, version: nat)

  predicate AllFit(items: seq<Item>, width: nat, config: Config)
  {
    forall i :: 0 <= i < |items| ==> WidthFits(items[i], width, config)
  }

  /** The rendered list for the given items and width. */
  function ListOf(items: seq<Item>, width: nat, config: Config, wrap: (string, WrapOptions) -> seq<string>,
                  w: string -> nat): (r: seq<seq<Line>>)
    requires AllFit(items, width, config)
    ensures |r| == |items| && forall i :: 0 <= i < |items| ==> r[i] == ListItemLines(items[i], width, config, wrap, w)
  {
    seq(|items|, i requires 0 <= i < |items| => ListItemLines(items[i], width, config, wrap, w))
  }

  /** Lay out every item (the list built in `recalculate_render_cache`). */
  method BuildList(items: seq<Item>, width: nat, config: Config, wrap: (string, WrapOptions) -> seq<string>,
                   w: string -> nat) returns (list: seq<seq<Line>>)
    requires AllFit(items, width, config)
    ensures list == ListOf(items, width, config, wrap, w)
  {
    list := [];
    for i := 0 to |items|
      invariant |list| == i
      invariant forall j :: 0 <= j < i ==> list[j] == ListItemLines(items[j], width, config, wrap, w)
    {
      var item := ItemToListItem(items[i], width, config, wrap, w);
      list := list + [item];
    }
  }

  class ItemList {
    const config: Config
    var focused: bool
    /** The selected row (`ListState::selected`). */
    var selected: Option<nat>
    const loader: Loader
    var renderCache: Option<RenderCache>
    /** Events sent to the application. */
    var sent: seq<Events.Event>
    /** Links handed to the web browser. */
    var browserOpened: seq<string>
    /** Links whose loading was started. */
    var loadRequests: seq<string>
    /** The line wrapper and the display width of a string. */
    const wrap: (string, WrapOptions) -> seq<string>
    const strWidth: string -> nat

    constructor(focused: bool, loader: Loader, config: Config, wrap: (string, WrapOptions) -> seq<string>,
                strWidth: string -> nat)
      ensures this.focused == focused && this.loader == loader && this.config == config
      ensures this.wrap == wrap && this.strWidth == strWidth
      ensures selected == None && renderCache == None && sent == [] && browserOpened == [] && loadRequests == []
    {
      this.config := config;
      this.focused := focused;
      selected := None;
      this.loader := loader;
      renderCache := None;
      sent := [];
      browserOpened := [];
      loadRequests := [];
      this.wrap := wrap;
      this.strWidth := strWidth;
    }

    method SetFocused(focused: bool)
      modifies this
      ensures this.focused == focused
      ensures selected == old(selected) && renderCache == old(renderCache)
      ensures sent == old(sent) && browserOpened == old(browserOpened) && loadRequests == old(loadRequests)
    {
      this.focused := focused;
    }

    /**
     * The cache is current: built from the loader's items at its width when
     * its version is the loader's, and never ahead of the loader.
     */
    predicate CacheCoherent()
      reads this, loader
    {
      renderCache.Some? ==>
        && renderCache.value.version <= loader.version
        && (renderCache.value.version == loader.version ==>
              && AllFit(loader.items, renderCache.value.width, config)
              && renderCache.value.list == ListOf(loader.items, renderCache.value.width, config, wrap, strWidth))
    }

    method HandleEvent(e: Events.Event) returns (r: Events.EventState)
      requires selected.Some? ==> selected.value < |loader.items|
      modifies this, loader
      ensures e.Keyboard? ==>
        var k := KeyEffectOf(e.key, config, old(focused), old(selected), old(loader.items));
        && r == k.state
        && loader.items == ApplyRead(old(loader.items), k.setRead)
        && loader.version == old(loader.version) + (if k.setRead.Some? then 1 else 0)
        && browserOpened == old(browserOpened) + (if k.openLink then [old(loader.items)[old(selected).value].link] else [])
        && loadRequests == old(loadRequests) + (if k.startLoading then [old(loader.items)[old(selected).value].link] else [])
        && sent == old(sent) + (if k.startLoading then [Events.StartLoadingItem] else [])
      ensures !e.Keyboard? ==>
        && r == Events.Ignored && loader.items == old(loader.items) && loader.version == old(loader.version)
        && browserOpened == old(browserOpened) && loadRequests == old(loadRequests) && sent == old(sent)
      ensures focused == old(focused) && selected == old(selected) && renderCache == old(renderCache)
      ensures old(CacheCoherent()) ==> CacheCoherent()
    {
      match e {
        case Keyboard(key) =>
          r := HandleKeyboardEvent(key);
        case _ =>
          r := Events.Ignored;
      }
    }

    method HandleKeyboardEvent(key: Events.KeyboardEvent) returns (r: Events.EventState)
      requires selected.Some? ==> selected.value < |loader.items|
      modifies this, loader
      ensures var k := KeyEffectOf(key, config, old(focused), old(selected), old(loader.items));
        && r == k.state
        && loader.items == ApplyRead(old(loader.items), k.setRead)
        && loader.version == old(loader.version) + (if k.setRead.Some? then 1 else 0)
        && browserOpened == old(browserOpened) + (if k.openLink then [old(loader.items)[old(selected).value].link] else [])
        && loadRequests == old(loadRequests) + (if k.startLoading then [old(loader.items)[old(selected).value].link] else [])
        && sent == old(sent) + (if k.startLoading then [Events.StartLoadingItem] else [])
      ensures focused == old(focused) && selected == old(selected) && renderCache == old(renderCache)
      ensures old(CacheCoherent()) ==> CacheCoherent()
    {
      if key == Events.Open && !config.disableBrowserOpen {
        if selected.Some? {
          var i := selected.value;
          browserOpened := browserOpened + [loader.items[i].link];
          if !config.disableReadStatus {
            loader.SetRead(i, true);
          }
        }
        return Events.Handled;
      }

      if !focused {
        return Events.Ignored;
      }

      match key {
        case Up =>
          r := Events.Handled;
        case Down =>
          r := Events.Handled;
        case Enter =>
          if selected.Some? {
            var i := selected.value;
            loadRequests := loadRequests + [loader.items[i].link];
            sent := sent + [Events.StartLoadingItem];
            if !config.disableReadStatus {
              loader.SetRead(i, true);
            }
          }
          r := Events.Handled;
        case Space =>
          if selected.Some? {
            var i := selected.value;
            var newRead := !loader.items[i].read;
            if !config.disableReadStatus {
              loader.SetRead(i, newRead);
            }
          }
          r := Events.Handled;
        case _ =>
          r := Events.Ignored;
      }
    }

    /**
     * The rendered list for an area `width` columns wide, rebuilt only when
     * there is no cache, or it was made for another width or data version.
     */
    method GetRenderCache(width: nat) returns (list: seq<seq<Line>>)
      requires renderCache.None? || renderCache.value.width != width || renderCache.value.version != loader.version
        ==> AllFit(loader.items, width, config)
      modifies this
      ensures var stale := old(renderCache).None? || old(renderCache).value.width != width
          || old(renderCache).value.version != loader.version;
        && (stale ==> renderCache == Some(RenderCache(ListOf(loader.items, width, config, wrap, strWidth), width, loader.version)))
        && (!stale ==> renderCache == old(renderCache))
      ensures renderCache.Some? && renderCache.value.width == width && renderCache.value.version == loader.version
      ensures list == renderCache.value.list
      ensures old(CacheCoherent()) ==> CacheCoherent() && list == ListOf(loader.items, width, config, wrap, strWidth)
      ensures focused == old(focused) && selected == old(selected)
      ensures sent == old(sent) && browserOpened == old(browserOpened) && loadRequests == old(loadRequests)
    {
      if renderCache.None? || renderCache.value.width != width || renderCache.value.version != loader.version {
        RecalculateRenderCache(width);
      }
      list := renderCache.value.list;
    }

    method RecalculateRenderCache(width: nat)
      requires AllFit(loader.items, width, config)
      modifies this
      ensures renderCache == Some(RenderCache(ListOf(loader.items, width, config, wrap, strWidth), width, loader.version))
      ensures focused == old(focused) && selected == old(selected)
      ensures sent == old(sent) && browserOpened == old(browserOpened) && loadRequests == old(loadRequests)
      ensures CacheCoherent()
    {
      var list := BuildList(loader.items, width, config, wrap, strWidth);
      renderCache := Some(RenderCache(list, width, loader.version));
    }
  }
}

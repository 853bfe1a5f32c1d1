# simple-rss core, modelled in Dafny

simple-rss is a terminal RSS reader. This project models its core logic and proves properties of it.

- **HTML-to-text renderer** (`src/html_render.rs`). A depth-first walk over a parsed document tree appends to one output string.
  - Every call carries a `Context`: a separator kind plus an indent.
  - Every call returns a three-valued `RenderStatus`.
  - Generic block elements choose each child's context from the status of the last child that rendered.
  - `ol` numbers only the children that rendered.
- **Event-driven components** of the terminal user interface (`simple_rss_lib`):
  - the focus machine of `App`;
  - the content pane, with its scroll clamp and render cache;
  - the toast timer;
  - the item list: key effects, render-cache invalidation and the one-line layout arithmetic;
  - the help popup;
  - the `EventState::or` combinator.
- **Older binary-crate copies** of the content pane and the toast, the key-code mapping `send_keycode`, and the spinner frames.

Modules, one per source file:

| module | file | source |
|---|---|---|
| `HtmlRender` | html_render.dfy | the walker: the spec functions `Render`/`Children`/`UlLoop`/`OlLoop`/`BlockLoop` and the imperative `RenderNode`/`RenderChildren`/`RenderContext`, which append to a `Buffer` |
| `HtmlRenderProofs` | html_render_proofs.dfy | properties of the walker |
| `Events` | events.dfy | simple_rss_lib/src/event.rs |
| `KeyMap` | key_map.dfy | src/event.rs |
| `Spinner` | spinner.dfy | src/components/mod.rs |
| `ToastComponent` | toast.dfy | simple_rss_lib/src/components/toast.rs |
| `LegacyToast` | legacy_toast.dfy | src/components/toast.rs |
| `ContentComponent` | content.dfy | simple_rss_lib/src/components/content.rs |
| `LegacyContent` | legacy_content.dfy | src/components/content.rs |
| `ItemListComponent` | item_list.dfy | simple_rss_lib/src/components/item_list.rs, plus the `Loader` of simple_rss_lib/src/data.rs |
| `HelpComponent` | help.dfy | simple_rss_lib/src/components/help.rs |
| `AppFocus` | app.dfy | simple_rss_lib/src/app.rs |
| `Options` | options.dfy | Rust's `Option` |

Each imperative method is proved against a pure function of its inputs and old state, and the properties are proved about those functions.

- A state machine's `HandleEvent` method ensures that its new state and result equal a transition function (`Next`, `NextView`, `Step`, `KeyEffectOf`).
- The renderer's methods ensure that the buffer's new contents are the old contents followed by `Render(n, ctx).text`.

The renderer is deliberately small:

- the renderer has exactly five context types;
- a `ul` item separator is `"\n* "`;
- an `ol` item separator is `"\n"`, the decimal ordinal, then `" "`;
- there is no word wrapping, and the output is one string, not lines;
- `span` passes the lookahead `' '` to `render_context`.

## Model

| member | source | states |
|---|---|---|
| HtmlRender.Context.Merge | src/html_render.rs:40-51 | The merged type is the one of higher precedence, and the incoming one on a tie. The indent is copied unchanged. |
| HtmlRender.TrimStartSpec | src/html_render.rs:87 | `trim_start` keeps a suffix that is empty or starts with non-whitespace; everything dropped is whitespace. |
| HtmlRender.TrimEndSpec | src/html_render.rs:87 | `trim_end` keeps a prefix that is empty or ends with non-whitespace; everything dropped is whitespace. |
| HtmlRender.TrimSpec | src/html_render.rs:87-90 | `trim` gives "" iff the text is all whitespace. Otherwise it is a slice of the text that starts and ends with non-whitespace. |
| HtmlRender.ReplaceNewlinesSpec | src/html_render.rs:92 | Every `'\n'` becomes `' '`; every other character is kept, position by position. |
| HtmlRender.Decimal | src/html_render.rs:229 | `format!("{}", n)` is a non-empty digit string without a leading zero. |
| HtmlRender.Buffer.Push | src/html_render.rs:208 | `String::push` appends exactly one character. |
| HtmlRender.Buffer.PushStr | src/html_render.rs:95 | `String::push_str` appends exactly the given string. |
| HtmlRender.RenderContext | src/html_render.rs:203-231 | Appends exactly `Separator(ctx, first)` to the buffer, and nothing else. |
| HtmlRender.PushIndent | src/html_render.rs:213-215 | The indent loop appends `ctx.indent` spaces. |
| HtmlRender.RenderNode | src/html_render.rs:82-188 | The buffer becomes its old contents followed by `Render(n, ctx).text`, so it is append-only. The result is `Render(n, ctx).status`. |
| HtmlRender.RenderText | src/html_render.rs:86-98 | The text arm appends `TextOutcome(s, ctx).text` and returns its status. |
| HtmlRender.RenderLink | src/html_render.rs:100-117 | The `a` arm appends the link's rendering and returns its status. |
| HtmlRender.RenderSpan | src/html_render.rs:118-130 | The `span` arm appends the span's rendering and returns its status. |
| HtmlRender.RenderUnordered | src/html_render.rs:132-142 | The `ul` loop appends `UlLoop(children, ctx).text` and returns its status; the loop is proved by an invariant over prefixes. |
| HtmlRender.RenderOrdered | src/html_render.rs:143-155 | The `ol` loop, with its mutable `count`, appends `OlLoop(children, ctx).text` and returns its status. |
| HtmlRender.OlLoopStep | src/html_render.rs:143-155 | One `ol` iteration renders the child under `OrderedList(count)`. The count advances only when the child rendered. |
| HtmlRender.RenderBlock | src/html_render.rs:156-182 | The generic-element loop, with its running `status`, appends `BlockLoop(children, ctx).text`. It returns Rendered iff the running status is rendered. |
| HtmlRender.RenderChildren | src/html_render.rs:190-201 | Appends `Children(cs, ctx).text` and returns the status of the last child that rendered. |
| HtmlRender.RenderDocument | src/html_render.rs:71-74 | Rendering from the root context (Inline, indent 0) yields `Render(root, RootContext).text`. |
| HtmlRenderProofs.StatusIndependent | src/html_render.rs:82-188 | The status of a subtree is `StatusOf(n)`, a text-free reference definition that ignores the context. |
| HtmlRenderProofs.ChildrenStatus | src/html_render.rs:190-201 | `render_children` returns the status of the last child that rendered, or NotRendered. |
| HtmlRenderProofs.UlStatus | src/html_render.rs:132-142 | `ul` returns Rendered iff some child rendered. |
| HtmlRenderProofs.OlStatus | src/html_render.rs:143-155 | `ol` returns Rendered iff some child rendered. Its counter ends one past the number of children that rendered. |
| HtmlRenderProofs.BlockStatus | src/html_render.rs:156-182 | The running status of a generic element is the status of the last child that rendered. |
| HtmlRenderProofs.GenericElementStatus | src/html_render.rs:156-182 | A generic element returns Rendered iff some child renders, and NotRendered otherwise. |
| HtmlRenderProofs.BlockChildContext | src/html_render.rs:156-182 | Each child gets the NewParagraph-merged context until a child renders. After that it gets Inline after a Rendered child and RequiresSpace after a RenderedRequiresSpace child. |
| HtmlRenderProofs.LastRenderedIffCount | src/html_render.rs:190-201 | The last-rendered status is rendered iff at least one child rendered. |
| HtmlRenderProofs.LastRenderedIsLast | src/html_render.rs:190-201 | The last-rendered status is that of a rendering child after which no child renders. |
| HtmlRenderProofs.CountPositiveIffSome | src/html_render.rs:143-155 | The count of rendering children is positive iff some child renders. |
| HtmlRenderProofs.EmptyElision | src/html_render.rs:82-188 | NotRendered implies that nothing was appended, for every node. `script`, Comment, Doctype and ProcessingInstruction always give NotRendered and "". |
| HtmlRenderProofs.ChildrenElision | src/html_render.rs:190-201 | NotRendered from `render_children` implies nothing was appended. |
| HtmlRenderProofs.UlElision | src/html_render.rs:132-142 | NotRendered from `ul` implies nothing was appended. |
| HtmlRenderProofs.OlElision | src/html_render.rs:143-155 | NotRendered from `ol` implies nothing was appended. |
| HtmlRenderProofs.BlockElision | src/html_render.rs:156-182 | NotRendered from a generic element implies nothing was appended. |
| HtmlRenderProofs.OlChildOrdinal | src/html_render.rs:143-155 | Child i of an `ol` is rendered under ordinal 1 + (number of earlier children that rendered). |
| HtmlRenderProofs.CountStep | src/html_render.rs:147-151 | The count grows by one exactly past a child that renders. |
| HtmlRenderProofs.CountMonotone | src/html_render.rs:143-155 | Ordinals never decrease along the children. |
| HtmlRenderProofs.OrdinalsAreOneToM | src/html_render.rs:143-155 | The rendering children of an `ol` receive distinct ordinals, increasing in document order, and every ordinal 1..M is used. |
| HtmlRenderProofs.OrdinalUsedBelow | src/html_render.rs:143-155 | Every ordinal up to the count of a prefix is given to a rendering child inside that prefix. |
| HtmlRenderProofs.ChildRenderedUnder | src/html_render.rs:132-182 | Each child loop renders child i under the closed-form context `ChildContext(n, ctx, i)`. |
| HtmlRenderProofs.ReachedIndentUnchanged | src/html_render.rs:47-50 | Every context derived during the walk keeps the indent it started from. |
| HtmlRenderProofs.RootIndentZero | src/html_render.rs:71-74 | Every context reachable from `render`'s root has indent 0, so the indent loops of `render_context` emit nothing. |
| HtmlRenderProofs.SeparatorAtIndentZero | src/html_render.rs:203-231 | At indent 0 the separators are: Inline "", RequiresSpace " " (or "" before `.`, `,`, `;`), NewParagraph "\n\n", UnorderedList "\n* ", and OrderedList(n) "\n" + decimal n + " ". |
| HtmlRenderProofs.SeparatorEmptyIff | src/html_render.rs:203-231 | A separator is empty iff the context is Inline, or RequiresSpace before `.`, `,` or `;`. |
| HtmlRenderProofs.DecimalRoundTrip | src/html_render.rs:229 | The decimal rendering of an ordinal reads back as the ordinal. |
| HtmlRenderProofs.TextNodeRule | src/html_render.rs:86-98 | A text node is NotRendered iff it is all whitespace, and then appends "". Otherwise it appends the separator, then the trimmed text with newlines replaced by spaces, and returns Rendered. |
| HtmlRenderProofs.LinkRule | src/html_render.rs:100-117 | `a` always returns RenderedRequiresSpace. It emits the RequiresSpace-merged separator with lookahead `'['`, then `[`, the children inline, `](`, the href or "", and `)`. |
| HtmlRenderProofs.SpanRule | src/html_render.rs:118-130 | `span` always returns RenderedRequiresSpace; under RequiresSpace it always starts with a space. |
| HtmlRenderProofs.NoneRenderedLast | src/html_render.rs:190-201 | If no child renders, the last-rendered status is NotRendered. |
| Events.EventState.Or | simple_rss_lib/src/event.rs:48-54 | `a.or(b)` is Handled iff a or b is; it is Ignored iff both are. |
| Events.OrCommutative | simple_rss_lib/src/event.rs:48-54 | `or` is commutative. |
| Events.OrAssociative | simple_rss_lib/src/event.rs:48-54 | `or` is associative. |
| Events.OrIdempotent | simple_rss_lib/src/event.rs:48-54 | `or` is idempotent. |
| Events.OrIdentityAndAbsorption | simple_rss_lib/src/event.rs:48-54 | Ignored is the identity of `or` and Handled absorbs. |
| Events.OrAll | simple_rss_lib/src/app.rs:96-102 | Folding `or` over answers is Handled iff one of them is; `App.HandleEvent` returns this fold. |
| KeyMap.SendKeycodeMatchesBindings | src/event.rs:44-59 | `send_keycode` sends event e for key k iff (k, e) is a row of the binding table. |
| KeyMap.TableRowsAreSent | src/event.rs:45-54 | Each row of the binding table is what `send_keycode` sends. |
| KeyMap.RowOf | src/event.rs:45-54 | A key that sends an event has a row in the binding table. |
| KeyMap.UnboundKeysSendNothing | src/event.rs:55 | A key sends nothing iff it is absent from the table. |
| KeyMap.BindingsAreFunctional | src/event.rs:45-56 | No key appears twice, so at most one event is sent per key. |
| KeyMap.EveryEventHasAKey | src/event.rs:45-56 | Every keyboard event is produced by some key. |
| Spinner.SpinnerFrame | src/components/mod.rs:24-28 | The index `(tick / 3) % 10` is in range, and the frame is one of the ten braille characters. |
| Spinner.SpinnerPeriod | src/components/mod.rs:25 | `spinner_frame(t + 30) == spinner_frame(t)`. |
| Spinner.SpinnerHoldsThreeTicks | src/components/mod.rs:25 | Ticks 3k, 3k+1 and 3k+2 show the same frame. |
| Spinner.SpinnerShowsEveryFrame | src/components/mod.rs:11-27 | Frame k is shown at tick 3k, so each frame appears within a period. |
| ToastComponent.Next | simple_rss_lib/src/components/toast.rs:39-79 | Loading(msg) gives Loading(msg, 0) and Error(msg) gives Error(msg, 0); Hide gives Hidden from any state; all three are Handled. A tick increments a loading toast, increments an error while its ticks are at most 5·tick_fps and hides it after that, and is Ignored while Hidden. Every other event is Ignored and changes nothing. |
| ToastComponent.ErrorLifetime | simple_rss_lib/src/components/toast.rs:60-67 | A fresh error is still shown after 5·tick_fps+1 ticks and is hidden on tick 5·tick_fps+2. |
| ToastComponent.NextKeepsTicksBounded | simple_rss_lib/src/components/toast.rs:60-67 | An error's tick count never exceeds 5·tick_fps+1. |
| ToastComponent.LoadingCountsTicks | simple_rss_lib/src/components/toast.rs:69-72 | Each tick increments a loading toast's tick count. |
| ToastComponent.Toast.constructor | simple_rss_lib/src/components/toast.rs:32-37 | A new toast is Hidden and keeps its tick_fps. |
| ToastComponent.Toast.HandleEvent | simple_rss_lib/src/components/toast.rs:39-79 | The new state and the result are those of `Next` on the old state. |
| ToastComponent.Toast.IsHidden | simple_rss_lib/src/components/toast.rs:123-125 | `hidden()` is true iff the state is Hidden. |
| LegacyToast.Toast.constructor | src/components/toast.rs:27-29 | A new toast is Hidden. |
| LegacyToast.Toast.HandleEvent | src/components/toast.rs:31-71 | Replacing `*self` event by event matches `Next` with tick_fps 30, so the threshold is `TICK_FPS as u32 * 5` = 150. |
| LegacyToast.Toast.IsHidden | src/components/toast.rs:115-117 | `hidden()` is true iff the toast is Hidden. |
| LegacyToast.ErrorHidesOnTick152 | src/components/toast.rs:51-60 | An error toast is still shown after 151 ticks and is hidden on the 152nd. |
| ContentComponent.WrappingIncrement | simple_rss_lib/src/components/content.rs:58 | `u8::wrapping_add(1)`: +1 below 255, 0 at 255. |
| ContentComponent.Scroll | simple_rss_lib/src/components/content.rs:133-151 | Up and Down are Handled and every other key is Ignored. Up decrements, saturating at 0. Down with a cache moves to min(offset + 1, max(lines - 5, 0)); without a cache it leaves the offset unchanged. |
| ContentComponent.ScrollStaysInRange | simple_rss_lib/src/components/content.rs:140-149 | An offset within range stays within range under any key. |
| ContentComponent.DownThenUp | simple_rss_lib/src/components/content.rs:135-149 | Below the bottom, Down then Up returns to the same offset. |
| ContentComponent.DownAtBottomStays | simple_rss_lib/src/components/content.rs:140-149 | At the bottom, Down keeps the offset. |
| ContentComponent.ContentStateData.constructor | simple_rss_lib/src/components/content.rs:67-74 | A loaded article starts with its text, offset 0 and no cache. |
| ContentComponent.ContentStateData.HandleKeyboardEvent | simple_rss_lib/src/components/content.rs:133-151 | Updates the offset in place as `Scroll` says; the text and the cache are kept. |
| ContentComponent.ContentStateData.GetRenderCache | simple_rss_lib/src/components/content.rs:179-189 | The cache is recomputed iff it is absent or made for another width. Afterwards it holds the lines for the current width, and a coherent cache stays coherent. |
| ContentComponent.ContentStateData.RecalculateRenderCache | simple_rss_lib/src/components/content.rs:191-200 | The cache becomes the renderer's lines for width - 2, tagged with the width. |
| ContentComponent.NextView | simple_rss_lib/src/components/content.rs:53-89 | StartLoadingItem gives Loading(0) and LoadedItem(text) gives a fresh article (offset 0, no cache), from any view, both Handled. A tick advances a loading pane modulo 256 and is Handled, and is Ignored otherwise. A key acts as `Scroll` says when the pane is focused and shows an article, and is Ignored otherwise. A Toast event is Ignored. |
| ContentComponent.LoadingAfterTicks | simple_rss_lib/src/components/content.rs:56-62 | After k ticks a loading pane shows tick (t + k) mod 256. |
| ContentComponent.StartThenLoad | simple_rss_lib/src/components/content.rs:63-75 | StartLoadingItem then LoadedItem(text) leaves a fresh article at offset 0 with no cache, from any state, and is Handled. |
| ContentComponent.Content.constructor | simple_rss_lib/src/components/content.rs:42-47 | A new pane is Empty with the given focus. |
| ContentComponent.Content.SetFocused | simple_rss_lib/src/components/content.rs:49-51 | Only the focus flag changes. |
| ContentComponent.Content.HandleEvent | simple_rss_lib/src/components/content.rs:53-78 | The new view and the result are `NextView` of the old view. Only LoadedItem replaces the article object, and it replaces it with a fresh one. |
| ContentComponent.Content.HandleKeyboardEvent | simple_rss_lib/src/components/content.rs:80-89 | A key acts as `NextView` says; the article object is kept. |
| LegacyContent.Next | src/components/content.rs:37-68 | Consumed iff LoadedItem. Keys change nothing. A tick advances a loading pane mod 256. StartLoadingItem gives Loading(0). LoadedItem(text) gives Data(text). |
| LegacyContent.KeysNeverChangeState | src/components/content.rs:61-68 | No sequence of key presses changes the pane. |
| LegacyContent.Content.constructor | src/components/content.rs:26-31 | A new pane is Empty with the given focus. |
| LegacyContent.Content.SetFocused | src/components/content.rs:33-35 | Only the focus flag changes. |
| LegacyContent.Content.HandleEvent | src/components/content.rs:37-59 | The new state and the result are those of `Next`. |
| LegacyContent.Content.HandleKeyboardEvent | src/components/content.rs:61-68 | Always NotConsumed. |
| ItemListComponent.Loader.SetRead | simple_rss_lib/src/data.rs:40-48 | Sets the read flag of one item, keeps every other item, and moves the data version on. |
| ItemListComponent.TitleOptions | simple_rss_lib/src/components/item_list.rs:227-236 | The title wraps at width - 1. With read status shown, the indent is "[X] " iff the item is read and "[ ] " iff it is not; with it hidden there is no indent. |
| ItemListComponent.ListItemLines | simple_rss_lib/src/components/item_list.rs:225-322 | A list item starts with the wrapped title lines and ends with an empty line. |
| ItemListComponent.ItemToListItem | simple_rss_lib/src/components/item_list.rs:225-322 | Building the item line by line, including the padding loop, yields `ListItemLines`. |
| ItemListComponent.LineWidthAppend | simple_rss_lib/src/components/item_list.rs:288-305 | The width of joined spans is the sum of their widths. |
| ItemListComponent.SpacesWidth | simple_rss_lib/src/components/item_list.rs:298-301 | n one-column spaces are n columns wide. |
| ItemListComponent.OneLineFillsWidth | simple_rss_lib/src/components/item_list.rs:281-305 | When `total_width < width - 3`, the indent, channel, padding and date span exactly width - 1 columns, with at least 3 padding spaces. |
| ItemListComponent.KeyEffectOf | simple_rss_lib/src/components/item_list.rs:78-148 | An ignored key has no effect. A read flag is set only on the selected item, and only with read status shown. Opening and loading need a selection. |
| ItemListComponent.ApplyRead | simple_rss_lib/src/components/item_list.rs:137-141 | Only the read flag of the chosen item may change; every other item and field is kept. |
| ItemListComponent.OpenIgnoresFocus | simple_rss_lib/src/components/item_list.rs:80-95 | With browser open enabled, Open is Handled whatever the focus. It opens the selection and marks it read unless read status is disabled. |
| ItemListComponent.UnfocusedIgnoresOtherKeys | simple_rss_lib/src/components/item_list.rs:97-99 | Unfocused, every other key, including Open with browser open disabled, is Ignored without effect. |
| ItemListComponent.EnterAndSpaceRules | simple_rss_lib/src/components/item_list.rs:110-145 | Enter and Space are Handled even with nothing selected. Enter starts loading the selection and marks it read. Space flips its flag. With read status disabled no flag changes. |
| ItemListComponent.SpaceTwiceRestores | simple_rss_lib/src/components/item_list.rs:133-145 | Pressing Space twice on the same item restores every read flag. |
| ItemListComponent.BuildList | simple_rss_lib/src/components/item_list.rs:194-198 | The loop over the items yields `ListOf`. |
| ItemListComponent.ItemList.constructor | simple_rss_lib/src/components/item_list.rs:47-65 | Starts with no selection, no cache and nothing sent. |
| ItemListComponent.ItemList.SetFocused | simple_rss_lib/src/components/item_list.rs:67-69 | Only the focus flag changes. |
| ItemListComponent.ItemList.HandleEvent | simple_rss_lib/src/components/item_list.rs:71-76 | A key acts as `KeyEffectOf` says. It gives that answer, marks the item read (bumping the data version once), opens the link in the browser, or asks the loader for the link and sends StartLoadingItem. Any other event is Ignored and changes no item, version, link request or message. No event changes the focus, the selection or the render cache. |
| ItemListComponent.ItemList.HandleKeyboardEvent | simple_rss_lib/src/components/item_list.rs:78-148 | Result, read flags, version, opened links, load requests and sent events are exactly the key's effect. Focus, selection and cache are unchanged. |
| ItemListComponent.ItemList.GetRenderCache | simple_rss_lib/src/components/item_list.rs:210-222 | The cache is rebuilt iff it is absent, or made for another width or data version. Only a rebuild needs every item to fit the width. Afterwards it holds the current width and version, and a coherent cache stays coherent. |
| ItemListComponent.ItemList.RecalculateRenderCache | simple_rss_lib/src/components/item_list.rs:192-208 | The cache becomes the list for the current items, width and version. |
| HelpComponent.ListedIndices | simple_rss_lib/src/components/help.rs:94-117 | Lists 4 + [browser open] + [read status] ≤ 6 entries, in table order. An entry is listed iff its option is enabled. Enter comes first, Esc second, and the two arrow entries last. |
| HelpComponent.BuildParagraph | simple_rss_lib/src/components/help.rs:90-121 | Growing the two vectors with push/extend gives the keys and the descriptions of the same entries, so they have equal length and row i of each describes the same binding. |
| HelpComponent.OptionalEntriesPresence | simple_rss_lib/src/components/help.rs:95-113 | "<o>"/"Open in browser" are present iff browser open is enabled. "<Space>"/"Mark/Unmark item in list as read" are present iff read status is enabled. |
| HelpComponent.PresentIffListed | simple_rss_lib/src/components/help.rs:94-117 | A row's key or description appears in a column iff the row is listed. |
| HelpComponent.KeysAreDistinct | simple_rss_lib/src/components/help.rs:94-104 | No two bindings share a key text. |
| HelpComponent.DescsAreDistinct | simple_rss_lib/src/components/help.rs:107-117 | No two bindings share a description. |
| HelpComponent.ColumnsFitWidths | simple_rss_lib/src/components/help.rs:27-28 | Every key fits 28 columns and every description 42; both widths are attained. |
| HelpComponent.Help.constructor | simple_rss_lib/src/components/help.rs:21-30 | Closed, with widths 28 and 42 and the columns of `BuildParagraph`; it establishes `Valid`. |
| HelpComponent.Help.Open | simple_rss_lib/src/components/help.rs:32-34 | Sets only the open flag. |
| HelpComponent.Help.Close | simple_rss_lib/src/components/help.rs:36-38 | Clears only the open flag. |
| HelpComponent.Help.Draw | simple_rss_lib/src/components/help.rs:40-46 | A popup is drawn iff help is open. For a popup built by the constructor (`Valid`: widths 28 and 42, at most NR_ENTRIES entries) it is 77 wide and 9 tall, and every key and description has a row of its own. |
| AppFocus.FocusRules | simple_rss_lib/src/app.rs:105-148 | Back: ItemList stays, Content goes to ItemList, Help goes to prev_focus or ItemList. Left only moves Content to ItemList, Right only ItemList to Content. Help goes to Help and remembers the focus. StartLoadingItem moves ItemList to Content. Tick, LoadedItem and Toast change nothing. |
| AppFocus.OnlyFocusEventsMove | simple_rss_lib/src/app.rs:105-148 | Only Back, Left, Right, Help and StartLoadingItem move the focus, and only Help changes `prev_focus`. |
| AppFocus.HelpThenBackReturns | simple_rss_lib/src/app.rs:107-117 | Help then Back returns to the focus before help. |
| AppFocus.HelpTwiceThenBackStaysInHelp | simple_rss_lib/src/app.rs:132-135 | Help pressed twice records Help itself, so Back leaves help open. |
| AppFocus.App.constructor | simple_rss_lib/src/app.rs:61-78 | Focus is ItemList, there is no previous focus, the list is focused, the content is unfocused and help is closed. |
| AppFocus.App.SetFocus | simple_rss_lib/src/app.rs:153-174 | Updates the focus state as `SetFocusState` says. Afterwards the list is focused iff f is ItemList, the content iff f is Content, and help is open iff f is Help. |
| AppFocus.App.HandleEvent | simple_rss_lib/src/app.rs:94-151 | The focus state follows `Step`; a focus move leaves the flags following the focus, and without a move the flags are unchanged. The result is `OrAll` of the three components' answers and the focus move's answer, so it is Handled iff one of them is. |

## Left out

- HTML parsing, the parse error and the final `println!` of `render` (src/html_render.rs:60-80) are not modelled. The parsed tree is the `Node` datatype, and `RenderDocument` returns the text.
- `char::is_whitespace` is written out as the Unicode White_Space list. There is no normalisation or case folding.
- `ol` ordinals, the loader's `u16` version and the toast's `u32` ticks are unbounded `nat`s. Their wrap-around after 65535 or 2^32 steps is not modelled. The content pane's `u8` spinner tick does wrap, modulo 256.
- The `usize` subtractions `width - 1`, `width - 2` and `width - 3` in `item_to_list_item`, and `area.width - 2` in the content pane, are modelled as preconditions (`WidthFits`, `width >= 2`). A narrower area would panic in debug builds.
- `textwrap::wrap`, `unicode_width` and the external `html2text` renderer are parameters: the wrapper, the display width and the article renderer.
- All `draw` methods and ratatui types are left out. `Help.Draw` keeps only the popup size; the centring arithmetic `(area - width) / 2` is not modelled.
- ItemListComponent.ItemList.HandleKeyboardEvent: Up and Down move ratatui's `ListState` selection, which is library behaviour. The model leaves the selection unchanged.
- The ratatui `Text`/`Line`/`Span` styling is not modelled. A line is a sequence of strings, and the closing `push_line("")` is the line `[""]`.
- `webbrowser::open`, `tokio::spawn`, the event channel and the loader's refresh are not modelled. An opened link, a load request and a sent event are each appended to a sequence field. `App::new` does not start the refresh.
- The publication date is kept as an already formatted string; chrono formatting is not modelled.
- `custom_empty_list_msg` only affects drawing and is not modelled.
- ItemListComponent.Loader.SetRead: the `Loader` trait only promises that the version changes when the data does. The model bumps the version by one on every call.
- ItemListComponent.KeyEffectOf, ItemListComponent.ItemList.HandleEvent and ItemListComponent.ItemList.HandleKeyboardEvent require the selection to be within the item list. The source indexes `items[selected]` unchecked (simple_rss_lib/src/components/item_list.rs:84, 115, 136). An out-of-range selection, for instance one chosen while the list was empty, would panic there; the model does not capture that panic.
- The App's child components are represented only by their `focused`/`open` flags. Their answers to an event are parameters of `AppFocus.App.HandleEvent`.
- KeyMap.KeyCode: crossterm's key-code variants that no binding inspects (media keys, modifiers and others) are grouped as `OtherKey`. `F(n)` and `Char(c)` are kept.
- The event task's select loop, the binary crate's terminal loop and widgets, persistence, network fetching, and src/state.rs are not part of this model.
- `TICK_FPS` is the `f64` 30.0, used through `TICK_FPS as u32`. It is the integer 30 in the model.

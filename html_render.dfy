/**
 * The HTML-to-text renderer of src/html_render.rs.
 *
 * `Render` and its loop functions are the specification: what text a subtree
 * appends to the output buffer and which status it reports. The methods at the
 * end of the module (`RenderNode`, `RenderChildren`, `RenderContext`) are the
 * imperative walker of the source, appending to one `Buffer`, and each is
 * proved against those functions.
 */
module HtmlRender {
  import opened Options

  // ---------------------------------------------------------------------
  // Document tree (the parsed tree that the source receives from its parser)
  // ---------------------------------------------------------------------

  /** A node of the parsed document. `href` is the element's `href` attribute, if any. */
  datatype Node =
    | Document(children: seq<Node>)
    | Fragment(children: seq<Node>)
    | Text(text: string)
    | Element(name: string, href: Option<string>, children: seq<Node>)
    | Comment
    | Doctype
    | ProcessingInstruction

  // ---------------------------------------------------------------------
  // Context and status
  // ---------------------------------------------------------------------

  /** The separator owed before the next content. */
  datatype ContextType =
    | Inline
    | RequiresSpace
    | NewParagraph
    | UnorderedList
    | OrderedList(ordinal: nat)

  function Precedence(t: ContextType): nat
  {
    match t
    case Inline => 0
    case RequiresSpace => 1
    case NewParagraph => 2
    case UnorderedList => 3
    case OrderedList(_) => 3
  }

  datatype Context = Context(kind: ContextType, indent: nat)
  {
    /** `Context::merge`: the higher-precedence type wins, the incoming one on a tie. */
    function Merge(t: ContextType): (r: Context)
      ensures r.indent == indent
      ensures r.kind == kind || r.kind == t
      ensures Precedence(r.kind) >= Precedence(kind) && Precedence(r.kind) >= Precedence(t)
      ensures Precedence(t) >= Precedence(kind) ==> r.kind == t
      ensures Precedence(t) < Precedence(kind) ==> r.kind == kind
    {
      Context(if Precedence(kind) > Precedence(t) then kind else t, indent)
    }
  }

  datatype RenderStatus = NotRendered | Rendered | RenderedRequiresSpace
  {
    predicate IsRendered() {
      this != NotRendered
    }
  }

  /** What rendering a subtree appends to the buffer, and the status it returns. */
  datatype Outcome = Outcome(text: string, status: RenderStatus)

  /** The state of the `ol` loop: text so far, running status, next ordinal. */
  datatype OlState = OlState(text: string, status: RenderStatus, count: nat)

  // ---------------------------------------------------------------------
  // Text helpers
  // ---------------------------------------------------------------------

  /** Rust's `char::is_whitespace`: the Unicode White_Space property. */
  predicate IsWhitespace(c: char)
  {
    var n := c as int;
    (0x9 <= n <= 0xD) || n == 0x20 || n == 0x85 || n == 0xA0 || n == 0x1680
    || (0x2000 <= n <= 0x200A) || n == 0x2028 || n == 0x2029 || n == 0x202F
    || n == 0x205F || n == 0x3000
  }

  /** `str::trim_start`: drops the leading whitespace. */
  function TrimStart(s: string): (r: string)
    ensures |r| <= |s|
  {
    if s != [] && IsWhitespace(s[0]) then TrimStart(s[1..]) else s
  }

  /** `str::trim_end`: drops the trailing whitespace. */
  function TrimEnd(s: string): (r: string)
    ensures |r| <= |s|
  {
    if s != [] && IsWhitespace(s[|s| - 1]) then TrimEnd(s[..|s| - 1]) else s
  }

  /** `str::trim`. */
  function Trim(s: string): (r: string)
    ensures |r| <= |s|
  {
    TrimEnd(TrimStart(s))
  }

  /** `str::replace("\n", " ")`. */
  function ReplaceNewlines(s: string): (r: string)
    ensures |r| == |s|
  {
    if s == [] then [] else [if s[0] == '\n' then ' ' else s[0]] + ReplaceNewlines(s[1..])
  }

  /** `TrimStart` leaves a suffix of `s` that starts with non-whitespace, after a prefix that is all whitespace. */
  lemma {:induction false} TrimStartSpec(s: string)
    ensures var r := TrimStart(s);
      && s[|s| - |r|..] == r
      && (r == [] || !IsWhitespace(r[0]))
      && forall i :: 0 <= i < |s| - |r| ==> IsWhitespace(s[i])
    decreases s
  {
    if s != [] && IsWhitespace(s[0]) {
      TrimStartSpec(s[1..]);
      var r := TrimStart(s[1..]);
      assert s[1..][|s| - 1 - |r|..] == s[|s| - |r|..];
      forall i | 1 <= i < |s| - |r| ensures IsWhitespace(s[i]) {
        assert s[i] == s[1..][i - 1];
      }
    }
  }

  /** `TrimEnd` leaves a prefix of `s` that ends with non-whitespace, before a suffix that is all whitespace. */
  lemma {:induction false} TrimEndSpec(s: string)
    ensures var r := TrimEnd(s);
      && s[..|r|] == r
      && (r == [] || !IsWhitespace(r[|r| - 1]))
      && forall i :: |r| <= i < |s| ==> IsWhitespace(s[i])
    decreases s
  {
    if s != [] && IsWhitespace(s[|s| - 1]) {
      var p := s[..|s| - 1];
      TrimEndSpec(p);
      var r := TrimEnd(p);
      assert s[..|r|] == p[..|r|];
      forall i | |r| <= i < |s| - 1 ensures IsWhitespace(s[i]) {
        assert s[i] == p[i];
      }
    }
  }

  /** `Trim(s)` is empty iff `s` is all whitespace; otherwise it is a slice of `s` bounded by non-whitespace. */
  lemma TrimSpec(s: string)
    ensures Trim(s) == [] <==> forall i :: 0 <= i < |s| ==> IsWhitespace(s[i])
    ensures Trim(s) != [] ==> !IsWhitespace(Trim(s)[0]) && !IsWhitespace(Trim(s)[|Trim(s)| - 1])
    ensures var k := |s| - |TrimStart(s)|; k + |Trim(s)| <= |s| && s[k..k + |Trim(s)|] == Trim(s)
  {
    var t := TrimStart(s);
    var r := TrimEnd(t);
    var k := |s| - |t|;
    TrimStartSpec(s);
    TrimEndSpec(t);
    assert t != [] ==> t[0] == s[k] && !IsWhitespace(s[k]);
    assert t != [] ==> r != [] && r[0] == t[0] by {
      if t != [] {
        assert !IsWhitespace(t[0]);
      }
    }
    assert s[k..k + |r|] == t[..|r|];
  }

  /** `ReplaceNewlines` turns every newline into a space and keeps every other character. */
  lemma {:induction false} ReplaceNewlinesSpec(s: string)
    ensures forall i :: 0 <= i < |s| ==> ReplaceNewlines(s)[i] == (if s[i] == '\n' then ' ' else s[i])
    decreases s
  {
    if s != [] {
      ReplaceNewlinesSpec(s[1..]);
      var r := ReplaceNewlines(s);
      forall i | 1 <= i < |s| ensures r[i] == (if s[i] == '\n' then ' ' else s[i]) {
        assert r[i] == ReplaceNewlines(s[1..])[i - 1];
        assert s[i] == s[1..][i - 1];
      }
    }
  }

  function Spaces(n: nat): (r: string)
    ensures |r| == n && forall i :: 0 <= i < n ==> r[i] == ' '
  {
    seq(n, _ => ' ')
  }

  predicate IsDigits(s: string)
  {
    forall i :: 0 <= i < |s| ==> '0' <= s[i] <= '9'
  }

  function Digit(d: nat): (c: char)
    requires d < 10
    ensures '0' <= c <= '9' && c as int - '0' as int == d
  {
    ('0' as int + d) as char
  }

  /** `format!("{}", n)` for a non-negative integer: decimal digits, no leading zero. */
  function Decimal(n: nat): (r: string)
    ensures |r| >= 1 && IsDigits(r)
    ensures n > 0 ==> r[0] != '0'
    decreases n
  {
    if n < 10 then [Digit(n)] else Decimal(n / 10) + [Digit(n % 10)]
  }

  /** The value of a string of decimal digits, the inverse of `Decimal`. */
  function DecimalValue(s: string): nat
    requires IsDigits(s)
  {
    if s == [] then 0 else DecimalValue(s[..|s| - 1]) * 10 + (s[|s| - 1] as int - '0' as int)
  }

  // ---------------------------------------------------------------------
  // The specification of the walker
  // ---------------------------------------------------------------------

  /** What `render_context` appends: the separator owed by `ctx`, with lookahead `first`. */
  function Separator(ctx: Context, first: char): string
  {
    match ctx.kind
    case Inline => ""
    case RequiresSpace => if first != '.' && first != ',' && first != ';' then " " else ""
    case NewParagraph => "\n\n" + Spaces(ctx.indent)
    case UnorderedList => "\n" + Spaces(ctx.indent) + "* "
    case OrderedList(idx) => "\n" + Spaces(ctx.indent) + Decimal(idx) + " "
  }

  /** The context a generic element passes to a child, chosen by the running status. */
  function BlockContext(status: RenderStatus, ctx: Context): Context
  {
    match status
    case NotRendered => ctx.Merge(NewParagraph)
    case Rendered => Context(Inline, ctx.indent)
    case RenderedRequiresSpace => Context(RequiresSpace, ctx.indent)
  }

  /** The text arm of `render_node`: whitespace-only text renders nothing. */
  function TextOutcome(s: string, ctx: Context): Outcome
  {
    var txt := Trim(s);
    if txt == [] then Outcome("", NotRendered)
    else
      var t := ReplaceNewlines(txt);
      Outcome(Separator(ctx, t[0]) + t, Rendered)
  }

  /** `render_node`. */
  function Render(n: Node, ctx: Context): Outcome
    decreases n
  {
    match n
    case Document(cs) => Children(cs, ctx)
    case Fragment(cs) => Children(cs, ctx)
    case Text(s) => TextOutcome(s, ctx)
    case Element(name, href, cs) =>
      if name == "a" then
        var inner := Children(cs, Context(Inline, ctx.indent));
        Outcome(Separator(ctx.Merge(RequiresSpace), '[') + "[" + inner.text + "](" + href.GetOr("") + ")",
                RenderedRequiresSpace)
      else if name == "span" then
        var inner := Children(cs, Context(Inline, ctx.indent));
        Outcome(Separator(ctx, ' ') + inner.text, RenderedRequiresSpace)
      else if name == "script" then
        Outcome("", NotRendered)
      else if name == "ul" then
        UlLoop(cs, ctx)
      else if name == "ol" then
        var s := OlLoop(cs, ctx);
        Outcome(s.text, s.status)
      else
        var s := BlockLoop(cs, ctx);
        Outcome(s.text, if s.status.IsRendered() then Rendered else NotRendered)
    case Comment => Outcome("", NotRendered)
    case Doctype => Outcome("", NotRendered)
    case ProcessingInstruction => Outcome("", NotRendered)
  }

  /** `render_children`: every child under `ctx`; the status of the last child that rendered. */
  function Children(cs: seq<Node>, ctx: Context): Outcome
    decreases cs
  {
    if cs == [] then Outcome("", NotRendered)
    else
      var prev := Children(cs[..|cs| - 1], ctx);
      var o := Render(cs[|cs| - 1], ctx);
      Outcome(prev.text + o.text, if o.status.IsRendered() then o.status else prev.status)
  }

  /** The `ul` loop: every child under the `UnorderedList`-merged context. */
  function UlLoop(cs: seq<Node>, ctx: Context): Outcome
    decreases cs
  {
    if cs == [] then Outcome("", NotRendered)
    else
      var prev := UlLoop(cs[..|cs| - 1], ctx);
      var o := Render(cs[|cs| - 1], ctx.Merge(UnorderedList));
      Outcome(prev.text + o.text, if o.status.IsRendered() then Rendered else prev.status)
  }

  /** The `ol` loop: the ordinal advances only past a child that rendered. */
  function OlLoop(cs: seq<Node>, ctx: Context): OlState
    decreases cs
  {
    if cs == [] then OlState("", NotRendered, 1)
    else
      var prev := OlLoop(cs[..|cs| - 1], ctx);
      var o := Render(cs[|cs| - 1], ctx.Merge(OrderedList(prev.count)));
      if o.status.IsRendered() then OlState(prev.text + o.text, Rendered, prev.count + 1)
      else OlState(prev.text + o.text, prev.status, prev.count)
  }

  /** The generic-element loop: each child's context comes from the running status. */
  function BlockLoop(cs: seq<Node>, ctx: Context): Outcome
    decreases cs
  {
    if cs == [] then Outcome("", NotRendered)
    else
      var prev := BlockLoop(cs[..|cs| - 1], ctx);
      var o := Render(cs[|cs| - 1], BlockContext(prev.status, ctx));
      Outcome(prev.text + o.text, if o.status.IsRendered() then o.status else prev.status)
  }

  /** The context `render` starts from. */
  const RootContext := Context(Inline, 0)

  // ---------------------------------------------------------------------
  // The imperative walker
  // ---------------------------------------------------------------------

  /** The output `String` the walker appends to. */
  class Buffer {
    var contents: string

    constructor ()
      ensures contents == ""
    {
      contents := "";
    }

    /** `String::push` */
    method Push(c: char)
      modifies this
      ensures contents == old(contents) + [c]
    {
      contents := contents + [c];
    }

    /** `String::push_str` */
    method PushStr(s: string)
      modifies this
      ensures contents == old(contents) + s
    {
      contents := contents + s;
    }
  }

  /** `render_context`: appends exactly the separator and nothing else. */
  method RenderContext(ctx: Context, first: char, res: Buffer)
    modifies res
    ensures res.contents == old(res.contents) + Separator(ctx, first)
  {
    var before := res.contents;
    match ctx.kind
    case Inline =>
    case RequiresSpace =>
      if first != '.' && first != ',' && first != ';' {
        res.Push(' ');
      }
    case NewParagraph =>
      res.PushStr("\n\n");
      PushIndent(ctx.indent, res);
      assert res.contents == before + ("\n\n" + Spaces(ctx.indent));
    case UnorderedList =>
      res.Push('\n');
      PushIndent(ctx.indent, res);
      res.PushStr("* ");
      assert res.contents == before + ("\n" + Spaces(ctx.indent) + "* ");
    case OrderedList(idx) =>
      res.Push('\n');
      PushIndent(ctx.indent, res);
      res.PushStr(Decimal(idx) + " ");
      assert res.contents == before + ("\n" + Spaces(ctx.indent) + Decimal(idx) + " ");
  }

  /** The `for _ in 0..ctx.indent { res.push(' ') }` loops of `render_context`. */
  method PushIndent(indent: nat, res: Buffer)
    modifies res
    ensures res.contents == old(res.contents) + Spaces(indent)
  {
    for i := 0 to indent
      invariant res.contents == old(res.contents) + Spaces(i)
    {
      assert Spaces(i + 1) == Spaces(i) + [' '];
      res.Push(' ');
    }
  }

  /** `render_node`: appends `Render(n, ctx).text` and returns its status. */
  method RenderNode(n: Node, res: Buffer, ctx: Context) returns (st: RenderStatus)
    modifies res
    ensures res.contents == old(res.contents) + Render(n, ctx).text
    ensures st == Render(n, ctx).status
    decreases n, 1
  {
    match n
    case Document(cs) =>
      st := RenderChildren(cs, res, ctx);
    case Fragment(cs) =>
      st := RenderChildren(cs, res, ctx);
    case Text(_) =>
      st := RenderText(n, res, ctx);
    case Element(name, _, _) =>
      if name == "a" {
        st := RenderLink(n, res, ctx);
      } else if name == "span" {
        st := RenderSpan(n, res, ctx);
      } else if name == "script" {
        st := NotRendered;
      } else if name == "ul" {
        st := RenderUnordered(n, res, ctx);
      } else if name == "ol" {
        st := RenderOrdered(n, res, ctx);
      } else {
        st := RenderBlock(n, res, ctx);
      }
    case Comment =>
      st := NotRendered;
    case Doctype =>
      st := NotRendered;
    case ProcessingInstruction =>
      st := NotRendered;
  }

  /** The text arm of `render_node`. */
  method RenderText(n: Node, res: Buffer, ctx: Context) returns (st: RenderStatus)
    requires n.Text?
    modifies res
    ensures res.contents == old(res.contents) + TextOutcome(n.text, ctx).text
    ensures st == TextOutcome(n.text, ctx).status
  {
    var txt := Trim(n.text);
    if txt == [] {
      return NotRendered;
    }
    var t := ReplaceNewlines(txt);
    ghost var before := res.contents;
    RenderContext(ctx, t[0], res);
    res.PushStr(t);
    assert res.contents == before + (Separator(ctx, t[0]) + t);
    st := Rendered;
  }

  /** The `a` arm of `render_node`. */
  method RenderLink(n: Node, res: Buffer, ctx: Context) returns (st: RenderStatus)
    requires n.Element? && n.name == "a"
    modifies res
    ensures res.contents == old(res.contents) + Render(n, ctx).text
    ensures st == Render(n, ctx).status
    decreases n, 0
  {
    RenderContext(ctx.Merge(RequiresSpace), '[', res);
    res.Push('[');
    var _ := RenderChildren(n.children, res, Context(Inline, ctx.indent));
    res.PushStr("](");
    res.PushStr(n.href.GetOr(""));
    res.Push(')');
    st := RenderedRequiresSpace;
  }

  /** The `span` arm of `render_node`. */
  method RenderSpan(n: Node, res: Buffer, ctx: Context) returns (st: RenderStatus)
    requires n.Element? && n.name == "span"
    modifies res
    ensures res.contents == old(res.contents) + Render(n, ctx).text
    ensures st == Render(n, ctx).status
    decreases n, 0
  {
    RenderContext(ctx, ' ', res);
    var _ := RenderChildren(n.children, res, Context(Inline, ctx.indent));
    st := RenderedRequiresSpace;
  }

  /** The `ul` arm of `render_node`. */
  method RenderUnordered(n: Node, res: Buffer, ctx: Context) returns (st: RenderStatus)
    requires n.Element?
    modifies res
    ensures res.contents == old(res.contents) + UlLoop(n.children, ctx).text
    ensures st == UlLoop(n.children, ctx).status
    decreases n, 0
  {
    var cs := n.children;
    st := NotRendered;
    for i := 0 to |cs|
      invariant res.contents == old(res.contents) + UlLoop(cs[..i], ctx).text
      invariant st == UlLoop(cs[..i], ctx).status
    {
      assert cs[..i + 1][..i] == cs[..i];
      var s := RenderNode(cs[i], res, ctx.Merge(UnorderedList));
      if s.IsRendered() {
        st := Rendered;
      }
    }
    assert cs[..|cs|] == cs;
  }

  /** The `ol` arm of `render_node`. */
  method RenderOrdered(n: Node, res: Buffer, ctx: Context) returns (st: RenderStatus)
    requires n.Element?
    modifies res
    ensures res.contents == old(res.contents) + OlLoop(n.children, ctx).text
    ensures st == OlLoop(n.children, ctx).status
    decreases n, 0
  {
    var cs := n.children;
    st := NotRendered;
    var count: nat := 1;
    for i := 0 to |cs|
      invariant res.contents == old(res.contents) + OlLoop(cs[..i], ctx).text
      invariant st == OlLoop(cs[..i], ctx).status
      invariant count == OlLoop(cs[..i], ctx).count
    {
      OlLoopStep(cs, ctx, i);
      var s := RenderNode(cs[i], res, ctx.Merge(OrderedList(count)));
      if s.IsRendered() {
        st := Rendered;
        count := count + 1;
      }
    }
    assert cs[..|cs|] == cs;
  }

  lemma OlLoopStep(cs: seq<Node>, ctx: Context, i: nat)
    requires i < |cs|
    ensures OlLoop(cs[..i + 1], ctx) ==
      var prev := OlLoop(cs[..i], ctx);
      var o := Render(cs[i], ctx.Merge(OrderedList(prev.count)));
      if o.status.IsRendered() then OlState(prev.text + o.text, Rendered, prev.count + 1)
      else OlState(prev.text + o.text, prev.status, prev.count)
  {
    assert cs[..i + 1][..i] == cs[..i];
  }

  /** The arm of `render_node` for every other element. */
  method RenderBlock(n: Node, res: Buffer, ctx: Context) returns (st: RenderStatus)
    requires n.Element?
    modifies res
    ensures res.contents == old(res.contents) + BlockLoop(n.children, ctx).text
    ensures st == (if BlockLoop(n.children, ctx).status.IsRendered() then Rendered else NotRendered)
    decreases n, 0
  {
    var cs := n.children;
    var status := NotRendered;
    for i := 0 to |cs|
      invariant res.contents == old(res.contents) + BlockLoop(cs[..i], ctx).text
      invariant status == BlockLoop(cs[..i], ctx).status
    {
      assert cs[..i + 1][..i] == cs[..i];
      var context := BlockContext(status, ctx);
      var s := RenderNode(cs[i], res, context);
      if s.IsRendered() {
        status := s;
      }
    }
    assert cs[..|cs|] == cs;
    st := if status.IsRendered() then Rendered else NotRendered;
  }

  /** `render_children`. */
  method RenderChildren(cs: seq<Node>, res: Buffer, ctx: Context) returns (st: RenderStatus)
    modifies res
    ensures res.contents == old(res.contents) + Children(cs, ctx).text
    ensures st == Children(cs, ctx).status
    decreases cs
  {
    st := NotRendered;
    for i := 0 to |cs|
      invariant res.contents == old(res.contents) + Children(cs[..i], ctx).text
      invariant st == Children(cs[..i], ctx).status
    {
      assert cs[..i + 1][..i] == cs[..i];
      var s := RenderNode(cs[i], res, ctx);
      if s.IsRendered() {
        st := s;
      }
    }
    assert cs[..|cs|] == cs;
  }

  /** `render` without the parser and the final `println!`: the text of the whole tree. */
  method RenderDocument(root: Node) returns (out: string)
    ensures out == Render(root, RootContext).text
  {
    var res := new Buffer();
    var _ := RenderNode(root, res, RootContext);
    out := res.contents;
  }
}

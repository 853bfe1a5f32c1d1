/**
 * Properties of the renderer in src/html_render.rs, proved about the
 * specification functions of module HtmlRender (and so, through the
 * postconditions of its methods, about the imperative walker).
 */
module HtmlRenderProofs {
  import opened Options
  import opened HtmlRender

  // ---------------------------------------------------------------------
  // Status without text: a context-free reference definition
  // ---------------------------------------------------------------------

  /** Whether and how a subtree renders, computed without producing any text. */
  function StatusOf(n: Node): RenderStatus
    decreases n
  {
    match n
    case Document(cs) => LastRendered(cs)
    case Fragment(cs) => LastRendered(cs)
    case Text(s) => if Trim(s) == [] then NotRendered else Rendered
    case Element(name, _, cs) =>
      if name == "a" || name == "span" then RenderedRequiresSpace
      else if name == "script" then NotRendered
      else if CountRendered(cs) > 0 then Rendered
      else NotRendered
    case Comment => NotRendered
    case Doctype => NotRendered
    case ProcessingInstruction => NotRendered
  }

  /** The status of the last node of `cs` that renders, or NotRendered if none does. */
  function LastRendered(cs: seq<Node>): RenderStatus
    decreases cs
  {
    if cs == [] then NotRendered
    else if StatusOf(cs[|cs| - 1]).IsRendered() then StatusOf(cs[|cs| - 1])
    else LastRendered(cs[..|cs| - 1])
  }

  /** How many nodes of `cs` render. */
  function CountRendered(cs: seq<Node>): nat
    decreases cs
  {
    if cs == [] then 0
    else CountRendered(cs[..|cs| - 1]) + (if StatusOf(cs[|cs| - 1]).IsRendered() then 1 else 0)
  }

  /** The status a subtree reports never depends on the context it is rendered in. */
  lemma {:induction false} StatusIndependent(n: Node, ctx: Context)
    ensures Render(n, ctx).status == StatusOf(n)
    decreases n, 1
  {
    match n
    case Document(cs) => ChildrenStatus(cs, ctx);
    case Fragment(cs) => ChildrenStatus(cs, ctx);
    case Text(s) =>
    case Element(name, _, cs) =>
      if name == "a" || name == "span" || name == "script" {
      } else if name == "ul" {
        UlStatus(cs, ctx);
      } else if name == "ol" {
        OlStatus(cs, ctx);
      } else {
        BlockStatus(cs, ctx);
        LastRenderedIffCount(cs);
      }
    case Comment =>
    case Doctype =>
    case ProcessingInstruction =>
  }

  /** `render_children` reports the status of the last child that rendered. */
  lemma {:induction false} ChildrenStatus(cs: seq<Node>, ctx: Context)
    ensures Children(cs, ctx).status == LastRendered(cs)
    decreases cs, 0
  {
    if cs != [] {
      ChildrenStatus(cs[..|cs| - 1], ctx);
      StatusIndependent(cs[|cs| - 1], ctx);
    }
  }

  /** `ul` reports Rendered iff some child rendered. */
  lemma {:induction false} UlStatus(cs: seq<Node>, ctx: Context)
    ensures UlLoop(cs, ctx).status == if CountRendered(cs) > 0 then Rendered else NotRendered
    decreases cs, 0
  {
    if cs != [] {
      UlStatus(cs[..|cs| - 1], ctx);
      StatusIndependent(cs[|cs| - 1], ctx.Merge(UnorderedList));
    }
  }

  /** `ol` reports Rendered iff some child rendered, and its counter is one past the rendered children. */
  lemma {:induction false} OlStatus(cs: seq<Node>, ctx: Context)
    ensures OlLoop(cs, ctx).status == if CountRendered(cs) > 0 then Rendered else NotRendered
    ensures OlLoop(cs, ctx).count == 1 + CountRendered(cs)
    decreases cs, 0
  {
    if cs != [] {
      OlStatus(cs[..|cs| - 1], ctx);
      StatusIndependent(cs[|cs| - 1], ctx.Merge(OrderedList(OlLoop(cs[..|cs| - 1], ctx).count)));
    }
  }

  /** The running status of a generic element is the status of the last child that rendered. */
  lemma {:induction false} BlockStatus(cs: seq<Node>, ctx: Context)
    ensures BlockLoop(cs, ctx).status == LastRendered(cs)
    decreases cs, 0
  {
    if cs != [] {
      BlockStatus(cs[..|cs| - 1], ctx);
      StatusIndependent(cs[|cs| - 1], BlockContext(BlockLoop(cs[..|cs| - 1], ctx).status, ctx));
    }
  }

  /** Some child rendered exactly when the last-rendered status is not NotRendered. */
  lemma {:induction false} LastRenderedIffCount(cs: seq<Node>)
    ensures LastRendered(cs).IsRendered() <==> CountRendered(cs) > 0
  {
    if cs != [] {
      LastRenderedIffCount(cs[..|cs| - 1]);
    }
  }

  /** `LastRendered` is the status of a rendering child after which no child renders. */
  lemma {:induction false} LastRenderedIsLast(cs: seq<Node>)
    requires CountRendered(cs) > 0
    ensures exists j :: (0 <= j < |cs| && StatusOf(cs[j]).IsRendered() && LastRendered(cs) == StatusOf(cs[j])
      && forall k :: j < k < |cs| ==> !StatusOf(cs[k]).IsRendered())
  {
    var last := |cs| - 1;
    if !StatusOf(cs[last]).IsRendered() {
      var p := cs[..last];
      LastRenderedIsLast(p);
      var j :| 0 <= j < |p| && StatusOf(p[j]).IsRendered() && LastRendered(p) == StatusOf(p[j])
        && forall k :: j < k < |p| ==> !StatusOf(p[k]).IsRendered();
      assert cs[j] == p[j];
      assert forall k :: j < k < |cs| ==> !StatusOf(cs[k]).IsRendered() by {
        forall k | j < k < |cs| ensures !StatusOf(cs[k]).IsRendered() {
          if k < last {
            assert cs[k] == p[k];
          }
        }
      }
    }
  }

  // ---------------------------------------------------------------------
  // Empty-subtree elision
  // ---------------------------------------------------------------------

  /**
   * A subtree that reports NotRendered appended nothing; `script`, comments,
   * doctypes and processing instructions never render.
   */
  lemma {:induction false} EmptyElision(n: Node, ctx: Context)
    ensures Render(n, ctx).status == NotRendered ==> Render(n, ctx).text == ""
    ensures (n.Comment? || n.Doctype? || n.ProcessingInstruction? || (n.Element? && n.name == "script"))
      ==> Render(n, ctx) == Outcome("", NotRendered)
    decreases n, 1
  {
    match n
    case Document(cs) => ChildrenElision(cs, ctx);
    case Fragment(cs) => ChildrenElision(cs, ctx);
    case Text(s) =>
    case Element(name, _, cs) =>
      if name == "a" || name == "span" || name == "script" {
      } else if name == "ul" {
        UlElision(cs, ctx);
      } else if name == "ol" {
        OlElision(cs, ctx);
      } else {
        BlockElision(cs, ctx);
      }
    case Comment =>
    case Doctype =>
    case ProcessingInstruction =>
  }

  lemma {:induction false} ChildrenElision(cs: seq<Node>, ctx: Context)
    ensures Children(cs, ctx).status == NotRendered ==> Children(cs, ctx).text == ""
    decreases cs, 0
  {
    if cs != [] {
      ChildrenElision(cs[..|cs| - 1], ctx);
      EmptyElision(cs[|cs| - 1], ctx);
    }
  }

  lemma {:induction false} UlElision(cs: seq<Node>, ctx: Context)
    ensures UlLoop(cs, ctx).status == NotRendered ==> UlLoop(cs, ctx).text == ""
    decreases cs, 0
  {
    if cs != [] {
      UlElision(cs[..|cs| - 1], ctx);
      EmptyElision(cs[|cs| - 1], ctx.Merge(UnorderedList));
    }
  }

  lemma {:induction false} OlElision(cs: seq<Node>, ctx: Context)
    ensures OlLoop(cs, ctx).status == NotRendered ==> OlLoop(cs, ctx).text == ""
    decreases cs, 0
  {
    if cs != [] {
      OlElision(cs[..|cs| - 1], ctx);
      EmptyElision(cs[|cs| - 1], ctx.Merge(OrderedList(OlLoop(cs[..|cs| - 1], ctx).count)));
    }
  }

  lemma {:induction false} BlockElision(cs: seq<Node>, ctx: Context)
    ensures BlockLoop(cs, ctx).status == NotRendered ==> BlockLoop(cs, ctx).text == ""
    decreases cs, 0
  {
    if cs != [] {
      BlockElision(cs[..|cs| - 1], ctx);
      EmptyElision(cs[|cs| - 1], BlockContext(BlockLoop(cs[..|cs| - 1], ctx).status, ctx));
    }
  }

  // ---------------------------------------------------------------------
  // Ordered lists
  // ---------------------------------------------------------------------

  /** Child `i` of an `ol` is rendered with ordinal one more than the number of earlier children that rendered. */
  lemma OlChildOrdinal(cs: seq<Node>, ctx: Context, i: nat)
    requires i < |cs|
    ensures OlLoop(cs[..i + 1], ctx).text
      == OlLoop(cs[..i], ctx).text + Render(cs[i], ctx.Merge(OrderedList(1 + CountRendered(cs[..i])))).text
  {
    OlLoopStep(cs, ctx, i);
    OlStatus(cs[..i], ctx);
  }

  /** Counting a prefix one child longer adds one exactly when that child renders. */
  lemma CountStep(cs: seq<Node>, i: nat)
    requires i < |cs|
    ensures CountRendered(cs[..i + 1]) == CountRendered(cs[..i]) + (if StatusOf(cs[i]).IsRendered() then 1 else 0)
  {
    assert cs[..i + 1][..i] == cs[..i];
  }

  /** Counting a longer prefix never gives less. */
  lemma {:induction false} CountMonotone(cs: seq<Node>, i: nat, j: nat)
    requires i <= j <= |cs|
    ensures CountRendered(cs[..i]) <= CountRendered(cs[..j])
    decreases j - i
  {
    if i < j {
      CountMonotone(cs, i, j - 1);
      CountStep(cs, j - 1);
    }
  }

  /**
   * The ordinals of an `ol`: a rendering child `i` gets `1 + CountRendered(cs[..i])`;
   * these lie in 1..M (M the number of rendering children), rise strictly in
   * document order, and every k in 1..M is used.
   */
  lemma {:induction false} OrdinalsAreOneToM(cs: seq<Node>)
    ensures forall i :: (0 <= i < |cs| && StatusOf(cs[i]).IsRendered()
      ==> 1 <= 1 + CountRendered(cs[..i]) <= CountRendered(cs))
    ensures forall i, j :: (0 <= i < j < |cs| && StatusOf(cs[i]).IsRendered()
      ==> CountRendered(cs[..i]) < CountRendered(cs[..j]))
    ensures forall k :: 1 <= k <= CountRendered(cs) ==> OrdinalUsed(cs, |cs|, k)
  {
    assert cs[..|cs|] == cs;
    forall i | 0 <= i < |cs| && StatusOf(cs[i]).IsRendered()
      ensures 1 + CountRendered(cs[..i]) <= CountRendered(cs)
    {
      CountStep(cs, i);
      CountMonotone(cs, i + 1, |cs|);
    }
    forall i, j | 0 <= i < j < |cs| && StatusOf(cs[i]).IsRendered()
      ensures CountRendered(cs[..i]) < CountRendered(cs[..j])
    {
      CountStep(cs, i);
      CountMonotone(cs, i + 1, j);
    }
    forall k | 1 <= k <= CountRendered(cs)
      ensures OrdinalUsed(cs, |cs|, k)
    {
      OrdinalUsedBelow(cs, |cs|, k);
    }
  }

  /** Ordinal `k` is given to some rendering child among the first `m` children. */
  ghost predicate OrdinalUsed(cs: seq<Node>, m: nat, k: nat)
    requires m <= |cs|
  {
    exists i :: 0 <= i < m && StatusOf(cs[i]).IsRendered() && 1 + CountRendered(cs[..i]) == k
  }

  /** Every ordinal up to the count of a prefix belongs to a rendering child inside that prefix. */
  lemma {:induction false} OrdinalUsedBelow(cs: seq<Node>, m: nat, k: nat)
    requires m <= |cs| && 1 <= k <= CountRendered(cs[..m])
    ensures OrdinalUsed(cs, m, k)
  {
    CountStep(cs, m - 1);
    if k == CountRendered(cs[..m]) && StatusOf(cs[m - 1]).IsRendered() {
      assert 1 + CountRendered(cs[..m - 1]) == k;
    } else {
      OrdinalUsedBelow(cs, m - 1, k);
    }
  }

  // ---------------------------------------------------------------------
  // The flow rule of generic elements
  // ---------------------------------------------------------------------

  /**
   * Child `i` of a generic element gets the NewParagraph-merged context while no
   * earlier child has rendered; afterwards Inline if the last child that rendered
   * reported Rendered, RequiresSpace if it reported RenderedRequiresSpace.
   */
  lemma BlockChildContext(cs: seq<Node>, ctx: Context, i: nat)
    requires i < |cs|
    ensures BlockLoop(cs[..i + 1], ctx).text == BlockLoop(cs[..i], ctx).text + Render(cs[i],
      if CountRendered(cs[..i]) == 0 then ctx.Merge(NewParagraph)
      else if LastRendered(cs[..i]) == Rendered then Context(Inline, ctx.indent)
      else Context(RequiresSpace, ctx.indent)).text
  {
    assert cs[..i + 1][..i] == cs[..i];
    BlockStatus(cs[..i], ctx);
    LastRenderedIffCount(cs[..i]);
  }

  /** A generic element reports Rendered iff some child renders, whatever the children report. */
  lemma GenericElementStatus(name: string, href: Option<string>, cs: seq<Node>, ctx: Context)
    requires name !in {"a", "span", "script", "ul", "ol"}
    ensures Render(Element(name, href, cs), ctx).status
      == if exists i :: 0 <= i < |cs| && StatusOf(cs[i]).IsRendered() then Rendered else NotRendered
  {
    StatusIndependent(Element(name, href, cs), ctx);
    CountPositiveIffSome(cs);
  }

  /** `CountRendered` is positive iff some node renders. */
  lemma {:induction false} CountPositiveIffSome(cs: seq<Node>)
    ensures CountRendered(cs) > 0 <==> exists i :: 0 <= i < |cs| && StatusOf(cs[i]).IsRendered()
  {
    if cs != [] {
      var p := cs[..|cs| - 1];
      CountPositiveIffSome(p);
      if exists i :: 0 <= i < |p| && StatusOf(p[i]).IsRendered() {
        var i :| 0 <= i < |p| && StatusOf(p[i]).IsRendered();
        assert cs[i] == p[i];
      }
      if exists i :: 0 <= i < |cs| && StatusOf(cs[i]).IsRendered() {
        var i :| 0 <= i < |cs| && StatusOf(cs[i]).IsRendered();
        if i < |p| {
          assert cs[i] == p[i];
        }
      }
    }
  }

  // ---------------------------------------------------------------------
  // Contexts reached from the root keep indent 0
  // ---------------------------------------------------------------------

  /** Nodes whose children `render_node` visits. */
  predicate Visits(n: Node)
  {
    n.Document? || n.Fragment? || (n.Element? && n.name != "script")
  }

  /** The context child `i` of `n` is rendered with, in closed form. */
  function ChildContext(n: Node, ctx: Context, i: nat): Context
    requires Visits(n) && i < |n.children|
  {
    if n.Document? || n.Fragment? then ctx
    else if n.name == "a" || n.name == "span" then Context(Inline, ctx.indent)
    else if n.name == "ul" then ctx.Merge(UnorderedList)
    else if n.name == "ol" then ctx.Merge(OrderedList(1 + CountRendered(n.children[..i])))
    else BlockContext(LastRendered(n.children[..i]), ctx)
  }

  /** The text the child loop of `n` has appended after its first `k` children. */
  function LoopText(n: Node, ctx: Context, k: nat): string
    requires Visits(n) && k <= |n.children|
  {
    var p := n.children[..k];
    if n.Document? || n.Fragment? then Children(p, ctx).text
    else if n.name == "a" || n.name == "span" then Children(p, Context(Inline, ctx.indent)).text
    else if n.name == "ul" then UlLoop(p, ctx).text
    else if n.name == "ol" then OlLoop(p, ctx).text
    else BlockLoop(p, ctx).text
  }

  /** Each child loop renders child `i` under `ChildContext(n, ctx, i)`. */
  lemma ChildRenderedUnder(n: Node, ctx: Context, i: nat)
    requires Visits(n) && i < |n.children|
    ensures LoopText(n, ctx, i + 1) == LoopText(n, ctx, i) + Render(n.children[i], ChildContext(n, ctx, i)).text
  {
    var cs := n.children;
    assert cs[..i + 1][..i] == cs[..i];
    if n.Element? && n.name == "ol" {
      OlChildOrdinal(cs, ctx, i);
    } else if n.Element? && n.name !in {"a", "span", "ul"} {
      BlockStatus(cs[..i], ctx);
    }
  }

  /** `c` is `ctx` or a context some descendant of `n` is rendered with. */
  ghost predicate Reaches(n: Node, ctx: Context, c: Context)
    decreases n
  {
    c == ctx
    || (Visits(n) && exists i :: 0 <= i < |n.children| && Reaches(n.children[i], ChildContext(n, ctx, i), c))
  }

  /** No context derived during the walk changes the indent. */
  lemma {:induction false} ReachedIndentUnchanged(n: Node, ctx: Context, c: Context)
    requires Reaches(n, ctx, c)
    ensures c.indent == ctx.indent
    decreases n
  {
    if c != ctx {
      var i :| 0 <= i < |n.children| && Reaches(n.children[i], ChildContext(n, ctx, i), c);
      ReachedIndentUnchanged(n.children[i], ChildContext(n, ctx, i), c);
    }
  }

  /** From `render`'s root context every reached context has indent 0, so the indent loops emit nothing. */
  lemma RootIndentZero(root: Node, c: Context)
    requires Reaches(root, RootContext, c)
    ensures c.indent == 0
    ensures Spaces(c.indent) == "" && Spaces(c.Merge(RequiresSpace).indent) == ""
  {
    ReachedIndentUnchanged(root, RootContext, c);
  }

  // ---------------------------------------------------------------------
  // Separators, text, links and spans
  // ---------------------------------------------------------------------

  /** The separator `render_context` writes for each context type at indent 0. */
  lemma SeparatorAtIndentZero(k: ContextType, first: char)
    ensures Separator(Context(k, 0), first) ==
      match k
      case Inline => ""
      case RequiresSpace => if first in {'.', ',', ';'} then "" else " "
      case NewParagraph => "\n\n"
      case UnorderedList => "\n* "
      case OrderedList(n) => "\n" + Decimal(n) + " "
  {
    assert Spaces(0) == "";
    match k
    case Inline =>
    case RequiresSpace =>
    case NewParagraph => assert "\n\n" + "" == "\n\n";
    case UnorderedList => assert "\n" + "" + "* " == "\n* ";
    case OrderedList(n) => assert "\n" + "" + Decimal(n) + " " == "\n" + Decimal(n) + " ";
  }

  /** A separator is empty only under Inline, or under RequiresSpace before `.`, `,` or `;`. */
  lemma SeparatorEmptyIff(ctx: Context, first: char)
    ensures Separator(ctx, first) == "" <==>
      ctx.kind == Inline || (ctx.kind == RequiresSpace && first in {'.', ',', ';'})
  {
    match ctx.kind
    case Inline =>
    case RequiresSpace =>
    case NewParagraph => assert Separator(ctx, first)[0] == '\n';
    case UnorderedList => assert Separator(ctx, first)[0] == '\n';
    case OrderedList(_) => assert Separator(ctx, first)[0] == '\n';
  }

  /** `format!("{}", n)` reads back as `n`. */
  lemma {:induction false} DecimalRoundTrip(n: nat)
    ensures DecimalValue(Decimal(n)) == n
    decreases n
  {
    if n >= 10 {
      DecimalRoundTrip(n / 10);
      var d := Decimal(n / 10);
      var s := d + [Digit(n % 10)];
      assert s[..|s| - 1] == d;
    }
  }

  /**
   * A text node renders nothing iff it is all whitespace; otherwise it appends
   * the separator for its first surviving character followed by the trimmed
   * text with newlines turned into spaces.
   */
  lemma TextNodeRule(s: string, ctx: Context)
    ensures Render(Text(s), ctx).status == NotRendered <==> forall i :: 0 <= i < |s| ==> IsWhitespace(s[i])
    ensures Render(Text(s), ctx).status != NotRendered ==>
      var trimmed := Trim(s);
      var t := ReplaceNewlines(trimmed);
      && Render(Text(s), ctx) == Outcome(Separator(ctx, t[0]) + t, Rendered)
      && |t| == |trimmed|
      && (forall i :: 0 <= i < |t| ==> t[i] != '\n')
      && t[0] == trimmed[0] && !IsWhitespace(t[0])
      && t[|t| - 1] == trimmed[|trimmed| - 1] && !IsWhitespace(t[|t| - 1])
    ensures Render(Text(s), ctx).status == NotRendered ==> Render(Text(s), ctx).text == ""
  {
    var trimmed := Trim(s);
    TrimSpec(s);
    if trimmed != [] {
      ReplaceNewlinesSpec(trimmed);
      assert IsWhitespace('\n');
    }
  }

  /**
   * A link always reports RenderedRequiresSpace; its text is the
   * RequiresSpace-merged separator, `[`, the children rendered inline, `](`,
   * the href (or nothing), `)`. After inline content it therefore starts with " [".
   */
  lemma LinkRule(href: Option<string>, cs: seq<Node>, ctx: Context)
    ensures Render(Element("a", href, cs), ctx).status == RenderedRequiresSpace
    ensures Render(Element("a", href, cs), ctx).text ==
      Separator(ctx.Merge(RequiresSpace), '[') + "[" + Children(cs, Context(Inline, ctx.indent)).text
      + "](" + href.GetOr("") + ")"
    ensures Precedence(ctx.kind) <= 1 ==>
      |Render(Element("a", href, cs), ctx).text| >= 2 && Render(Element("a", href, cs), ctx).text[..2] == " ["
  {
    var t := Render(Element("a", href, cs), ctx).text;
    if Precedence(ctx.kind) <= 1 {
      assert ctx.Merge(RequiresSpace).kind == RequiresSpace;
      assert Separator(ctx.Merge(RequiresSpace), '[') == " ";
      assert t[0] == ' ' && t[1] == '[';
    }
  }

  /**
   * A span always reports RenderedRequiresSpace, even when it appends nothing;
   * its lookahead is a space, so under RequiresSpace it always starts with one.
   */
  lemma SpanRule(href: Option<string>, cs: seq<Node>, ctx: Context)
    ensures Render(Element("span", href, cs), ctx).status == RenderedRequiresSpace
    ensures ctx.kind == RequiresSpace ==>
      |Render(Element("span", href, cs), ctx).text| >= 1 && Render(Element("span", href, cs), ctx).text[0] == ' '
    ensures ctx.kind == Inline && (forall i :: 0 <= i < |cs| ==> StatusOf(cs[i]) == NotRendered)
      ==> Render(Element("span", href, cs), ctx).text == ""
  {
    if ctx.kind == Inline && (forall i :: 0 <= i < |cs| ==> StatusOf(cs[i]) == NotRendered) {
      var inner := Context(Inline, ctx.indent);
      ChildrenStatus(cs, inner);
      NoneRenderedLast(cs);
      ChildrenElision(cs, inner);
    }
  }

  lemma {:induction false} NoneRenderedLast(cs: seq<Node>)
    requires forall i :: 0 <= i < |cs| ==> StatusOf(cs[i]) == NotRendered
    ensures LastRendered(cs) == NotRendered
  {
    if cs != [] {
      var p := cs[..|cs| - 1];
      assert forall i :: 0 <= i < |p| ==> p[i] == cs[i];
      NoneRenderedLast(p);
    }
  }
}

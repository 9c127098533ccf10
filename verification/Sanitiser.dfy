/** The filter between a report snapshot and the printing browser: a stack machine over parser events. */
module Sanitiser {
  import opened Prelude

  /** A value of None is an attribute without a value. */
  datatype Attr = Attr(key: string, value: Option<string>)

  datatype Event =
    | Start(tag: string, attrs: seq<Attr>)
    | StartEnd(tag: string, attrs: seq<Attr>)
    | End(tag: string)
    | Data(text: string)

  /** The pattern tests: an embedded image, a harmless style, a mention of `url`, a reference to a fragment. */
  datatype Policy = Policy(imageOk: string -> bool, styleOk: string -> bool, hasUrl: string -> bool,
                           fragmentOk: string -> bool)

  const PLACEHOLDER_STYLE := "font-size:10px;color:#53627b"
  const PLACEHOLDER_TEXT := "Фото недоступно"

  predicate Allowed(tag: string)
  {
    tag in {"div", "span", "p", "a", "label", "pre", "code", "h1", "h2", "h3", "h4", "h5", "h6", "section",
      "article", "main", "header", "footer", "details", "summary", "small", "strong", "b", "em", "i", "u", "s", "br",
      "hr", "ul", "ol", "li", "dl", "dt", "dd", "table", "thead", "tbody", "tfoot", "tr", "th", "td", "caption",
      "colgroup", "col", "img", "svg", "g", "path", "rect", "circle", "ellipse", "line", "polyline", "polygon",
      "text", "tspan", "defs", "lineargradient", "radialgradient", "stop", "clippath", "mask", "pattern", "title",
      "desc"}
  }

  predicate Void(tag: string)
  {
    tag in {"img", "br", "hr", "col"}
  }

  predicate AllowedAttr(key: string)
  {
    key in {"open", "class", "style", "title", "colspan", "rowspan", "scope", "width", "height", "viewbox",
      "preserveaspectratio", "x", "y", "x1", "x2", "y1", "y2", "dx", "dy", "d", "points", "fill", "stroke",
      "stroke-width", "stroke-dasharray", "stroke-linecap", "stroke-linejoin", "opacity", "fill-opacity",
      "stroke-opacity", "transform", "text-anchor", "dominant-baseline", "font-size", "font-family", "font-weight",
      "clip-path", "id", "offset", "stop-color", "stop-opacity", "gradientunits", "gradienttransform",
      "patternunits", "patterntransform", "r", "rx", "ry", "cx", "cy"}
  }

  predicate Painted(key: string)
  {
    key in {"fill", "stroke", "clip-path"}
  }

  /** What the patterns of the source answer on the texts that the filter itself writes. */
  predicate Sane(policy: Policy)
  {
    !policy.imageOk("") && policy.styleOk("") && policy.styleOk(PLACEHOLDER_STYLE)
  }

  lemma Names()
    ensures Allowed("img") && Void("img") && Allowed("span") && !Void("span")
    ensures AllowedAttr("style") && !AllowedAttr("src") && !AllowedAttr("data-pdf-image")
  {
  }

  // ---------------------------------------------------------------- attributes

  function OrEmpty(v: Option<string>): string
  {
    if v.Some? then v.value else ""
  }

  function SafeStyle(policy: Policy, value: string): string
  {
    if policy.styleOk(value) then value else ""
  }

  function Keep(policy: Policy, tag: string, a: Attr): Option<Attr>
  {
    var value := OrEmpty(a.value);
    if a.key == "src" && tag == "img" then
      (if policy.imageOk(value) then Some(Attr(a.key, Some(value))) else None)
    else if !AllowedAttr(a.key) then None
    else
      var styled := if a.key == "style" then SafeStyle(policy, value) else value;
      if Painted(a.key) && policy.hasUrl(styled) && !policy.fragmentOk(styled) then None
      else Some(Attr(a.key, Some(styled)))
  }

  function SafeAttrs(policy: Policy, tag: string, attrs: seq<Attr>): seq<Attr>
  {
    if attrs == [] then [] else
      var front := SafeAttrs(policy, tag, attrs[..|attrs| - 1]);
      var kept := Keep(policy, tag, attrs[|attrs| - 1]);
      if kept.Some? then front + [kept.value] else front
  }

  /** The last value of a key, empty if it is missing. */
  function Last(attrs: seq<Attr>, key: string): string
  {
    if attrs == [] then "" else
      var a := attrs[|attrs| - 1];
      if a.key == key then OrEmpty(a.value) else Last(attrs[..|attrs| - 1], key)
  }

  function WithoutImage(attrs: seq<Attr>): seq<Attr>
  {
    if attrs == [] then [] else
      var front := WithoutImage(attrs[..|attrs| - 1]);
      var a := attrs[|attrs| - 1];
      if a.key == "src" || a.key == "data-pdf-image" then front else front + [a]
  }

  /** What the loader answers when it is asked for the n-th time: it may answer the same address differently later,
      because its budget is used up or its time is over. */
  type Loader = (nat, string) -> Option<string>

  /** What the loader gives for an image; nothing and the empty text both mean that there is none. */
  function Embedded(loader: Loader, n: nat, attrs: seq<Attr>): string
  {
    OrEmpty(loader(n, Last(attrs, "data-pdf-image")))
  }

  /** The attributes an image is printed with, or None for the placeholder. */
  function ImageAttrs(policy: Policy, loader: Loader, n: nat, attrs: seq<Attr>): Option<seq<Attr>>
  {
    if Last(attrs, "data-pdf-image") != "" then
      (if Embedded(loader, n, attrs) == "" then None
       else Some(WithoutImage(attrs) + [Attr("src", Some(Embedded(loader, n, attrs)))]))
    else if policy.imageOk(Last(attrs, "src")) then Some(attrs)
    else None
  }

  const PLACEHOLDER := [Start("span", [Attr("style", Some(PLACEHOLDER_STYLE))]), Data(PLACEHOLDER_TEXT), End("span")]

  // ---------------------------------------------------------------- the stack machine

  datatype Open = Open(tag: string, allowed: bool)

  /** `asked` counts the calls of the loader. */
  datatype Parser = Parser(stack: seq<Open>, blocked: int, output: seq<Event>, asked: nat)

  const FRESH := Parser([], 0, [], 0)

  /** The calls of the loader for an element that is shown. */
  function Calls(tag: string, attrs: seq<Attr>): nat
  {
    if tag == "img" && Last(attrs, "data-pdf-image") != "" then 1 else 0
  }

  function HandleStart(policy: Policy, loader: Loader, p: Parser, tag: string, attrs: seq<Attr>): Parser
  {
    if p.blocked != 0 || !Allowed(tag) then
      (if Void(tag) then p else p.(stack := p.stack + [Open(tag, false)], blocked := p.blocked + 1))
    else
      var shown := if tag == "img" then ImageAttrs(policy, loader, p.asked, attrs) else Some(attrs);
      var asked := p.asked + Calls(tag, attrs);
      if shown.None? then p.(output := p.output + PLACEHOLDER, asked := asked)
      else
        p.(output := p.output + [Start(tag, SafeAttrs(policy, tag, shown.value))],
           stack := if Void(tag) then p.stack else p.stack + [Open(tag, true)], asked := asked)
  }

  /** A closing tag without any open element is ignored; one that does not match is an error. */
  function HandleEnd(p: Parser, tag: string): Option<Parser>
  {
    if p.stack == [] then Some(p)
    else
      var top := p.stack[|p.stack| - 1];
      if top.tag != tag then None
      else if top.allowed then Some(p.(stack := p.stack[..|p.stack| - 1], output := p.output + [End(tag)]))
      else Some(p.(stack := p.stack[..|p.stack| - 1], blocked := p.blocked - 1))
  }

  function Handle(policy: Policy, loader: Loader, p: Parser, e: Event): Option<Parser>
  {
    match e
    case Start(tag, attrs) => Some(HandleStart(policy, loader, p, tag, attrs))
    case StartEnd(tag, attrs) =>
      var started := HandleStart(policy, loader, p, tag, attrs);
      if Void(tag) then Some(started) else HandleEnd(started, tag)
    case End(tag) => HandleEnd(p, tag)
    case Data(text) => Some(if p.blocked != 0 then p else p.(output := p.output + [Data(text)]))
  }

  function Run(policy: Policy, loader: Loader, events: seq<Event>): Option<Parser>
  {
    if events == [] then Some(FRESH) else
      var front := Run(policy, loader, events[..|events| - 1]);
      if front.None? then None else Handle(policy, loader, front.value, events[|events| - 1])
  }

  /** The accepted document: everything closed again, and not empty. */
  function Sanitise(policy: Policy, loader: Loader, events: seq<Event>): Option<seq<Event>>
  {
    var p := Run(policy, loader, events);
    if p.None? || p.value.stack != [] || p.value.output == [] then None else Some(p.value.output)
  }

  // ---------------------------------------------------------------- the stack and the block counter

  function Rejected(stack: seq<Open>): nat
  {
    if stack == [] || stack[|stack| - 1].allowed then 0 else 1 + Rejected(stack[..|stack| - 1])
  }

  /** An open element is shown exactly when it is allowed and nothing around it is rejected. */
  predicate StackOk(stack: seq<Open>)
  {
    stack != [] ==>
      var front, top := stack[..|stack| - 1], stack[|stack| - 1];
      StackOk(front) && !Void(top.tag) && (top.allowed <==> Rejected(front) == 0 && Allowed(top.tag))
  }

  /** Some open element has a tag that is not allowed. */
  predicate Within(stack: seq<Open>)
  {
    exists i :: 0 <= i < |stack| && !Allowed(stack[i].tag)
  }

  predicate ParserOk(p: Parser)
  {
    StackOk(p.stack) && p.blocked == Rejected(p.stack)
  }

  /** The rejected entries are exactly the top of the stack, from the first tag that is not allowed on. */
  lemma {:induction false} RejectedIs(stack: seq<Open>)
    requires StackOk(stack)
    ensures Rejected(stack) <= |stack|
    ensures forall i :: 0 <= i < |stack| ==> (stack[i].allowed <==> i < |stack| - Rejected(stack))
    ensures Rejected(stack) > 0 <==> Within(stack)
  {
    hide Allowed, Void;
    if stack != [] {
      var n := |stack| - 1;
      var front := stack[..n];
      RejectedIs(front);
      assert Within(stack) <==> Within(front) || !Allowed(stack[n].tag) by {
        if Within(front) {
          var i :| 0 <= i < n && !Allowed(front[i].tag);
          assert !Allowed(stack[i].tag);
        }
      }
      assert forall i :: 0 <= i < n ==> stack[i] == front[i];
    }
  }

  lemma StackPush(stack: seq<Open>, o: Open)
    requires StackOk(stack) && !Void(o.tag) && (o.allowed <==> Rejected(stack) == 0 && Allowed(o.tag))
    ensures StackOk(stack + [o]) && Rejected(stack + [o]) == if o.allowed then 0 else Rejected(stack) + 1
  {
    hide Allowed, Void;
    assert (stack + [o])[..|stack|] == stack;
  }

  lemma HandleKeeps(policy: Policy, loader: Loader, p: Parser, e: Event)
    requires ParserOk(p) && Handle(policy, loader, p, e).Some?
    ensures ParserOk(Handle(policy, loader, p, e).value)
  {
    hide Allowed, Void, SafeAttrs, ImageAttrs;
    if e.Start? || e.StartEnd? {
      StartKeeps(policy, loader, p, e.tag, e.attrs);
    }
    if e.End? {
      EndKeeps(p, e.tag);
    } else if e.StartEnd? && !Void(e.tag) {
      EndKeeps(HandleStart(policy, loader, p, e.tag, e.attrs), e.tag);
    }
  }

  lemma StartKeeps(policy: Policy, loader: Loader, p: Parser, tag: string, attrs: seq<Attr>)
    requires ParserOk(p)
    ensures ParserOk(HandleStart(policy, loader, p, tag, attrs))
  {
    Names();
    hide Allowed, Void, SafeAttrs, ImageAttrs, StackOk, Rejected;
    if !Void(tag) {
      StackPush(p.stack, Open(tag, p.blocked == 0 && Allowed(tag)));
    }
    var s := HandleStart(policy, loader, p, tag, attrs);
    if Void(tag) {
      assert s.stack == p.stack && s.blocked == p.blocked;
    } else {
      assert tag != "img";
      assert s.stack == p.stack + [Open(tag, p.blocked == 0 && Allowed(tag))];
    }
  }

  lemma EndKeeps(p: Parser, tag: string)
    requires ParserOk(p) && HandleEnd(p, tag).Some?
    ensures ParserOk(HandleEnd(p, tag).value)
  {
    hide Allowed, Void;
  }

  /** After every prefix of every event stream, the block counter is the number of rejected entries, and these
      are the top of the stack. */
  lemma {:induction false} BlockedIs(policy: Policy, loader: Loader, events: seq<Event>)
    requires Run(policy, loader, events).Some?
    ensures ParserOk(Run(policy, loader, events).value)
  {
    hide Handle, Allowed, Void;
    if events != [] {
      BlockedIs(policy, loader, events[..|events| - 1]);
      HandleKeeps(policy, loader, Run(policy, loader, events[..|events| - 1]).value, events[|events| - 1]);
      hide Rejected;
    }
  }

  /** Inside an element that is not allowed nothing is written, whatever the event. */
  lemma NothingFromRejected(policy: Policy, loader: Loader, events: seq<Event>, e: Event)
    requires Run(policy, loader, events).Some? && Within(Run(policy, loader, events).value.stack)
    requires Run(policy, loader, events + [e]).Some?
    ensures Run(policy, loader, events + [e]).value.output == Run(policy, loader, events).value.output
  {
    var p := Run(policy, loader, events).value;
    BlockedIs(policy, loader, events);
    RejectedIs(p.stack);
    assert (events + [e])[..|events|] == events;
    hide Run, StackOk, Within, Allowed, Void, SafeAttrs, ImageAttrs;
    assert p.blocked > 0 && !p.stack[|p.stack| - 1].allowed;
  }

  // ---------------------------------------------------------------- the output is balanced

  /** Plain tag nesting, with no notion of a policy: the open elements, or None if the tags do not match. */
  function Nest(tokens: seq<Event>): Option<seq<string>>
  {
    if tokens == [] then Some([]) else
      var open := Nest(tokens[..|tokens| - 1]);
      if open.None? then None else NestOne(open.value, tokens[|tokens| - 1])
  }

  function NestOne(open: seq<string>, e: Event): Option<seq<string>>
  {
    match e
    case Start(tag, _) => if Void(tag) then Some(open) else Some(open + [tag])
    case StartEnd(_, _) => None
    case End(tag) => if open != [] && open[|open| - 1] == tag then Some(open[..|open| - 1]) else None
    case Data(_) => Some(open)
  }

  function ShownTags(stack: seq<Open>): seq<string>
  {
    if stack == [] then [] else
      var front, top := ShownTags(stack[..|stack| - 1]), stack[|stack| - 1];
      if top.allowed then front + [top.tag] else front
  }

  lemma NestMore(tokens: seq<Event>, e: Event)
    requires Nest(tokens).Some?
    ensures Nest(tokens + [e]) == NestOne(Nest(tokens).value, e)
  {
    assert (tokens + [e])[..|tokens|] == tokens;
  }

  lemma NestElement(tokens: seq<Event>, tag: string, attrs: seq<Attr>, text: string)
    requires Nest(tokens).Some? && !Void(tag)
    ensures Nest(tokens + [Start(tag, attrs), Data(text), End(tag)]) == Nest(tokens)
  {
    hide Void;
    var a := tokens + [Start(tag, attrs)];
    var b := a + [Data(text)];
    NestMore(tokens, Start(tag, attrs));
    NestMore(a, Data(text));
    NestMore(b, End(tag));
    hide Nest;
    var open := Nest(tokens).value;
    assert (open + [tag])[..|open|] == open;
    assert tokens + [Start(tag, attrs), Data(text), End(tag)] == b + [End(tag)];
  }

  lemma NestPlaceholder(tokens: seq<Event>)
    requires Nest(tokens).Some?
    ensures Nest(tokens + PLACEHOLDER) == Nest(tokens)
  {
    Names();
    hide Nest, Void, Allowed, AllowedAttr;
    NestElement(tokens, "span", [Attr("style", Some(PLACEHOLDER_STYLE))], PLACEHOLDER_TEXT);
  }

  /** What one event writes. */
  function Written(policy: Policy, loader: Loader, p: Parser, tag: string, attrs: seq<Attr>): seq<Event>
  {
    if p.blocked != 0 || !Allowed(tag) then []
    else
      var shown := if tag == "img" then ImageAttrs(policy, loader, p.asked, attrs) else Some(attrs);
      if shown.None? then PLACEHOLDER else [Start(tag, SafeAttrs(policy, tag, shown.value))]
  }

  lemma StartIs(policy: Policy, loader: Loader, p: Parser, tag: string, attrs: seq<Attr>)
    ensures var s := HandleStart(policy, loader, p, tag, attrs); var shown := p.blocked == 0 && Allowed(tag);
      && s.output == p.output + Written(policy, loader, p, tag, attrs)
      && s.stack == (if Void(tag) then p.stack else p.stack + [Open(tag, shown)])
      && s.blocked == (if Void(tag) || shown then p.blocked else p.blocked + 1)
      && s.asked == p.asked + if shown then Calls(tag, attrs) else 0
  {
    Names();
    hide Allowed, Void, SafeAttrs, ImageAttrs;
  }

  predicate Matches(p: Parser)
  {
    Nest(p.output) == Some(ShownTags(p.stack))
  }

  lemma NestWritten(policy: Policy, loader: Loader, p: Parser, tag: string, attrs: seq<Attr>)
    requires Nest(p.output).Some?
    ensures var open := Nest(p.output).value;
      Nest(p.output + Written(policy, loader, p, tag, attrs))
      == Some(if p.blocked != 0 || !Allowed(tag) || Void(tag) then open else open + [tag])
  {
    Names();
    NestPlaceholder(p.output);
    hide Allowed, Void, SafeAttrs, ImageAttrs, Nest;
    var shown := if tag == "img" then ImageAttrs(policy, loader, p.asked, attrs) else Some(attrs);
    if p.blocked != 0 || !Allowed(tag) {
      assert p.output + [] == p.output;
    } else if shown.Some? {
      NestMore(p.output, Start(tag, SafeAttrs(policy, tag, shown.value)));
    }
  }

  lemma ShownMore(stack: seq<Open>, o: Open)
    ensures ShownTags(stack + [o]) == ShownTags(stack) + if o.allowed then [o.tag] else []
  {
    assert (stack + [o])[..|stack|] == stack;
  }

  lemma StartMatches(policy: Policy, loader: Loader, p: Parser, tag: string, attrs: seq<Attr>)
    requires Matches(p)
    ensures Matches(HandleStart(policy, loader, p, tag, attrs))
  {
    StartIs(policy, loader, p, tag, attrs);
    NestWritten(policy, loader, p, tag, attrs);
    hide Allowed, Void, Written, HandleStart, Nest, ShownTags;
    ShownMore(p.stack, Open(tag, p.blocked == 0 && Allowed(tag)));
  }

  lemma EndMatches(p: Parser, tag: string)
    requires Matches(p) && HandleEnd(p, tag).Some?
    ensures Matches(HandleEnd(p, tag).value)
  {
    if p.stack != [] {
      NestMore(p.output, End(tag));
      var front := ShownTags(p.stack[..|p.stack| - 1]);
      assert (front + [tag])[..|front|] == front;
    }
  }

  /** Whatever the events, the tags written so far nest properly, and those still open are exactly the shown
      elements on the stack. */
  lemma {:induction false} OutputNests(policy: Policy, loader: Loader, events: seq<Event>)
    requires Run(policy, loader, events).Some?
    ensures Matches(Run(policy, loader, events).value)
  {
    if events != [] {
      var front, e := events[..|events| - 1], events[|events| - 1];
      OutputNests(policy, loader, front);
      var p := Run(policy, loader, front).value;
      hide Run, HandleStart, Allowed, Void, Nest, ShownTags;
      match e
      case Start(tag, attrs) => StartMatches(policy, loader, p, tag, attrs);
      case StartEnd(tag, attrs) =>
        StartMatches(policy, loader, p, tag, attrs);
        if !Void(tag) { EndMatches(HandleStart(policy, loader, p, tag, attrs), tag); }
      case End(tag) => EndMatches(p, tag);
      case Data(text) => NestMore(p.output, Data(text));
    }
  }

  /** An accepted document is balanced. */
  lemma Balanced(policy: Policy, loader: Loader, events: seq<Event>)
    requires Sanitise(policy, loader, events).Some?
    ensures Nest(Sanitise(policy, loader, events).value) == Some([])
  {
    OutputNests(policy, loader, events);
  }

  // ---------------------------------------------------------------- only allowed tags and attributes

  predicate CleanAttr(policy: Policy, tag: string, a: Attr)
  {
    a.value.Some? && Keep(policy, tag, a) == Some(a)
  }

  predicate CleanToken(policy: Policy, e: Event)
  {
    match e
    case Start(tag, attrs) => Allowed(tag) && forall i :: 0 <= i < |attrs| ==> CleanAttr(policy, tag, attrs[i])
    case StartEnd(_, _) => false
    case End(_) => true
    case Data(_) => true
  }

  predicate CleanAll(policy: Policy, tokens: seq<Event>)
  {
    forall i :: 0 <= i < |tokens| ==> CleanToken(policy, tokens[i])
  }

  /** An attribute that was kept is kept as it is. */
  lemma KeepTwice(policy: Policy, tag: string, a: Attr)
    requires Sane(policy) && Keep(policy, tag, a).Some?
    ensures CleanAttr(policy, tag, Keep(policy, tag, a).value)
    ensures Keep(policy, tag, a).value.key == a.key && (AllowedAttr(a.key) || (a.key == "src" && tag == "img"))
  {
    hide AllowedAttr, Painted;
  }

  lemma {:induction false} SafeAreClean(policy: Policy, tag: string, attrs: seq<Attr>)
    requires Sane(policy)
    ensures forall i :: 0 <= i < |SafeAttrs(policy, tag, attrs)| ==> CleanAttr(policy, tag, SafeAttrs(policy, tag, attrs)[i])
  {
    hide Keep, CleanAttr;
    if attrs != [] {
      SafeAreClean(policy, tag, attrs[..|attrs| - 1]);
      if Keep(policy, tag, attrs[|attrs| - 1]).Some? {
        KeepTwice(policy, tag, attrs[|attrs| - 1]);
      }
    }
  }

  lemma {:induction false} CleanStays(policy: Policy, tag: string, attrs: seq<Attr>)
    requires forall i :: 0 <= i < |attrs| ==> CleanAttr(policy, tag, attrs[i])
    ensures SafeAttrs(policy, tag, attrs) == attrs
  {
    if attrs != [] {
      CleanStays(policy, tag, attrs[..|attrs| - 1]);
      assert CleanAttr(policy, tag, attrs[|attrs| - 1]);
      hide Keep;
    }
  }

  lemma PlaceholderClean(policy: Policy)
    requires Sane(policy)
    ensures CleanAll(policy, PLACEHOLDER)
  {
    Names();
    assert Keep(policy, "span", Attr("style", Some(PLACEHOLDER_STYLE))) == Some(Attr("style", Some(PLACEHOLDER_STYLE))) by {
      assert !Painted("style");
      hide Allowed, AllowedAttr;
    }
    hide Allowed, AllowedAttr, Keep;
  }

  lemma WrittenClean(policy: Policy, loader: Loader, p: Parser, tag: string, attrs: seq<Attr>)
    requires Sane(policy)
    ensures CleanAll(policy, Written(policy, loader, p, tag, attrs))
  {
    PlaceholderClean(policy);
    hide Allowed, ImageAttrs, SafeAttrs, CleanAttr;
    var shown := if tag == "img" then ImageAttrs(policy, loader, p.asked, attrs) else Some(attrs);
    if shown.Some? {
      SafeAreClean(policy, tag, shown.value);
    }
  }

  lemma OthersClean(policy: Policy)
    ensures forall t: string :: CleanToken(policy, End(t))
    ensures forall d: string :: CleanToken(policy, Data(d))
  {
  }

  /** Only allowed tags with allowed attributes are ever written. */
  lemma {:induction false} OutputClean(policy: Policy, loader: Loader, events: seq<Event>)
    requires Sane(policy) && Run(policy, loader, events).Some?
    ensures CleanAll(policy, Run(policy, loader, events).value.output)
  {
    if events != [] {
      var front, e := events[..|events| - 1], events[|events| - 1];
      OutputClean(policy, loader, front);
      var p := Run(policy, loader, front).value;
      OthersClean(policy);
      hide Run, HandleStart, Allowed, Void, CleanToken;
      if e.Start? || e.StartEnd? {
        StartIs(policy, loader, p, e.tag, e.attrs);
        WrittenClean(policy, loader, p, e.tag, e.attrs);
        hide Written;
      }
    }
  }

  // ---------------------------------------------------------------- sanitising again

  /** An image that was written without an embedded picture. */
  predicate Bare(policy: Policy, e: Event)
  {
    e.Start? && e.tag == "img" && !policy.imageOk(Last(e.attrs, "src"))
  }

  function BareCount(policy: Policy, tokens: seq<Event>): nat
  {
    if tokens == [] then 0 else
      BareCount(policy, tokens[..|tokens| - 1]) + if Bare(policy, tokens[|tokens| - 1]) then 1 else 0
  }

  /** What sanitising again makes of a document: bare images become placeholders. */
  function Expand(policy: Policy, tokens: seq<Event>): seq<Event>
  {
    if tokens == [] then [] else
      var e := tokens[|tokens| - 1];
      Expand(policy, tokens[..|tokens| - 1]) + if Bare(policy, e) then PLACEHOLDER else [e]
  }

  lemma {:induction false} ExpandLength(policy: Policy, tokens: seq<Event>)
    ensures |Expand(policy, tokens)| == |tokens| + 2 * BareCount(policy, tokens)
    ensures BareCount(policy, tokens) == 0 ==> Expand(policy, tokens) == tokens
  {
    hide Bare;
    if tokens != [] {
      ExpandLength(policy, tokens[..|tokens| - 1]);
    }
  }

  lemma {:induction false} CleanHasNoPhoto(policy: Policy, tag: string, attrs: seq<Attr>)
    requires forall i :: 0 <= i < |attrs| ==> CleanAttr(policy, tag, attrs[i])
    ensures Last(attrs, "data-pdf-image") == ""
  {
    if attrs != [] {
      var a := attrs[|attrs| - 1];
      assert CleanAttr(policy, tag, a);
      Names();
      hide AllowedAttr;
      CleanHasNoPhoto(policy, tag, attrs[..|attrs| - 1]);
    }
  }

  function Opens(tags: seq<string>): seq<Open>
  {
    if tags == [] then [] else Opens(tags[..|tags| - 1]) + [Open(tags[|tags| - 1], true)]
  }

  lemma OpensMore(tags: seq<string>, tag: string)
    ensures Opens(tags + [tag]) == Opens(tags) + [Open(tag, true)]
  {
    assert (tags + [tag])[..|tags|] == tags;
  }

  lemma AgainStart(policy: Policy, loader: Loader, p: Parser, tag: string, attrs: seq<Attr>)
    requires Sane(policy) && CleanToken(policy, Start(tag, attrs)) && p.blocked == 0
    ensures Written(policy, loader, p, tag, attrs) ==
            if Bare(policy, Start(tag, attrs)) then PLACEHOLDER else [Start(tag, attrs)]
    ensures Calls(tag, attrs) == 0
  {
    CleanStays(policy, tag, attrs);
    CleanHasNoPhoto(policy, tag, attrs);
    hide Allowed, SafeAttrs, CleanAttr, Last;
  }

  lemma ExpandStep(policy: Policy, front: seq<Event>, e: Event)
    ensures Expand(policy, front + [e]) == Expand(policy, front) + if Bare(policy, e) then PLACEHOLDER else [e]
  {
    hide Bare;
    assert (front + [e])[..|front|] == front;
  }

  lemma RunStep(policy: Policy, loader: Loader, front: seq<Event>, e: Event)
    requires Run(policy, loader, front).Some?
    ensures Run(policy, loader, front + [e]) == Handle(policy, loader, Run(policy, loader, front).value, e)
  {
    hide Handle;
    assert (front + [e])[..|front|] == front;
  }

  /** Running the filter over clean, properly nested tokens shows them all and replaces the bare images. */
  lemma {:induction false} Again(policy: Policy, loader: Loader, tokens: seq<Event>)
    requires Sane(policy) && CleanAll(policy, tokens) && Nest(tokens).Some?
    ensures Run(policy, loader, tokens) == Some(Parser(Opens(Nest(tokens).value), 0, Expand(policy, tokens), 0))
  {
    if tokens != [] {
      var front, e := tokens[..|tokens| - 1], tokens[|tokens| - 1];
      assert tokens == front + [e];
      Again(policy, loader, front);
      var p := Run(policy, loader, front).value;
      var tags := Nest(front).value;
      assert CleanToken(policy, e) && !e.StartEnd? && (e.Start? ==> Allowed(e.tag));
      ExpandStep(policy, front, e);
      RunStep(policy, loader, front, e);
      hide Run, HandleStart, Allowed, Void, Expand, CleanToken;
      match e
      case Start(tag, attrs) =>
        StartIs(policy, loader, p, tag, attrs);
        AgainStart(policy, loader, p, tag, attrs);
        OpensMore(tags, tag);
        hide Written, Bare, Calls;
      case End(tag) =>
        OpensMore(tags[..|tags| - 1], tag);
        assert tags == tags[..|tags| - 1] + [tag];
      case Data(text) =>
    }
  }

  // ---------------------------------------------------------------- when sanitising again changes nothing

  /** A shown photo for which the loader gives something that is not an embedded picture. */
  predicate BadLoad(policy: Policy, loader: Loader, p: Parser, e: Event)
  {
    && (e.Start? || e.StartEnd?) && e.tag == "img" && p.blocked == 0 && Last(e.attrs, "data-pdf-image") != ""
    && Embedded(loader, p.asked, e.attrs) != "" && !policy.imageOk(Embedded(loader, p.asked, e.attrs))
  }

  function BadLoads(policy: Policy, loader: Loader, events: seq<Event>): nat
  {
    if events == [] then 0 else
      var front := Run(policy, loader, events[..|events| - 1]);
      BadLoads(policy, loader, events[..|events| - 1]) +
        if front.Some? && BadLoad(policy, loader, front.value, events[|events| - 1]) then 1 else 0
  }

  lemma {:induction false} NoImageLeft(policy: Policy, attrs: seq<Attr>)
    ensures Last(SafeAttrs(policy, "img", WithoutImage(attrs)), "src") == ""
  {
    if attrs != [] {
      var front, a := attrs[..|attrs| - 1], attrs[|attrs| - 1];
      NoImageLeft(policy, front);
      if a.key != "src" && a.key != "data-pdf-image" {
        assert (WithoutImage(front) + [a])[..|WithoutImage(front)|] == WithoutImage(front);
        KeyKept(policy, "img", a);
        hide Keep;
      }
    }
  }

  lemma KeyKept(policy: Policy, tag: string, a: Attr)
    ensures Keep(policy, tag, a).Some? ==> Keep(policy, tag, a).value.key == a.key
  {
    hide AllowedAttr, Painted;
  }

  lemma {:induction false} SourceKept(policy: Policy, attrs: seq<Attr>)
    requires policy.imageOk(Last(attrs, "src")) && Last(attrs, "src") != ""
    ensures Last(SafeAttrs(policy, "img", attrs), "src") == Last(attrs, "src")
  {
    var a := attrs[|attrs| - 1];
    KeyKept(policy, "img", a);
    if a.key != "src" {
      SourceKept(policy, attrs[..|attrs| - 1]);
      hide Keep;
    } else {
      assert Keep(policy, "img", a) == Some(Attr("src", Some(OrEmpty(a.value))));
      hide Keep;
    }
  }

  lemma EmbeddedKept(policy: Policy, attrs: seq<Attr>, embedded: string)
    requires Sane(policy)
    ensures var shown := WithoutImage(attrs) + [Attr("src", Some(embedded))];
      policy.imageOk(Last(SafeAttrs(policy, "img", shown), "src")) <==> policy.imageOk(embedded)
  {
    var w := WithoutImage(attrs);
    var a := Attr("src", Some(embedded));
    assert (w + [a])[..|w|] == w;
    NoImageLeft(policy, attrs);
    assert Keep(policy, "img", a) == if policy.imageOk(embedded) then Some(a) else None;
    hide Keep;
  }

  lemma {:induction false} BareNone(policy: Policy, tokens: seq<Event>)
    requires forall i :: 0 <= i < |tokens| ==> !Bare(policy, tokens[i])
    ensures BareCount(policy, tokens) == 0
  {
    hide Bare;
    if tokens != [] {
      BareNone(policy, tokens[..|tokens| - 1]);
    }
  }

  lemma BareWritten(policy: Policy, loader: Loader, p: Parser, tag: string, attrs: seq<Attr>)
    requires Sane(policy)
    ensures BareCount(policy, Written(policy, loader, p, tag, attrs))
            == if BadLoad(policy, loader, p, Start(tag, attrs)) then 1 else 0
  {
    Names();
    hide Allowed, AllowedAttr, SafeAttrs;
    var w := Written(policy, loader, p, tag, attrs);
    BareNone(policy, PLACEHOLDER);
    if |w| == 1 {
      assert w[..0] == [];
      if tag == "img" {
        if Last(attrs, "data-pdf-image") != "" {
          EmbeddedKept(policy, attrs, Embedded(loader, p.asked, attrs));
        } else {
          SourceKept(policy, attrs);
        }
      }
    }
  }

  lemma {:induction false} BareAppend(policy: Policy, a: seq<Event>, b: seq<Event>)
    ensures BareCount(policy, a + b) == BareCount(policy, a) + BareCount(policy, b)
  {
    hide Bare;
    if b == [] {
      assert a + b == a;
    } else {
      assert (a + b)[..|a + b| - 1] == a + b[..|b| - 1];
      BareAppend(policy, a, b[..|b| - 1]);
    }
  }

  /** Bare images are written exactly for the bad loads. */
  lemma {:induction false} BareAreBad(policy: Policy, loader: Loader, events: seq<Event>)
    requires Sane(policy) && Run(policy, loader, events).Some?
    ensures BareCount(policy, Run(policy, loader, events).value.output) == BadLoads(policy, loader, events)
  {
    if events != [] {
      var front, e := events[..|events| - 1], events[|events| - 1];
      BareAreBad(policy, loader, front);
      var p := Run(policy, loader, front).value;
      BareStep(policy, loader, p, e);
      hide Handle, BadLoad, BareCount;
    }
  }

  lemma BareStep(policy: Policy, loader: Loader, p: Parser, e: Event)
    requires Sane(policy) && Handle(policy, loader, p, e).Some?
    ensures BareCount(policy, Handle(policy, loader, p, e).value.output)
            == BareCount(policy, p.output) + if BadLoad(policy, loader, p, e) then 1 else 0
  {
    hide HandleStart, BareCount, Allowed, Void, Embedded, Last;
    if e.Start? || e.StartEnd? {
      StartIs(policy, loader, p, e.tag, e.attrs);
      BareWritten(policy, loader, p, e.tag, e.attrs);
      BareAppend(policy, p.output, Written(policy, loader, p, e.tag, e.attrs));
      hide Written;
      BareOne(policy, HandleStart(policy, loader, p, e.tag, e.attrs).output, End(e.tag));
    } else {
      BareOne(policy, p.output, e);
    }
  }

  lemma BareOne(policy: Policy, output: seq<Event>, e: Event)
    ensures !e.Start? ==> BareCount(policy, output + [e]) == BareCount(policy, output)
  {
    assert (output + [e])[..|output|] == output;
  }

  /** Sanitising an accepted document again is accepted, and changes nothing exactly when every shown photo
      was loaded as an embedded picture; the second pass never asks a loader. */
  lemma Idempotent(policy: Policy, loader: Loader, events: seq<Event>, other: Loader)
    requires Sane(policy) && Sanitise(policy, loader, events).Some?
    ensures var once := Sanitise(policy, loader, events).value;
      && Sanitise(policy, other, once).Some?
      && (Sanitise(policy, other, once) == Some(once) <==> BadLoads(policy, loader, events) == 0)
  {
    var once := Sanitise(policy, loader, events).value;
    Balanced(policy, loader, events);
    OutputClean(policy, loader, events);
    Again(policy, other, once);
    ExpandLength(policy, once);
    BareAreBad(policy, loader, events);
    hide Run, Expand, BareCount, BadLoads, CleanAll, Nest;
  }

  /** Whatever it is asked and whenever: the loader has no picture, or gives one that may be embedded. */
  ghost predicate EmbedsPictures(policy: Policy, loader: Loader)
  {
    forall n: nat, s: string :: OrEmpty(loader(n, s)) == "" || policy.imageOk(OrEmpty(loader(n, s)))
  }

  lemma {:induction false} PicturesAreGood(policy: Policy, loader: Loader, events: seq<Event>)
    requires EmbedsPictures(policy, loader)
    ensures BadLoads(policy, loader, events) == 0
  {
    if events != [] {
      PicturesAreGood(policy, loader, events[..|events| - 1]);
      hide Run, Last;
    }
  }

  /** With such a loader, sanitising again never changes anything, whatever the second loader. */
  lemma IdempotentWithPictures(policy: Policy, loader: Loader, events: seq<Event>, other: Loader)
    requires Sane(policy) && EmbedsPictures(policy, loader) && Sanitise(policy, loader, events).Some?
    ensures var once := Sanitise(policy, loader, events).value; Sanitise(policy, other, once) == Some(once)
  {
    Idempotent(policy, loader, events, other);
    PicturesAreGood(policy, loader, events);
  }

  /** One photo for which the loader returns a plain address: the second pass turns it into the placeholder. */
  lemma NotAlwaysIdempotent(policy: Policy)
    requires Sane(policy) && !policy.imageOk("https://example.test/a.png")
    ensures var loader: Loader := (n: nat, s: string) => Some("https://example.test/a.png");
      var events := [Start("img", [Attr("data-pdf-image", Some("a"))])];
      var once := Sanitise(policy, loader, events);
      once.Some? && Sanitise(policy, loader, once.value) != once
  {
    var loader: Loader := (n: nat, s: string) => Some("https://example.test/a.png");
    var attrs := [Attr("data-pdf-image", Some("a"))];
    var events := [Start("img", attrs)];
    Names();
    hide Allowed, AllowedAttr, Void;
    assert attrs[..0] == [] && events[..0] == [];
    assert Last(attrs, "data-pdf-image") == "a";
    assert Run(policy, loader, events[..0]) == Some(FRESH) && BadLoads(policy, loader, events[..0]) == 0;
    assert BadLoad(policy, loader, FRESH, events[0]);
    assert ImageAttrs(policy, loader, 0, attrs).Some?;
    StartIs(policy, loader, FRESH, "img", attrs);
    assert Run(policy, loader, events) == Some(HandleStart(policy, loader, FRESH, "img", attrs));
    Idempotent(policy, loader, events, loader);
  }
}

/** The filter as an object that changes its stack, its counter and its output with every parser event. */
module SnapshotParser {
  import opened Prelude
  import opened Sanitiser

  class Filter {
    const policy: Policy
    const loader: Loader
    var stack: seq<Open>
    var blocked: int
    var output: seq<Event>
    var asked: nat

    function Now(): Parser
      reads this
    {
      Parser(stack, blocked, output, asked)
    }

    constructor (policy: Policy, loader: Loader)
      ensures this.policy == policy && this.loader == loader && Now() == FRESH
    {
      this.policy, this.loader := policy, loader;
      stack, blocked, output, asked := [], 0, [], 0;
    }

    /** The values of the two attributes that decide about an image; the last of several wins. */
    method ImageValues(attrs: seq<Attr>) returns (photo: string, source: string)
      ensures photo == Last(attrs, "data-pdf-image") && source == Last(attrs, "src")
    {
      photo, source := "", "";
      assert attrs[..0] == [];
      for i := 0 to |attrs|
        invariant photo == Last(attrs[..i], "data-pdf-image") && source == Last(attrs[..i], "src")
      {
        LastStep(attrs, i, "data-pdf-image");
        LastStep(attrs, i, "src");
        if attrs[i].key == "data-pdf-image" {
          photo := OrEmpty(attrs[i].value);
        } else if attrs[i].key == "src" {
          source := OrEmpty(attrs[i].value);
        }
      }
      assert attrs[..|attrs|] == attrs;
    }

    /** The attributes that are printed, one by one. */
    method Filtered(tag: string, attrs: seq<Attr>) returns (safe: seq<Attr>)
      ensures safe == SafeAttrs(policy, tag, attrs)
    {
      safe := [];
      assert attrs[..0] == [];
      hide AllowedAttr, Painted;
      for i := 0 to |attrs|
        invariant safe == SafeAttrs(policy, tag, attrs[..i])
      {
        assert attrs[..i + 1][..i] == attrs[..i];
        var key, value := attrs[i].key, OrEmpty(attrs[i].value);
        if key == "src" && tag == "img" {
          if !policy.imageOk(value) {
            continue;
          }
        } else if !AllowedAttr(key) {
          continue;
        }
        if key == "style" {
          AllowedStyle(policy, tag, attrs[i]);
          value := SafeStyle(policy, value);
        }
        if Painted(key) && policy.hasUrl(value) {
          PaintedIsNotSource(key);
          if !policy.fragmentOk(value) {
            continue;
          }
        }
        PaintedIsNotSource(key);
        safe := safe + [Attr(key, Some(value))];
      }
      assert attrs[..|attrs|] == attrs;
    }

    method StartTag(tag: string, attrs: seq<Attr>)
      modifies this
      ensures Now() == HandleStart(policy, loader, old(Now()), tag, attrs)
    {
      hide Allowed, Void, SafeAttrs, Last, WithoutImage;
      if blocked != 0 || !Allowed(tag) {
        if !Void(tag) {
          stack := stack + [Open(tag, false)];
          blocked := blocked + 1;
        }
        return;
      }
      var shown := attrs;
      if tag == "img" {
        var photo, source := ImageValues(attrs);
        if photo != "" {
          var embedded := OrEmpty(loader(asked, photo));
          asked := asked + 1;
          if embedded == "" {
            output := output + PLACEHOLDER;
            return;
          }
          shown := WithoutImage(attrs) + [Attr("src", Some(embedded))];
        } else if !policy.imageOk(source) {
          output := output + PLACEHOLDER;
          return;
        }
      }
      var safe := Filtered(tag, shown);
      output := output + [Start(tag, safe)];
      if !Void(tag) {
        stack := stack + [Open(tag, true)];
      }
    }

    /** False is the error of a closing tag that does not match; nothing is used after it. */
    method EndTag(tag: string) returns (ok: bool)
      modifies this
      ensures ok == HandleEnd(old(Now()), tag).Some?
      ensures Now() == if ok then HandleEnd(old(Now()), tag).value else old(Now())
    {
      if stack == [] {
        return true;
      }
      var top := stack[|stack| - 1];
      if top.tag != tag {
        return false;
      }
      stack := stack[..|stack| - 1];
      if top.allowed {
        output := output + [End(tag)];
      } else {
        blocked := blocked - 1;
      }
      ok := true;
    }

    method Feed(e: Event) returns (ok: bool)
      modifies this
      ensures ok == Handle(policy, loader, old(Now()), e).Some?
      ensures ok ==> Now() == Handle(policy, loader, old(Now()), e).value
    {
      hide HandleStart, Void;
      ok := true;
      match e {
        case Start(tag, attrs) => StartTag(tag, attrs);
        case StartEnd(tag, attrs) =>
          StartTag(tag, attrs);
          if !Void(tag) {
            ok := EndTag(tag);
          }
        case End(tag) => ok := EndTag(tag);
        case Data(text) =>
          if blocked == 0 {
            output := output + [Data(text)];
          }
      }
    }
  }

  /** The whole document; None is the response to a malformed, unclosed or empty snapshot. */
  method SafeDocument(policy: Policy, loader: Loader, events: seq<Event>) returns (document: Option<seq<Event>>)
    ensures document == Sanitise(policy, loader, events)
  {
    var parser := new Filter(policy, loader);
    hide Handle;
    assert events[..0] == [];
    var i := 0;
    while i < |events|
      invariant 0 <= i <= |events|
      invariant Run(policy, loader, events[..i]) == Some(parser.Now())
    {
      assert events[..i + 1][..i] == events[..i];
      var ok := parser.Feed(events[i]);
      i := i + 1;
      if !ok {
        Stuck(policy, loader, events, i);
        return None;
      }
    }
    assert events[..i] == events;
    if parser.stack != [] || parser.output == [] {
      return None;
    }
    document := Some(parser.output);
  }

  lemma {:induction false} Stuck(policy: Policy, loader: Loader, events: seq<Event>, n: nat)
    requires n <= |events| && Run(policy, loader, events[..n]).None?
    ensures Run(policy, loader, events).None?
    decreases |events| - n
  {
    if n < |events| {
      assert events[..n + 1][..n] == events[..n];
      Stuck(policy, loader, events, n + 1);
    } else {
      assert events[..n] == events;
    }
  }

  lemma LastStep(attrs: seq<Attr>, i: nat, key: string)
    requires i < |attrs|
    ensures Last(attrs[..i + 1], key) == if attrs[i].key == key then OrEmpty(attrs[i].value) else Last(attrs[..i], key)
  {
    assert attrs[..i + 1][..i] == attrs[..i];
  }

  lemma AllowedStyle(policy: Policy, tag: string, a: Attr)
    requires a.key == "style"
    ensures AllowedAttr(a.key) && !Painted(a.key)
  {
  }

  lemma PaintedIsNotSource(key: string)
    ensures Painted(key) ==> AllowedAttr(key) && key != "src"
  {
  }
}

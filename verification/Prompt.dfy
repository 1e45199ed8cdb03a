/** The prompt template renderer (p1-assembly): one pass with a stack of open sections, and the
    tree the template stands for. */
module Prompt {
  import opened Contracts

  datatype Substitutions = Substitutions(workspace: string, date: string, os: string, scratch: string)

  /** A module's key and the name its tool goes by. */
  type Modules = seq<(string, string)>

  datatype PromptError =
    | UnknownPlaceholder(placeholder: string)
    | ToolSectionMismatch(mod: string)
    | ToolNotInEnvironment(mod: string)

  type Rendered = Result<string, PromptError>

  /** Two results in a row: the first error counts. */
  function Then(a: Rendered, b: Rendered): Rendered {
    if a.Err? then a else if b.Err? then b else Ok(a.value + b.value)
  }

  // ------------------------------------------------------------------ finding a pair of braces

  predicate PairAt(s: string, c: char, i: int) {
    0 <= i < |s| - 1 && s[i] == c && s[i + 1] == c
  }

  predicate HasPair(s: string, c: char) {
    exists i :: 0 <= i < |s| && PairAt(s, c, i)
  }

  /** The first place where `c` stands twice. */
  function FindPair(s: string, c: char): (at: Option<nat>)
    ensures at.Some? ==> at.value + 2 <= |s|
  {
    if |s| < 2 then None
    else if PairAt(s, c, 0) then Some(0)
    else
      var rest := FindPair(s[1..], c);
      if rest.Some? then Some(rest.value + 1) else None
  }

  /** Put before a pair, the text leaves that pair the first one. */
  predicate Clean(s: string, c: char) {
    !HasPair(s, c) && (s != "" ==> s[|s| - 1] != c)
  }

  lemma {:induction false} FindFacts(s: string, c: char)
    ensures FindPair(s, c).Some? ==> PairAt(s, c, FindPair(s, c).value)
    ensures FindPair(s, c).Some? ==> forall i :: 0 <= i < FindPair(s, c).value ==> !PairAt(s, c, i)
    ensures FindPair(s, c).None? ==> forall i :: !PairAt(s, c, i)
  {
    if |s| >= 2 && !PairAt(s, c, 0) {
      FindFacts(s[1..], c);
      forall i | i > 0 ensures PairAt(s, c, i) <==> PairAt(s[1..], c, i - 1) {
      }
    }
  }

  lemma FindsBehind(s: string, c: char, rest: string)
    requires Clean(s, c) && |rest| >= 2 && rest[0] == rest[1] == c
    ensures FindPair(s + rest, c) == Some(|s|)
  {
    var all := s + rest;
    FindFacts(all, c);
    assert PairAt(all, c, |s|);
    forall i | 0 <= i < |s| ensures !PairAt(all, c, i) {
      assert all[i] == s[i];
      assert !PairAt(s, c, i);
      if i + 1 < |s| { assert all[i + 1] == s[i + 1]; }
    }
  }

  lemma FindsFirst(s: string, c: char)
    ensures FindPair(s, c).Some? ==> Clean(s[..FindPair(s, c).value], c)
    ensures FindPair(s, c).None? <==> !HasPair(s, c)
  {
    FindFacts(s, c);
    if FindPair(s, c).Some? {
      var at := FindPair(s, c).value;
      assert HasPair(s, c);
      forall i | 0 <= i < at ensures !PairAt(s[..at], c, i) {
        assert !PairAt(s, c, i);
      }
      if at > 0 { assert !PairAt(s, c, at - 1); }
    }
  }

  // ------------------------------------------------------------------ the scanner

  /** A section not yet closed; `kept` says whether what is read now goes to the output. */
  datatype Section = Section(mod: string, kept: bool)

  predicate AllKept(open: seq<Section>) {
    forall s :: s in open ==> s.kept
  }

  predicate Assembled(modules: Modules, mod: string) {
    exists i :: 0 <= i < |modules| && modules[i].0 == mod
  }

  function NameOf(modules: Modules, mod: string): Option<string> {
    if modules == [] then None
    else if modules[0].0 == mod then Some(modules[0].1)
    else NameOf(modules[1..], mod)
  }

  function Names(modules: Modules): string {
    if modules == [] then ""
    else if |modules| == 1 then modules[0].1
    else modules[0].1 + ", " + Names(modules[1..])
  }

  /** What a placeholder in kept text stands for. */
  function Value(name: string, modules: Modules, subs: Substitutions): Rendered {
    if name == "workspace" then Ok(subs.workspace)
    else if name == "date" then Ok(subs.date)
    else if name == "os" then Ok(subs.os)
    else if name == "scratch" then Ok(subs.scratch)
    else if name == "tool_names" then Ok(Names(modules))
    else if TOOL <= name then
      var mod := name[|TOOL|..];
      if NameOf(modules, mod).Some? then Ok(NameOf(modules, mod).value) else Err(ToolNotInEnvironment(mod))
    else Err(UnknownPlaceholder(name))
  }

  const OPENS := "#tool:"
  const CLOSES := "/tool:"
  const TOOL := "tool:"

  function DropNewline(s: string): string {
    if s != "" && s[0] == '\n' then s[1..] else s
  }

  /** What the scanner adds to its output from `rest` on. */
  function Scan(rest: string, open: seq<Section>, modules: Modules, subs: Substitutions): Rendered
    decreases |rest|, 0
  {
    var start := FindPair(rest, '{');
    if start.None? then
      if open != [] then Err(ToolSectionMismatch(open[|open| - 1].mod)) else Ok(rest)
    else
      var after := rest[start.value + 2..];
      var end := FindPair(after, '}');
      if end.None? then Err(UnknownPlaceholder(after))
      else
        Then(Ok(if AllKept(open) then rest[..start.value] else ""),
             ScanTag(after[..end.value], after[end.value + 2..], open, modules, subs))
  }

  /** One tag, and what follows it. */
  function ScanTag(tag: string, next: string, open: seq<Section>, modules: Modules, subs: Substitutions): Rendered
    decreases |next|, 1
  {
    if OPENS <= tag then
      var mod := tag[|OPENS|..];
      Scan(next, open + [Section(mod, AllKept(open) && Assembled(modules, mod))], modules, subs)
    else if CLOSES <= tag then
      var mod := tag[|CLOSES|..];
      if open == [] || open[|open| - 1].mod != mod then Err(ToolSectionMismatch(mod))
      else Scan(if open[|open| - 1].kept then next else DropNewline(next), open[..|open| - 1], modules, subs)
    else Then(if AllKept(open) then Value(tag, modules, subs) else Ok(""), Scan(next, open, modules, subs))
  }

  /** `substitute_prompt`. */
  method SubstitutePrompt(template: string, modules: Modules, subs: Substitutions) returns (r: Rendered)
    ensures r == Scan(template, [], modules, subs)
  {
    hide Scan, ScanTag, Value, Assembled, FindPair, AllKept;
    AllKeptNone();
    var out, rest: string := "", template;
    var open: seq<Section> := [];
    var kept := true;
    Neutral(Scan(template, [], modules, subs));
    while FindPair(rest, '{').Some?
      invariant kept == AllKept(open)
      invariant Scan(template, [], modules, subs) == Then(Ok(out), Scan(rest, open, modules, subs))
      decreases |rest|
    {
      Unfold(rest, open, modules, subs);
      var start := FindPair(rest, '{').value;
      var before := out;
      if kept {
        out := out + rest[..start];
      }
      var after := rest[start + 2..];
      var end := FindPair(after, '}');
      if end.None? {
        return Err(UnknownPlaceholder(after));
      }
      var tag, next := after[..end.value], after[end.value + 2..];
      Regroup(before, if kept then rest[..start] else "", ScanTag(tag, next, open, modules, subs));
      UnfoldTag(tag, next, open, modules, subs);
      if OPENS <= tag {
        var mod := tag[|OPENS|..];
        var assembled := Assembled(modules, mod);
        Pushed(open, Section(mod, kept && assembled));
        open := open + [Section(mod, kept && assembled)];
        kept := kept && assembled;
      } else if CLOSES <= tag {
        var mod := tag[|CLOSES|..];
        if open == [] || open[|open| - 1].mod != mod {
          return Err(ToolSectionMismatch(mod));
        }
        if !open[|open| - 1].kept {
          next := DropNewline(next);
        }
        open := open[..|open| - 1];
        kept := AllKept(open);
      } else if kept {
        var value := Value(tag, modules, subs);
        if value.Err? {
          return value;
        }
        Regroup(out, value.value, Scan(next, open, modules, subs));
        out := out + value.value;
      } else {
        Neutral(Scan(next, open, modules, subs));
      }
      rest := next;
    }
    Unfold(rest, open, modules, subs);
    if open != [] {
      return Err(ToolSectionMismatch(open[|open| - 1].mod));
    }
    return Ok(out + rest);
  }

  lemma AllKeptNone()
    ensures AllKept([])
  {
  }

  lemma Unfold(rest: string, open: seq<Section>, modules: Modules, subs: Substitutions)
    ensures var start := FindPair(rest, '{');
            Scan(rest, open, modules, subs) ==
            if start.None? then
              if open != [] then Err(ToolSectionMismatch(open[|open| - 1].mod)) else Ok(rest)
            else
              var after := rest[start.value + 2..];
              var end := FindPair(after, '}');
              if end.None? then Err(UnknownPlaceholder(after))
              else
                Then(Ok(if AllKept(open) then rest[..start.value] else ""),
                     ScanTag(after[..end.value], after[end.value + 2..], open, modules, subs))
  {
    hide ScanTag;
  }

  lemma UnfoldTag(tag: string, next: string, open: seq<Section>, modules: Modules, subs: Substitutions)
    ensures ScanTag(tag, next, open, modules, subs) ==
            if OPENS <= tag then
              var mod := tag[|OPENS|..];
              Scan(next, open + [Section(mod, AllKept(open) && Assembled(modules, mod))], modules, subs)
            else if CLOSES <= tag then
              var mod := tag[|CLOSES|..];
              if open == [] || open[|open| - 1].mod != mod then Err(ToolSectionMismatch(mod))
              else Scan(if open[|open| - 1].kept then next else DropNewline(next), open[..|open| - 1], modules, subs)
            else Then(if AllKept(open) then Value(tag, modules, subs) else Ok(""), Scan(next, open, modules, subs))
  {
    hide Scan;
  }

  lemma Neutral(r: Rendered)
    ensures Then(Ok(""), r) == r
  {
    if r.Ok? { assert "" + r.value == r.value; }
  }

  lemma Regroup(a: string, b: string, r: Rendered)
    ensures Then(Ok(a), Then(Ok(b), r)) == Then(Ok(a + b), r)
    ensures b == "" ==> a + b == a
  {
    if r.Ok? { assert (a + b) + r.value == a + (b + r.value); }
  }

  lemma Pushed(open: seq<Section>, s: Section)
    ensures AllKept(open + [s]) <==> AllKept(open) && s.kept
  {
    assert forall t :: t in open + [s] <==> t in open || t == s;
  }

  // ------------------------------------------------------------------ the tree

  /** Text and nodes alternate, with text, perhaps empty, at both ends. */
  datatype Body = End(text: string) | Node(text: string, node: Part, rest: Body)

  datatype Part = Placeholder(name: string) | Conditional(mod: string, body: Body)

  function Tag(tag: string): string {
    "{{" + tag + "}}"
  }

  function PrintPart(node: Part): string {
    match node
    case Placeholder(name) => Tag(name)
    case Conditional(mod, body) => Tag(OPENS + mod) + (Print(body) + Tag(CLOSES + mod))
  }

  function Print(body: Body): string {
    match body
    case End(text) => text
    case Node(text, node, rest) => text + (PrintPart(node) + Print(rest))
  }

  /** A template can say this: no stray braces. Only the template's last text may end in `{`. */
  predicate Writable(body: Body, last: bool) {
    match body
    case End(text) => if last then !HasPair(text, '{') else Clean(text, '{')
    case Node(text, node, rest) => Clean(text, '{') && WritablePart(node) && Writable(rest, last)
  }

  predicate WritablePart(node: Part) {
    match node
    case Placeholder(name) => Clean(name, '}') && !(OPENS <= name) && !(CLOSES <= name)
    case Conditional(mod, body) => Clean(mod, '}') && Writable(body, false)
  }

  /** The meaning of a tree: a section is kept when its module and all around it are assembled,
      and a dropped section takes one newline behind it along (`drop`). */
  function Meaning(body: Body, drop: bool, kept: bool, modules: Modules, subs: Substitutions): Rendered {
    var text := Ok(if !kept then "" else if drop then DropNewline(body.text) else body.text);
    match body
    case End(_) => text
    case Node(_, node, rest) =>
      Then(text, Then(PartMeaning(node, kept, modules, subs),
                      Meaning(rest, Drops(node, kept, modules), kept, modules, subs)))
  }

  function PartMeaning(node: Part, kept: bool, modules: Modules, subs: Substitutions): Rendered {
    match node
    case Placeholder(name) => if kept then Value(name, modules, subs) else Ok("")
    case Conditional(mod, body) => Meaning(body, false, kept && Assembled(modules, mod), modules, subs)
  }

  predicate Drops(node: Part, kept: bool, modules: Modules) {
    node.Conditional? && !(kept && Assembled(modules, node.mod))
  }

  /** What is left to scan of a body, the newline a dropped section takes along aside. */
  function Printed(body: Body, drop: bool): string {
    if drop then Print(Shorter(body)) else Print(body)
  }

  function Shorter(body: Body): Body {
    match body
    case End(text) => End(DropNewline(text))
    case Node(text, node, rest) => Node(DropNewline(text), node, rest)
  }

  /** What may stand behind a body: nothing, or a closing tag. */
  predicate MayFollow(tail: string, open: seq<Section>) {
    (tail == "" && open == []) || (|tail| >= 2 && tail[0] == '{' && tail[1] == '{')
  }

  lemma Assoc(a: string, b: string, c: string)
    ensures (a + b) + c == a + (b + c)
  {
  }

  lemma TextPasses(text: string, rest: string, open: seq<Section>, modules: Modules, subs: Substitutions)
    requires Clean(text, '{') && |rest| >= 2 && rest[0] == rest[1] == '{'
    ensures Scan(text + rest, open, modules, subs) ==
            Then(Ok(if AllKept(open) then text else ""), Scan(rest, open, modules, subs))
  {
    hide Scan, ScanTag, FindPair, Clean, HasPair, AllKept, Then;
    var all, after := text + rest, rest[2..];
    FindsBehind(text, '{', rest);
    FindsFront(rest);
    Slices(text, rest);
    assert all[|text| + 2..] == after;
    var end := FindPair(after, '}');
    Unfold(all, open, modules, subs);
    Unfold(rest, open, modules, subs);
    if end.Some? {
      Neutral(ScanTag(after[..end.value], after[end.value + 2..], open, modules, subs));
    } else {
      ThenFails(if AllKept(open) then text else "", UnknownPlaceholder(after));
    }
  }

  lemma ThenFails(a: string, e: PromptError)
    ensures Then(Ok(a), Err(e)) == Err(e)
  {
  }

  lemma ThenSucceeds(a: Rendered, b: Rendered)
    ensures Then(a, b).Ok? <==> a.Ok? && b.Ok?
  {
  }

  lemma FindsFront(rest: string)
    requires |rest| >= 2 && rest[0] == rest[1] == '{'
    ensures FindPair(rest, '{') == Some(0) && rest[..0] == ""
  {
  }

  lemma Slices(text: string, rest: string)
    requires |rest| >= 2
    ensures (text + rest)[..|text|] == text && (text + rest)[|text| + 2..] == rest[2..]
  {
  }

  lemma TagScans(tag: string, next: string, open: seq<Section>, modules: Modules, subs: Substitutions)
    requires Clean(tag, '}')
    ensures Scan(Tag(tag) + next, open, modules, subs) == ScanTag(tag, next, open, modules, subs)
  {
    hide Scan, ScanTag, FindPair, Clean, AllKept;
    var rest := Tag(tag) + next;
    Unfold(rest, open, modules, subs);
    TagSlices(tag, next);
    FindsFront(rest);
    FindsBehind(tag, '}', "}}" + next);
    Neutral(ScanTag(tag, next, open, modules, subs));
  }

  lemma TagSlices(tag: string, next: string)
    ensures var rest := Tag(tag) + next;
            && |rest| >= 2 && rest[0] == rest[1] == '{'
            && rest[2..] == tag + ("}}" + next)
            && rest[2..][..|tag|] == tag && rest[2..][|tag| + 2..] == next
  {
    Assoc("{{" + tag, "}}", next);
    Assoc("{{", tag, "}}" + next);
  }

  lemma CleanSuffix(text: string, drop: bool)
    ensures Clean(text, '{') ==> Clean(DropNewline(text), '{')
    ensures !HasPair(text, '{') ==> !HasPair(DropNewline(text), '{')
  {
    var s := DropNewline(text);
    if s != text {
      forall i | 0 <= i < |s| && PairAt(s, '{', i) ensures HasPair(text, '{') {
        assert PairAt(text, '{', i + 1);
      }
    }
  }

  lemma CleanTag(prefix: string, mod: string)
    requires Clean(mod, '}') && (prefix == OPENS || prefix == CLOSES)
    ensures Clean(prefix + mod, '}')
  {
    var s := prefix + mod;
    forall i | 0 <= i < |s| ensures !PairAt(s, '}', i) {
      if i < |prefix| {
        assert s[i] == prefix[i];
      } else {
        assert !PairAt(mod, '}', i - |prefix|);
      }
    }
  }

  /** The last text of a body. */
  lemma EndScans(text: string, tail: string, open: seq<Section>, modules: Modules, subs: Substitutions)
    requires MayFollow(tail, open) && (if tail == "" then !HasPair(text, '{') else Clean(text, '{'))
    ensures Scan(text + tail, open, modules, subs) == Then(Ok(if AllKept(open) then text else ""), Scan(tail, open, modules, subs))
  {
    if tail == "" {
      FindsFirst(text, '{');
      assert text + tail == text;
      assert Scan("", open, modules, subs) == Ok("");
    } else {
      TextPasses(text, tail, open, modules, subs);
    }
  }

  /** Stripping a newline from what follows a section strips it from the text behind it. */
  lemma NewlineBehind(body: Body, tail: string, open: seq<Section>)
    requires MayFollow(tail, open)
    ensures DropNewline(Print(body) + tail) == Printed(body, true) + tail
  {
    hide Print, HasPair;
    var text, more := body.text, AfterText(body) + tail;
    PrintIs(body);
    PrintIs(Shorter(body));
    Assoc(text, AfterText(body), tail);
    Assoc(DropNewline(text), AfterText(body), tail);
    AfterTextBegins(body);
    if text == "" {
      assert text + more == more && "" + more == more;
    } else {
      assert (text + more)[0] == text[0];
      if text[0] == '\n' { assert (text + more)[1..] == text[1..] + more; }
    }
  }

  /** What a body prints behind its first text. */
  function AfterText(body: Body): string {
    match body
    case End(_) => ""
    case Node(_, node, rest) => PrintPart(node) + Print(rest)
  }

  lemma PrintIs(body: Body)
    ensures Print(body) == body.text + AfterText(body)
    ensures AfterText(Shorter(body)) == AfterText(body) && Shorter(body).text == DropNewline(body.text)
  {
    hide PrintPart;
  }

  lemma AfterTextBegins(body: Body)
    ensures AfterText(body) != "" ==> AfterText(body)[0] == '{'
  {
    hide Print, PrintPart;
    if body.Node? { PartBegins(body.node); }
  }

  lemma PartBegins(node: Part)
    ensures |PrintPart(node)| >= 2 && PrintPart(node)[0] == PrintPart(node)[1] == '{'
  {
  }

  /** Scanning the printed form of a tree gives the tree's meaning, in any context. */
  lemma {:induction false} BodyScans(body: Body, drop: bool, tail: string, open: seq<Section>, modules: Modules,
                                     subs: Substitutions)
    requires MayFollow(tail, open) && Writable(body, tail == "")
    ensures Scan(Printed(body, drop) + tail, open, modules, subs) ==
            Then(Meaning(body, drop, AllKept(open), modules, subs), Scan(tail, open, modules, subs))
    decreases body, 1
  {
    hide Scan, ScanTag, Value, Assembled, AllKept, HasPair, PrintPart, PartMeaning;
    CleanSuffix(body.text, drop);
    var text := if drop then DropNewline(body.text) else body.text;
    match body {
      case End(_) => EndScans(text, tail, open, modules, subs);
      case Node(_, node, rest) =>
        var dropping := Drops(node, AllKept(open), modules);
        var more := PrintPart(node) + (Print(rest) + tail);
        Assoc(text, PrintPart(node) + Print(rest), tail);
        Assoc(PrintPart(node), Print(rest), tail);
        PartBegins(node);
        TextPasses(text, more, open, modules, subs);
        PartScans(node, Print(rest) + tail, open, modules, subs);
        if dropping { NewlineBehind(rest, tail, open); }
        BodyScans(rest, dropping, tail, open, modules, subs);
        Chain(Ok(if AllKept(open) then text else ""), PartMeaning(node, AllKept(open), modules, subs),
              Meaning(rest, dropping, AllKept(open), modules, subs), Scan(tail, open, modules, subs));
    }
  }

  lemma Chain(a: Rendered, b: Rendered, c: Rendered, d: Rendered)
    ensures Then(a, Then(b, Then(c, d))) == Then(Then(a, Then(b, c)), d)
  {
    if a.Ok? && b.Ok? && c.Ok? && d.Ok? {
      Assoc(b.value, c.value, d.value);
      Assoc(a.value, b.value + c.value, d.value);
    }
  }

  lemma {:induction false} PartScans(node: Part, next: string, open: seq<Section>, modules: Modules,
                                     subs: Substitutions)
    requires WritablePart(node)
    ensures Scan(PrintPart(node) + next, open, modules, subs) ==
            Then(PartMeaning(node, AllKept(open), modules, subs),
                 Scan(if Drops(node, AllKept(open), modules) then DropNewline(next) else next, open, modules, subs))
    decreases node, 0
  {
    hide Scan, ScanTag, Value, Assembled, AllKept, Clean;
    match node {
      case Placeholder(name) =>
        TagScans(name, next, open, modules, subs);
        UnfoldTag(name, next, open, modules, subs);
      case Conditional(mod, body) =>
        var s := Section(mod, AllKept(open) && Assembled(modules, mod));
        var close := Tag(CLOSES + mod) + next;
        CleanTag(OPENS, mod);
        CleanTag(CLOSES, mod);
        Assoc(Tag(OPENS + mod), Print(body) + Tag(CLOSES + mod), next);
        Assoc(Print(body), Tag(CLOSES + mod), next);
        TagScans(OPENS + mod, Print(body) + close, open, modules, subs);
        UnfoldTag(OPENS + mod, Print(body) + close, open, modules, subs);
        assert (OPENS + mod)[|OPENS|..] == mod && (CLOSES + mod)[|CLOSES|..] == mod;
        Pushed(open, s);
        assert close[0] == '{' && close[1] == '{';
        BodyScans(body, false, close, open + [s], modules, subs);
        TagScans(CLOSES + mod, next, open + [s], modules, subs);
        assert !(OPENS <= CLOSES + mod) by { assert (CLOSES + mod)[0] == '/'; }
        UnfoldTag(CLOSES + mod, next, open + [s], modules, subs);
        assert (open + [s])[..|open|] == open;
    }
  }

  /** A template that prints a tree renders to the tree's meaning, errors included. */
  lemma {:induction false} RendersItsTree(tree: Body, modules: Modules, subs: Substitutions)
    requires Writable(tree, true)
    ensures Scan(Print(tree), [], modules, subs) == Meaning(tree, false, true, modules, subs)
  {
    hide Scan, Meaning, Writable, Print;
    BodyScans(tree, false, "", [], modules, subs);
    assert Print(tree) + "" == Print(tree);
    assert Scan("", [], modules, subs) == Ok("") by { Unfold("", [], modules, subs); }
    var m := Meaning(tree, false, true, modules, subs);
    if m.Ok? { assert m.value + "" == m.value; }
  }

  // ------------------------------------------------------------------ success means balance

  /** Bodies cut by the closing tags of the open sections, innermost last. */
  function PrintOpen(bodies: seq<Body>, open: seq<Section>): string
    requires |bodies| == |open| + 1
  {
    if open == [] then Print(bodies[0])
    else
      var n := |open|;
      Print(bodies[n]) + (Tag(CLOSES + open[n - 1].mod) + PrintOpen(bodies[..n], open[..n - 1]))
  }

  predicate WritableOpen(bodies: seq<Body>) {
    forall i :: 0 <= i < |bodies| ==> Writable(bodies[i], i == 0)
  }

  function WithText(text: string, body: Body): Body {
    match body
    case End(t) => End(text + t)
    case Node(t, node, rest) => Node(text + t, node, rest)
  }

  lemma NewlineRestores(body: Body, last: bool)
    requires Writable(body, last)
    ensures Writable(WithText("\n", body), last) && Print(WithText("\n", body)) == "\n" + Print(body)
  {
    hide PrintPart, WritablePart;
    var s := "\n" + body.text;
    forall i | 0 <= i < |s| ensures !PairAt(s, '{', i) {
      assert !PairAt(body.text, '{', i - 1);
    }
  }

  /** Whatever the scanner accepts is a sequence of bodies and closing tags. */
  lemma {:induction false} AcceptedParses(rest: string, open: seq<Section>, modules: Modules, subs: Substitutions)
    returns (bodies: seq<Body>)
    requires Scan(rest, open, modules, subs).Ok?
    ensures |bodies| == |open| + 1 && WritableOpen(bodies) && rest == PrintOpen(bodies, open)
    decreases |rest|
  {
    hide Scan, ScanTag, Value, Assembled, AllKept, Clean, HasPair, Writable, PrintOpen, Print, WritableOpen, Tag,
         Then, FindPair, DropNewline;
    Unfold(rest, open, modules, subs);
    FindsFirst(rest, '{');
    if FindPair(rest, '{').None? {
      bodies := [End(rest)];
      LoneText(rest, bodies, open);
    } else {
      var start := FindPair(rest, '{').value;
      var after := rest[start + 2..];
      FindsFirst(after, '}');
      var end := FindPair(after, '}').value;
      var text, tag, next := rest[..start], after[..end], after[end + 2..];
      Pieces(rest, start, end);
      ThenSucceeds(Ok(if AllKept(open) then text else ""), ScanTag(tag, next, open, modules, subs));
      UnfoldTag(tag, next, open, modules, subs);
      ThenSucceeds(if AllKept(open) then Value(tag, modules, subs) else Ok(""), Scan(next, open, modules, subs));
      NewlineShortens(next);
      if OPENS <= tag {
        var mod := tag[|OPENS|..];
        var s := Section(mod, AllKept(open) && Assembled(modules, mod));
        var inner := AcceptedParses(next, open + [s], modules, subs);
        bodies := OpenParses(text, tag, next, inner, open, s);
      } else if CLOSES <= tag {
        var n := |open| - 1;
        var kept := open[n].kept;
        var outer := AcceptedParses(if kept then next else DropNewline(next), open[..n], modules, subs);
        if !kept && next != DropNewline(next) {
          outer := RestoreNewline(next, outer, open[..n]);
        }
        bodies := CloseParses(text, tag, next, outer, open);
      } else {
        var others := AcceptedParses(next, open, modules, subs);
        bodies := PlaceholderParses(text, tag, next, others, open);
      }
    }
  }

  lemma NewlineShortens(s: string)
    ensures |DropNewline(s)| <= |s|
  {
  }

  lemma LoneText(rest: string, bodies: seq<Body>, open: seq<Section>)
    requires bodies == [End(rest)] && open == [] && !HasPair(rest, '{')
    ensures WritableOpen(bodies) && rest == PrintOpen(bodies, open)
  {
    hide HasPair;
  }

  lemma Pieces(rest: string, start: nat, end: nat)
    requires FindPair(rest, '{') == Some(start) && FindPair(rest[start + 2..], '}') == Some(end)
    ensures rest == rest[..start] + (Tag(rest[start + 2..][..end]) + rest[start + 2..][end + 2..])
  {
    hide FindPair;
    var after := rest[start + 2..];
    FindFacts(rest, '{');
    FindFacts(after, '}');
    PairSplits(rest, start, '{');
    PairSplits(after, end, '}');
    Assoc("{{" + after[..end], "}}", after[end + 2..]);
    Assoc("{{", after[..end], "}}" + after[end + 2..]);
  }

  lemma PairSplits(s: string, at: nat, c: char)
    requires at + 2 <= |s| && s[at] == s[at + 1] == c
    ensures s == s[..at] + ([c, c] + s[at + 2..])
  {
  }

  lemma OpenParses(text: string, tag: string, next: string, inner: seq<Body>, open: seq<Section>, s: Section)
    returns (bodies: seq<Body>)
    requires |inner| == |open| + 2 && WritableOpen(inner) && next == PrintOpen(inner, open + [s])
    requires Clean(text, '{') && Clean(tag, '}') && OPENS <= tag && s.mod == tag[|OPENS|..]
    ensures |bodies| == |open| + 1 && WritableOpen(bodies) && text + (Tag(tag) + next) == PrintOpen(bodies, open)
  {
    hide HasPair, Tag, Print, PrintOpen, OpenRest;
    var n := |open|;
    var node := Conditional(s.mod, inner[n + 1]);
    bodies := inner[..n] + [Node(text, node, inner[n])];
    assert tag == OPENS + s.mod;
    CleanEnd(OPENS, s.mod);
    assert (open + [s])[..n] == open;
    LastBody(inner, open + [s]);
    RestUnfolds(inner[..n + 1], open, s);
    PrintSection(text, s.mod, inner[n + 1], inner[n]);
    LastBody(inner[..n + 1], open);
    LastBody(bodies, open);
    assert inner[..n + 1][..n] == inner[..n] == bodies[..n];
    var rest := OpenRest(inner[..n], open);
    var a, b, c := Print(inner[n + 1]), Tag(CLOSES + s.mod), Print(inner[n]);
    Regrouped(text, Tag(tag), a, b, c, rest);
    forall i | 0 <= i < |bodies| ensures Writable(bodies[i], i == 0) {
      if i == n {
        assert Writable(inner[n], n == 0) && Writable(inner[n + 1], false);
      } else {
        assert bodies[i] == inner[i];
      }
    }
  }

  lemma Regrouped(t: string, o: string, a: string, b: string, c: string, rest: string)
    ensures t + (o + (a + (b + (c + rest)))) == (t + ((o + (a + b)) + c)) + rest
  {
    Assoc(a, b, c + rest);
    Assoc(o, a + b, c + rest);
    Assoc(o + (a + b), c, rest);
    Assoc(t, (o + (a + b)) + c, rest);
  }

  lemma CleanEnd(prefix: string, mod: string)
    requires Clean(prefix + mod, '}')
    ensures Clean(mod, '}')
  {
    var s := prefix + mod;
    forall i | 0 <= i < |mod| ensures !PairAt(mod, '}', i) {
      assert !PairAt(s, '}', |prefix| + i);
    }
  }

  /** Everything behind the innermost body. */
  function OpenRest(bodies: seq<Body>, open: seq<Section>): string
    requires |bodies| == |open|
  {
    if open == [] then ""
    else Tag(CLOSES + open[|open| - 1].mod) + PrintOpen(bodies, open[..|open| - 1])
  }

  lemma LastBody(bodies: seq<Body>, open: seq<Section>)
    requires |bodies| == |open| + 1
    ensures PrintOpen(bodies, open) == Print(bodies[|open|]) + OpenRest(bodies[..|open|], open)
  {
    hide Print, Tag;
  }

  lemma RestUnfolds(bodies: seq<Body>, open: seq<Section>, s: Section)
    requires |bodies| == |open| + 1
    ensures OpenRest(bodies, open + [s]) == Tag(CLOSES + s.mod) + PrintOpen(bodies, open)
  {
    hide PrintOpen, Tag;
    assert (open + [s])[..|open|] == open;
  }

  lemma PrintSection(text: string, mod: string, inner: Body, rest: Body)
    ensures Print(Node(text, Conditional(mod, inner), rest)) ==
            text + ((Tag(OPENS + mod) + (Print(inner) + Tag(CLOSES + mod))) + Print(rest))
  {
    hide Tag;
  }

  lemma PlaceholderParses(text: string, tag: string, next: string, others: seq<Body>, open: seq<Section>)
    returns (bodies: seq<Body>)
    requires |others| == |open| + 1 && WritableOpen(others) && next == PrintOpen(others, open)
    requires Clean(text, '{') && Clean(tag, '}') && !(OPENS <= tag) && !(CLOSES <= tag)
    ensures |bodies| == |open| + 1 && WritableOpen(bodies) && text + (Tag(tag) + next) == PrintOpen(bodies, open)
  {
    hide HasPair, Tag, PrintOpen;
    var n := |open|;
    bodies := others[..n] + [Node(text, Placeholder(tag), others[n])];
    LastBody(others, open);
    LastBody(bodies, open);
    assert bodies[..n] == others[..n];
    var rest := OpenRest(others[..n], open);
    Assoc(Tag(tag), Print(others[n]), rest);
    Assoc(text, Tag(tag) + Print(others[n]), rest);
    forall i | 0 <= i < |bodies| ensures Writable(bodies[i], i == 0) {
      if i < n { assert bodies[i] == others[i]; }
    }
  }

  lemma CloseParses(text: string, tag: string, next: string, outer: seq<Body>, open: seq<Section>)
    returns (bodies: seq<Body>)
    requires open != [] && |outer| == |open| && WritableOpen(outer) && next == PrintOpen(outer, open[..|open| - 1])
    requires Clean(text, '{') && CLOSES <= tag && open[|open| - 1].mod == tag[|CLOSES|..]
    ensures |bodies| == |open| + 1 && WritableOpen(bodies) && text + (Tag(tag) + next) == PrintOpen(bodies, open)
  {
    hide HasPair, Tag;
    var n := |open|;
    bodies := outer + [End(text)];
    assert bodies[..n] == outer && tag == CLOSES + open[n - 1].mod;
    LastBody(bodies, open);
    forall i | 0 <= i < |bodies| ensures Writable(bodies[i], i == 0) {
      if i < n { assert bodies[i] == outer[i]; }
    }
  }

  lemma RestoreNewline(next: string, outer: seq<Body>, open: seq<Section>) returns (bodies: seq<Body>)
    requires next != DropNewline(next)
    requires |outer| == |open| + 1 && WritableOpen(outer) && DropNewline(next) == PrintOpen(outer, open)
    ensures |bodies| == |open| + 1 && WritableOpen(bodies) && next == PrintOpen(bodies, open)
  {
    hide Tag, Writable, Print, PrintOpen;
    var n := |open|;
    bodies := outer[..n] + [WithText("\n", outer[n])];
    assert Writable(outer[n], n == 0);
    NewlineRestores(outer[n], n == 0);
    LastBody(outer, open);
    LastBody(bodies, open);
    assert bodies[..n] == outer[..n];
    assert next == "\n" + DropNewline(next);
    Assoc("\n", Print(outer[n]), OpenRest(outer[..n], open));
    forall i | 0 <= i < |bodies| ensures Writable(bodies[i], i == 0) {
      if i < n { assert bodies[i] == outer[i]; }
    }
  }

  /** Success means balance: what renders is the printed form of a tree, and what it renders to
      is that tree's meaning. */
  lemma {:induction false} SuccessIsATree(template: string, modules: Modules, subs: Substitutions) returns (tree: Body)
    requires Scan(template, [], modules, subs).Ok?
    ensures Writable(tree, true) && Print(tree) == template
    ensures Meaning(tree, false, true, modules, subs) == Scan(template, [], modules, subs)
  {
    hide Scan, Meaning, Writable, Print;
    var bodies := AcceptedParses(template, [], modules, subs);
    tree := bodies[0];
    RendersItsTree(tree, modules, subs);
  }

  /** The tools a rendered tree names outside dropped sections. */
  function Named(body: Body, kept: bool, modules: Modules): set<string> {
    match body
    case End(_) => {}
    case Node(_, node, rest) => NamedPart(node, kept, modules) + Named(rest, kept, modules)
  }

  function NamedPart(node: Part, kept: bool, modules: Modules): set<string> {
    match node
    case Placeholder(name) => if kept && TOOL <= name then {name[|TOOL|..]} else {}
    case Conditional(mod, body) => Named(body, kept && Assembled(modules, mod), modules)
  }

  lemma {:induction false} NameOfAssembled(modules: Modules, mod: string)
    ensures NameOf(modules, mod).Some? <==> Assembled(modules, mod)
  {
    if modules != [] {
      NameOfAssembled(modules[1..], mod);
      if Assembled(modules[1..], mod) {
        var i :| 0 <= i < |modules[1..]| && modules[1..][i].0 == mod;
        assert modules[i + 1].0 == mod;
      }
      if Assembled(modules, mod) && modules[0].0 != mod {
        var i :| 0 <= i < |modules| && modules[i].0 == mod;
        assert modules[1..][i - 1].0 == mod;
      }
    }
  }

  /** Every tool a prompt names outside a dropped section is assembled. */
  lemma {:induction false} NamesOnlyAssembledTools(body: Body, drop: bool, kept: bool, modules: Modules,
                                                   subs: Substitutions)
    requires Meaning(body, drop, kept, modules, subs).Ok?
    ensures forall mod :: mod in Named(body, kept, modules) ==> Assembled(modules, mod)
    decreases body, 1
  {
    hide Assembled, DropNewline;
    if body.Node? {
      NamesOnlyAssembledTools(body.rest, Drops(body.node, kept, modules), kept, modules, subs);
      PartNamesOnlyAssembled(body.node, kept, modules, subs);
    }
  }

  lemma {:induction false} PartNamesOnlyAssembled(node: Part, kept: bool, modules: Modules, subs: Substitutions)
    requires PartMeaning(node, kept, modules, subs).Ok?
    ensures forall mod :: mod in NamedPart(node, kept, modules) ==> Assembled(modules, mod)
    decreases node, 0
  {
    hide Assembled, Names;
    match node {
      case Placeholder(name) =>
        if kept && TOOL <= name {
          assert name[0] == 't' && name[4] == ':';
          NameOfAssembled(modules, name[|TOOL|..]);
        }
      case Conditional(mod, body) =>
        NamesOnlyAssembledTools(body, false, kept && Assembled(modules, mod), modules, subs);
    }
  }
}

/**
 * The output format, stated for the dumper in the words of the format:
 * the exact text of arrays, objects and functions, the terminal cases of
 * dump_object, the primitives, and what dumping does to the session.
 */
module Layout {

  import opened Wrappers
  import opened Strings
  import opened Values
  import opened Parameters
  import opened Dump
  import opened Render

  // ---------------------------------------------------------------------
  // Session discipline
  // ---------------------------------------------------------------------

  /**
   * Dumping the same value twice in one session writes the same text twice:
   * the first dump leaves the stack as it found it, so nothing it did is seen
   * by the second.
   */
  lemma RedumpIdentical(h: Heap, v: Value, s: Session, depth: nat, cfg: Config)
    requires Closed(h) && ValueIn(h, v)
    ensures var s1 := DumpValue(h, v, s, depth, cfg);
      var s2 := DumpValue(h, v, s1, depth, cfg);
      s2.stack == s.stack && s2.out == s1.out + s1.out[|s.out|..]
  {
    var s1 := DumpValue(h, v, s, depth, cfg);
    ValueIsRender(h, v, s, depth, cfg);
    ValueIsRender(h, v, s1, depth, cfg);
    assert s1.out[|s.out|..] == RenderValue(h, v, s.stack, depth, cfg);
  }

  // ---------------------------------------------------------------------
  // dump_object's terminal cases, in the order the checks run
  // ---------------------------------------------------------------------

  /**
   * Each terminal case appends only its marker: nothing is pushed, nothing
   * is descended into. The recursion check comes first, so an object on the
   * stack is a marker whatever kind it is.
   */
  lemma TerminalCases(h: Heap, v: Value, s: Session, depth: nat, cfg: Config)
    requires Closed(h) && ValueIn(h, v) && (v.Null? || v.Obj?)
    ensures v.Obj? && v.r in s.stack ==> DumpValue(h, v, s, depth, cfg) == Session(s.out + "*RECURSION*", s.stack)
    ensures v.Null? ==> DumpValue(h, v, s, depth, cfg) == Session(s.out + "NULL", s.stack)
    ensures v.Obj? && v.r !in s.stack && h[v.r].ObjectNode? && h[v.r].isWindow && !cfg.allowWindowDump
      ==> DumpValue(h, v, s, depth, cfg) == Session(s.out + "object(window)", s.stack)
    ensures v.Obj? && v.r !in s.stack && h[v.r].ObjectNode? && !(h[v.r].isWindow && !cfg.allowWindowDump)
        && h[v.r].element.Some?
      ==> DumpValue(h, v, s, depth, cfg) == Session(s.out + "HTMLElement(" + h[v.r].element.value + ")", s.stack)
  {
  }

  // ---------------------------------------------------------------------
  // Arrays and objects
  // ---------------------------------------------------------------------

  /**
   * An array of length n at depth d that is not already being dumped: the
   * line `array(n) {`, then the element lines in index order with the array
   * on the path, then the closing brace at depth d.
   */
  lemma ArrayLayout(h: Heap, r: Ref, path: seq<Ref>, depth: nat, cfg: Config)
    requires Closed(h) && r in h && h[r].ArrayNode? && r !in path
    ensures RenderValue(h, Obj(r), path, depth, cfg)
         == "array(" + NatText(|h[r].elems|) + ") {\n"
          + Concat(ElementLines(h, r, path + [r], depth, cfg))
          + Repeat(cfg.indentation, depth) + "}"
  {
    var body := Concat(ElementLines(h, r, path + [r], depth, cfg));
    var indent := Repeat(cfg.indentation, depth);
    assert RenderValue(h, Obj(r), path, depth, cfg) == RenderObject(h, Obj(r), path, depth, cfg);
    assert RenderObject(h, Obj(r), path, depth, cfg) == RenderArray(h, r, path, depth, cfg);
    assert RenderArray(h, r, path, depth, cfg)
        == "array(" + NatText(|h[r].elems|) + ") {" + "\n" + body + (indent + "}");
    HeaderShape("array(" + NatText(|h[r].elems|), body, indent);
  }

  /** Regrouping a header, its newline, a body and a closing brace. */
  lemma HeaderShape(head: string, body: string, indent: string)
    ensures head + ") {" + "\n" + body + (indent + "}") == head + ") {\n" + body + indent + "}"
  {
    assert ") {" + "\n" == ") {\n";
  }

  /** Element i's line: indentation one deeper, `[i] => `, the element, a newline. */
  lemma ElementLineLayout(h: Heap, r: Ref, i: nat, path: seq<Ref>, depth: nat, cfg: Config)
    requires Closed(h) && r in h && h[r].ArrayNode? && i < |h[r].elems|
    ensures ElementLines(h, r, path, depth, cfg)[i]
         == Repeat(cfg.indentation, depth + 1) + "[" + NatText(i) + "] => "
          + RenderValue(h, h[r].elems[i], path, depth + 1, cfg) + "\n"
  {
  }

  /**
   * An ordinary object with k own keys at depth d: the header
   * `object(name) (k) {`, the property lines in key order with the object
   * on the path, then the closing brace at depth d. When `hasOwnProperty`
   * is not a function there are no lines even if k > 0.
   */
  lemma ObjectLayout(h: Heap, r: Ref, path: seq<Ref>, depth: nat, cfg: Config)
    requires Closed(h) && r in h && h[r].ObjectNode? && r !in path
    requires !(h[r].isWindow && !cfg.allowWindowDump) && h[r].element.None?
    ensures RenderValue(h, Obj(r), path, depth, cfg)
         == "object(" + ObjectName(h[r].ctor) + ") (" + NatText(|h[r].entries|) + ") {\n"
          + (if h[r].hasOwnProperty then Concat(EntryLines(h, r, path + [r], depth, cfg)) else "")
          + Repeat(cfg.indentation, depth) + "}"
  {
    var node := h[r];
    var body := if node.hasOwnProperty then Concat(EntryLines(h, r, path + [r], depth, cfg)) else "";
    var indent := Repeat(cfg.indentation, depth);
    assert RenderValue(h, Obj(r), path, depth, cfg) == RenderObject(h, Obj(r), path, depth, cfg);
    assert RenderObject(h, Obj(r), path, depth, cfg)
        == "object(" + ObjectName(node.ctor) + ") (" + NatText(|node.entries|) + ") {" + "\n" + body + (indent + "}");
    HeaderShape("object(" + ObjectName(node.ctor) + ") (" + NatText(|node.entries|), body, indent);
  }

  /**
   * Property i's line: indentation one deeper and `["key"] => `; then the
   * value and a newline, or nothing at all when reading the property throws.
   */
  lemma EntryLineLayout(h: Heap, r: Ref, i: nat, path: seq<Ref>, depth: nat, cfg: Config)
    requires Closed(h) && r in h && h[r].ObjectNode? && i < |h[r].entries|
    ensures var e := h[r].entries[i];
      EntryLines(h, r, path, depth, cfg)[i]
      == Repeat(cfg.indentation, depth + 1) + "[\"" + e.key + "\"] => "
       + (if e.read.Threw? then "" else RenderValue(h, e.read.value, path, depth + 1, cfg) + "\n")
  {
  }

  /**
   * A property whose read throws: its prefix is written and the loop goes
   * on to the next property with the stack untouched.
   */
  lemma FailingReadKeepsPrefix(h: Heap, r: Ref, i: nat, s: Session, depth: nat, cfg: Config)
    requires Closed(h) && r in h && h[r].ObjectNode? && i < |h[r].entries| && h[r].entries[i].read.Threw?
    ensures DumpEntries(h, r, i, s, depth, cfg)
         == DumpEntries(h, r, i + 1, Session(s.out + EntryPrefix(cfg, depth, h[r].entries[i].key), s.stack), depth, cfg)
  {
  }

  // ---------------------------------------------------------------------
  // Functions and their parameters object
  // ---------------------------------------------------------------------

  /**
   * A function at depth d: `function {`, its name as a string dump, then —
   * always, because split never returns an empty list — the parameters
   * object one level deeper, then the closing brace at depth d.
   */
  lemma FunctionLayout(h: Heap, name: string, source: string, path: seq<Ref>, depth: nat, cfg: Config)
    requires Closed(h)
    ensures RenderValue(h, Function(name, source), path, depth, cfg)
         == "function {\n"
          + Repeat(cfg.indentation, depth + 1) + "[name] => " + StringText(if name == "" then "(anonymous)" else name) + "\n"
          + Repeat(cfg.indentation, depth + 1) + "[parameters] => " + ParametersText(ParametersOf(source), depth + 1, cfg) + "\n"
          + Repeat(cfg.indentation, depth) + "}"
  {
    var v := Function(name, source);
    var A := Indentation(cfg, depth + 1);
    var N := DisplayName(name);
    var PT := ParametersText(ParametersOf(source), depth + 1, cfg);
    var X := Repeat(cfg.indentation, depth);
    assert RenderValue(h, v, path, depth, cfg) == FunctionText(v, depth, cfg);
    assert FunctionText(v, depth, cfg)
        == "function {\n" + A + "[name] => " + StringText(N) + "\n" + A + "[parameters] => " + PT + "\n" + (X + "}");
    assert N == if name == "" then "(anonymous)" else name;
    ClosingShape("function {\n" + A + "[name] => " + StringText(N) + "\n" + A + "[parameters] => " + PT + "\n", X);
  }

  lemma ClosingShape(prefix: string, indent: string)
    ensures prefix + (indent + "}") == prefix + indent + "}"
  {
  }

  /** Adding an object whose values are strings keeps the heap closed. */
  lemma ExtendClosed(h: Heap, p: Ref, ps: seq<Param>)
    requires Closed(h) && p !in h
    ensures Closed(h[p := ParametersNode(ps)])
  {
    var h' := h[p := ParametersNode(ps)];
    forall q | q in h'
      ensures NodeIn(h', h'[q])
    {
      if q != p {
        assert NodeIn(h, h[q]);
      }
    }
  }

  /**
   * The parameters object goes through the ordinary object formatter: put
   * in the heap at a fresh reference, it dumps exactly as ParametersText.
   */
  lemma ParametersAsObject(h: Heap, p: Ref, ps: seq<Param>, s: Session, depth: nat, cfg: Config)
    requires Closed(h) && p !in h && p !in s.stack
    ensures Closed(h[p := ParametersNode(ps)])
    ensures DumpValue(h[p := ParametersNode(ps)], Obj(p), s, depth, cfg) == Session(s.out + ParametersText(ps, depth, cfg), s.stack)
  {
    var h' := h[p := ParametersNode(ps)];
    ExtendClosed(h, p, ps);
    assert RenderValue(h', Obj(p), s.stack, depth, cfg) == ParametersText(ps, depth, cfg) by {
      var lines := EntryLines(h', p, s.stack + [p], depth, cfg);
      assert RenderValue(h', Obj(p), s.stack, depth, cfg) == RenderObject(h', Obj(p), s.stack, depth, cfg);
      ParameterLinesAreEntries(h', p, ps, 0, s.stack + [p], depth, cfg);
      assert lines[0..] == lines;
    }
    ValueIsRender(h', Obj(p), s, depth, cfg);
  }

  lemma {:induction false} ParameterLinesAreEntries(h: Heap, p: Ref, ps: seq<Param>, i: nat, path: seq<Ref>, depth: nat, cfg: Config)
    requires Closed(h) && p in h && h[p] == ParametersNode(ps) && i <= |ps|
    ensures Concat(EntryLines(h, p, path, depth, cfg)[i..]) == ParameterLines(ps, i, depth, cfg)
    decreases |ps| - i
  {
    var lines := EntryLines(h, p, path, depth, cfg);
    if i < |ps| {
      ConcatStep(lines, i);
      ParameterLinesAreEntries(h, p, ps, i + 1, path, depth, cfg);
      var prefix := EntryPrefix(cfg, depth, ps[i].name);
      var value := Primitive(Str(TagText(ps[i].tag)));
      assert h[p].entries[i] == Entry(ps[i].name, Returned(Str(TagText(ps[i].tag))));
      assert lines[i] == EntryLine(h, p, i, path, depth, cfg);
      assert RenderValue(h, Str(TagText(ps[i].tag)), path, depth + 1, cfg) == value;
      assert lines[i] == prefix + (value + "\n");
      assert ParameterLines(ps, i, depth, cfg) == prefix + value + "\n" + ParameterLines(ps, i + 1, depth, cfg);
      LineAssoc(prefix, value, ParameterLines(ps, i + 1, depth, cfg));
    }
  }

  lemma LineAssoc(prefix: string, value: string, rest: string)
    ensures prefix + (value + "\n") + rest == prefix + value + "\n" + rest
  {
  }

  /**
   * A declaration with nothing (or only white space) between its brackets
   * still shows `[parameters]`, holding the single key "" as required.
   */
  lemma NoParameterStillListed(source: string, depth: nat, cfg: Config)
    requires AllSpace(ParameterText(source))
    ensures ParametersText(ParametersOf(source), depth, cfg)
         == "object(Object) (1) {\n"
          + Repeat(cfg.indentation, depth + 1) + "[\"\"] => string(10) \"<required>\"\n"
          + Repeat(cfg.indentation, depth) + "}"
  {
    BlankParameterText(source);
    SingleRequiredText(depth, cfg);
  }

  lemma SingleRequiredText(depth: nat, cfg: Config)
    ensures ParametersText([Param("", Required)], depth, cfg)
         == "object(Object) (1) {\n"
          + Repeat(cfg.indentation, depth + 1) + "[\"\"] => string(10) \"<required>\"\n"
          + Repeat(cfg.indentation, depth) + "}"
  {
    var ps := [Param("", Required)];
    var inner := Repeat(cfg.indentation, depth + 1);
    var outer := Repeat(cfg.indentation, depth);
    assert Keys(ps) == [""];
    PlainParametersText(ps, depth, cfg);
    assert ParameterLines(ps, 0, depth, cfg) == inner + "[\"" + "" + "\"] => string(10) \"" + "<required>" + "\"\n" by {
      ParameterLineText(ps, 0, depth, cfg);
      assert ParameterLines(ps, 1, depth, cfg) == "";
    }
    SmallNumbers();
    SingleShape("1", inner, "<required>", outer);
  }

  /** The parameters object when no key shadows `constructor` or `hasOwnProperty`. */
  lemma PlainParametersText(ps: seq<Param>, depth: nat, cfg: Config)
    requires "constructor" !in Keys(ps) && "hasOwnProperty" !in Keys(ps)
    ensures ParametersText(ps, depth, cfg)
         == "object(Object) (" + NatText(|ps|) + ") {\n"
          + ParameterLines(ps, 0, depth, cfg)
          + Repeat(cfg.indentation, depth) + "}"
  {
    var node := ParametersNode(ps);
    var body := ParameterLines(ps, 0, depth, cfg);
    var indent := Repeat(cfg.indentation, depth);
    assert ObjectName(node.ctor) == "Object";
    assert ParametersText(ps, depth, cfg)
        == ObjectHeader("Object", |ps|) + "\n" + body + (indent + "}");
    assert ObjectHeader("Object", |ps|) == "object(Object) (" + NatText(|ps|) + ") {" by {
      assert "object(" + "Object" + ") (" == "object(Object) (";
    }
    HeaderShape("object(Object) (" + NatText(|ps|), body, indent);
  }

  lemma SingleShape(one: string, inner: string, tag: string, outer: string)
    requires one == "1" && tag == "<required>"
    ensures "object(Object) (" + one + ") {\n"
          + (inner + "[\"" + "" + "\"] => string(10) \"" + tag + "\"\n")
          + outer + "}"
         == "object(Object) (1) {\n"
          + inner + "[\"\"] => string(10) \"<required>\"\n"
          + outer + "}"
  {
    var head := "object(Object) (1) {\n";
    var line := "[\"\"] => string(10) \"<required>\"\n";
    assert "object(Object) (" + one + ") {\n" == head;
    assert "[\"" + "" + "\"] => string(10) \"" + tag + "\"\n" == line by {
      RequiredKey();
    }
    GroupShape(head, inner, "[\"" + "" + "\"] => string(10) \"" + tag + "\"\n", outer);
  }

  lemma RequiredKey()
    ensures "[\"" + "" + "\"] => string(10) \"" + "<required>" + "\"\n" == "[\"\"] => string(10) \"<required>\"\n"
  {
    assert "[\"" + "\"] => string(10) \"" == "[\"\"] => string(10) \"";
    assert "[\"\"] => string(10) \"" + "<required>" == "[\"\"] => string(10) \"<required>";
  }

  lemma GroupShape(head: string, inner: string, line: string, outer: string)
    ensures head + (inner + line) + outer + "}" == head + inner + line + outer + "}"
  {
  }

  lemma SmallNumbers()
    ensures NatText(1) == "1" && NatText(10) == "10"
  {
    assert NatText(10) == NatText(1) + [DigitChar(0)];
  }

  /** One parameter's line: its key, then its tag as a ten-unit string. */
  lemma ParameterLineText(ps: seq<Param>, i: nat, depth: nat, cfg: Config)
    requires i < |ps|
    ensures ParameterLines(ps, i, depth, cfg)
         == Repeat(cfg.indentation, depth + 1) + "[\"" + ps[i].name + "\"] => string(10) \"" + TagText(ps[i].tag) + "\"\n"
          + ParameterLines(ps, i + 1, depth, cfg)
  {
    TagDump(ps[i].tag);
  }

  /** Both tags are ten code units long, so each prints as `string(10) "<tag>"`. */
  lemma TagDump(t: Tag)
    ensures Primitive(Str(TagText(t))) == "string(10) \"" + TagText(t) + "\""
  {
    SmallNumbers();
    TagLength(TagText(t));
  }

  lemma TagLength(text: string)
    requires text == "<required>" || text == "<optional>"
    ensures Utf16Length(text) == 10
  {
    assert forall i | 0 <= i < |text| :: Units(text[i]) == 1;
    AllNarrow(text);
  }

  /** A string of characters inside the Basic Multilingual Plane has one code unit each. */
  lemma {:induction false} AllNarrow(s: string)
    requires forall i | 0 <= i < |s| :: Units(s[i]) == 1
    ensures Utf16Length(s) == |s|
  {
    if |s| > 0 {
      assert forall i | 0 <= i < |s| - 1 :: s[1..][i] == s[i + 1];
      AllNarrow(s[1..]);
    }
  }
}

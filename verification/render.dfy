/**
 * The text a dump produces, written as one expression per layout rule:
 * no buffer, no stack mutation, the descent path passed down explicitly.
 * ValueIsRender shows that the session-threading dumper appends exactly
 * this text and hands the stack back as it found it.
 */
module Render {

  import opened Strings
  import opened Values
  import opened Parameters
  import opened Dump

  /** The text of a value at `depth` below the objects on `path`. */
  function RenderValue(h: Heap, v: Value, path: seq<Ref>, depth: nat, cfg: Config): string
    requires Closed(h) && ValueIn(h, v)
    decreases Unvisited(h, path), 3, 0
  {
    if v.Function? then FunctionText(v, depth, cfg)
    else if v.Null? || v.Obj? then RenderObject(h, v, path, depth, cfg)
    else Primitive(v)
  }

  /**
   * A function: its name, then always a `[parameters]` entry holding the
   * parameters object one level deeper.
   */
  function FunctionText(v: Value, depth: nat, cfg: Config): string
    requires v.Function?
  {
    "function {\n"
    + Indentation(cfg, depth + 1) + "[name] => " + StringText(DisplayName(v.name)) + "\n"
    + Indentation(cfg, depth + 1) + "[parameters] => " + ParametersText(ParametersOf(v.source), depth + 1, cfg) + "\n"
    + Closing(cfg, depth)
  }

  /** null, a re-entered object, an array, window, an element, or an ordinary object. */
  function RenderObject(h: Heap, v: Value, path: seq<Ref>, depth: nat, cfg: Config): string
    requires Closed(h) && (v.Null? || (v.Obj? && v.r in h))
    decreases Unvisited(h, path), 2, 0
  {
    if v.Obj? && v.r in path then "*RECURSION*"
    else if v.Null? then "NULL"
    else if h[v.r].ArrayNode? then RenderArray(h, v.r, path, depth, cfg)
    else
      var node := h[v.r];
      if !cfg.allowWindowDump && node.isWindow then "object(window)"
      else if node.element.Some? then "HTMLElement(" + node.element.value + ")"
      else
        PushShrinks(h, path, v.r);
        var inner := path + [v.r];
        ObjectHeader(ObjectName(node.ctor), |node.entries|) + "\n"
        + (if node.hasOwnProperty
           then Concat(EntryLines(h, v.r, inner, depth, cfg))
           else "")
        + Closing(cfg, depth)
  }

  /** An array: header, one line per element in index order, closing brace. */
  function RenderArray(h: Heap, r: Ref, path: seq<Ref>, depth: nat, cfg: Config): string
    requires Closed(h) && r in h && h[r].ArrayNode?
    decreases Unvisited(h, path), 1, 0
  {
    if r in path then "*RECURSION*"
    else
      PushShrinks(h, path, r);
      var n := |h[r].elems|;
      ArrayHeader(n) + "\n"
      + Concat(ElementLines(h, r, path + [r], depth, cfg))
      + Closing(cfg, depth)
  }

  /** `[i] => <element>` and a newline, one level deeper than the array. */
  function ElementLine(h: Heap, r: Ref, i: nat, path: seq<Ref>, depth: nat, cfg: Config): string
    requires Closed(h) && r in h && h[r].ArrayNode? && i < |h[r].elems|
    decreases Unvisited(h, path), 4, 0
  {
    ElementPrefix(cfg, depth, i) + RenderValue(h, h[r].elems[i], path, depth + 1, cfg) + "\n"
  }

  /** `["key"] => <value>` and a newline; only the prefix when reading the key throws. */
  function EntryLine(h: Heap, r: Ref, i: nat, path: seq<Ref>, depth: nat, cfg: Config): string
    requires Closed(h) && r in h && h[r].ObjectNode? && i < |h[r].entries|
    decreases Unvisited(h, path), 4, 0
  {
    var e := h[r].entries[i];
    EntryPrefix(cfg, depth, e.key)
    + (if e.read.Threw? then "" else RenderValue(h, e.read.value, path, depth + 1, cfg) + "\n")
  }

  /** The element lines of an array, in index order. */
  function ElementLines(h: Heap, r: Ref, path: seq<Ref>, depth: nat, cfg: Config): (lines: seq<string>)
    requires Closed(h) && r in h && h[r].ArrayNode?
    ensures |lines| == |h[r].elems|
    decreases Unvisited(h, path), 5, 0
  {
    seq(|h[r].elems|, i requires 0 <= i < |h[r].elems| => ElementLine(h, r, i, path, depth, cfg))
  }

  /** The property lines of an object, in key order. */
  function EntryLines(h: Heap, r: Ref, path: seq<Ref>, depth: nat, cfg: Config): (lines: seq<string>)
    requires Closed(h) && r in h && h[r].ObjectNode?
    ensures |lines| == |h[r].entries|
    decreases Unvisited(h, path), 5, 0
  {
    seq(|h[r].entries|, i requires 0 <= i < |h[r].entries| => EntryLine(h, r, i, path, depth, cfg))
  }

  // ---------------------------------------------------------------------
  // The dumper appends exactly the rendering and restores the stack
  // ---------------------------------------------------------------------

  lemma ConcatStep(parts: seq<string>, i: nat)
    requires i < |parts|
    ensures Concat(parts[i..]) == parts[i] + Concat(parts[i + 1..])
  {
    assert parts[i..][1..] == parts[i + 1..];
  }

  /**
   * Dumping a value appends its rendering at the current stack to the
   * output, and leaves the stack exactly as it was.
   */
  lemma {:induction false} ValueIsRender(h: Heap, v: Value, s: Session, depth: nat, cfg: Config)
    requires Closed(h) && ValueIn(h, v)
    ensures DumpValue(h, v, s, depth, cfg) == Session(s.out + RenderValue(h, v, s.stack, depth, cfg), s.stack)
    decreases Unvisited(h, s.stack), 3, 0
  {
    if v.Function? {
      FunctionIsRender(v, s, depth, cfg);
    } else if v.Null? || v.Obj? {
      ObjectIsRender(h, v, s, depth, cfg);
    }
  }

  /** dump_function appends FunctionText: the `[parameters]` branch is always taken. */
  lemma FunctionIsRender(v: Value, s: Session, depth: nat, cfg: Config)
    requires v.Function?
    ensures DumpFunction(v, s, depth, cfg) == Session(s.out + FunctionText(v, depth, cfg), s.stack)
  {
    var args := Tokens(v.source);
    var A := Indentation(cfg, depth + 1);
    var P := Primitive(Str(DisplayName(v.name)));
    var PT := ParametersText(Collect(Classified(args)), depth + 1, cfg);
    var C := Closing(cfg, depth);
    assert P == StringText(DisplayName(v.name));
    assert PT == ParametersText(ParametersOf(v.source), depth + 1, cfg);
    var s1 := AppendLine(s, "function {");
    var s2 := Append(s1, A + "[name] => ");
    var s3 := Append(s2, P);
    var t := Append(Newline(s3), A + "[parameters] => ");
    var s4 := Append(t, PT);
    assert DumpFunction(v, s, depth, cfg) == Append(Newline(s4), C);
    assert FunctionText(v, depth, cfg) == "function {\n" + A + "[name] => " + P + "\n" + A + "[parameters] => " + PT + "\n" + C;
    FunctionShape(s.out, A, P, PT, C);
  }

  lemma FunctionShape(o: string, A: string, P: string, PT: string, C: string)
    ensures o + ("function {" + "\n") + (A + "[name] => ") + P + "\n" + (A + "[parameters] => ") + PT + "\n" + C
         == o + ("function {\n" + A + "[name] => " + P + "\n" + A + "[parameters] => " + PT + "\n" + C)
  {
  }

  /** Header line, body, closing brace: the shape of every composite dump. */
  lemma BlockShape(o: string, header: string, body: string, closing: string)
    ensures o + (header + "\n") + body + closing == o + (header + "\n" + body + closing)
  {
  }

  /** One line of a loop: prefix, value, newline. */
  lemma LineShape(o: string, prefix: string, value: string)
    ensures o + prefix + value + "\n" == o + (prefix + value + "\n")
    ensures o + prefix + value + "\n" == o + (prefix + (value + "\n"))
  {
  }

  lemma AppendAssoc(o: string, line: string, rest: string)
    ensures o + line + rest == o + (line + rest)
  {
  }

  lemma PopPushed(s: Session, r: Ref, out: string)
    ensures Pop(Session(out, s.stack + [r])) == Session(out, s.stack)
  {
    assert (s.stack + [r])[..|s.stack|] == s.stack;
  }

  lemma {:induction false} ObjectIsRender(h: Heap, v: Value, s: Session, depth: nat, cfg: Config)
    requires Closed(h) && (v.Null? || (v.Obj? && v.r in h))
    ensures DumpObject(h, v, s, depth, cfg) == Session(s.out + RenderObject(h, v, s.stack, depth, cfg), s.stack)
    decreases Unvisited(h, s.stack), 2, 0
  {
    if v.Obj? && v.r !in s.stack && !v.Null? {
      if h[v.r].ArrayNode? {
        ArrayIsRender(h, v.r, s, depth, cfg);
      } else {
        var node := h[v.r];
        if !(!cfg.allowWindowDump && node.isWindow) && node.element.None? {
          OrdinaryIsRender(h, v.r, s, depth, cfg);
        }
      }
    }
  }

  /** The last branch of dump_object: push, header, properties, pop, closing brace. */
  lemma {:induction false} OrdinaryIsRender(h: Heap, r: Ref, s: Session, depth: nat, cfg: Config)
    requires Closed(h) && r in h && r !in s.stack && h[r].ObjectNode?
    requires !(!cfg.allowWindowDump && h[r].isWindow) && h[r].element.None?
    ensures DumpObject(h, Obj(r), s, depth, cfg) == Session(s.out + RenderObject(h, Obj(r), s.stack, depth, cfg), s.stack)
    decreases Unvisited(h, s.stack), 1, 0
  {
    var node := h[r];
    var header := ObjectHeader(ObjectName(node.ctor), |node.entries|);
    var closing := Closing(cfg, depth);
    PushShrinks(h, s.stack, r);
    var s2 := AppendLine(Push(s, r), header);
    var body := if node.hasOwnProperty then Concat(EntryLines(h, r, s.stack + [r], depth, cfg)) else "";
    if node.hasOwnProperty {
      EntriesIsRender(h, r, 0, s2, depth, cfg);
      assert EntryLines(h, r, s2.stack, depth, cfg)[0..] == EntryLines(h, r, s2.stack, depth, cfg);
    }
    var s3 := if node.hasOwnProperty then DumpEntries(h, r, 0, s2, depth, cfg) else s2;
    assert s3 == Session(s.out + (header + "\n") + body, s.stack + [r]);
    PopPushed(s, r, s3.out);
    assert DumpObject(h, Obj(r), s, depth, cfg) == Append(Pop(s3), closing);
    assert RenderObject(h, Obj(r), s.stack, depth, cfg) == header + "\n" + body + closing;
    BlockShape(s.out, header, body, closing);
  }

  lemma {:induction false} ArrayIsRender(h: Heap, r: Ref, s: Session, depth: nat, cfg: Config)
    requires Closed(h) && r in h && h[r].ArrayNode?
    ensures DumpArray(h, r, s, depth, cfg) == Session(s.out + RenderArray(h, r, s.stack, depth, cfg), s.stack)
    decreases Unvisited(h, s.stack), 1, 0
  {
    if r !in s.stack {
      var header := ArrayHeader(|h[r].elems|);
      var closing := Closing(cfg, depth);
      var s2 := Push(AppendLine(s, header), r);
      PushShrinks(h, s.stack, r);
      ElementsIsRender(h, r, 0, s2, depth, cfg);
      var lines := ElementLines(h, r, s2.stack, depth, cfg);
      assert lines[0..] == lines;
      var s3 := DumpElements(h, r, 0, s2, depth, cfg);
      assert s3 == Session(s.out + (header + "\n") + Concat(lines), s.stack + [r]);
      PopPushed(s, r, s3.out);
      assert RenderArray(h, r, s.stack, depth, cfg) == header + "\n" + Concat(lines) + closing;
      BlockShape(s.out, header, Concat(lines), closing);
    }
  }

  lemma {:induction false} ElementsIsRender(h: Heap, r: Ref, i: nat, s: Session, depth: nat, cfg: Config)
    requires Closed(h) && r in h && h[r].ArrayNode? && i <= |h[r].elems|
    ensures DumpElements(h, r, i, s, depth, cfg)
         == Session(s.out + Concat(ElementLines(h, r, s.stack, depth, cfg)[i..]), s.stack)
    decreases Unvisited(h, s.stack), 5, |h[r].elems| - i
  {
    var lines := ElementLines(h, r, s.stack, depth, cfg);
    if i < |h[r].elems| {
      var s' := Session(s.out + lines[i], s.stack);
      assert DumpElements(h, r, i, s, depth, cfg) == DumpElements(h, r, i + 1, s', depth, cfg) by {
        ElementIsLine(h, r, i, s, depth, cfg);
      }
      assert DumpElements(h, r, i + 1, s', depth, cfg) == Session(s'.out + Concat(lines[i + 1..]), s.stack) by {
        ElementsIsRender(h, r, i + 1, s', depth, cfg);
      }
      assert Concat(lines[i..]) == lines[i] + Concat(lines[i + 1..]) by {
        ConcatStep(lines, i);
      }
      AppendAssoc(s.out, lines[i], Concat(lines[i + 1..]));
    } else {
      assert lines[i..] == [];
    }
  }

  /** One turn of dump_array's loop appends that element's line. */
  lemma {:induction false} ElementIsLine(h: Heap, r: Ref, i: nat, s: Session, depth: nat, cfg: Config)
    requires Closed(h) && r in h && h[r].ArrayNode? && i < |h[r].elems|
    ensures DumpElements(h, r, i, s, depth, cfg)
         == DumpElements(h, r, i + 1, Session(s.out + ElementLines(h, r, s.stack, depth, cfg)[i], s.stack), depth, cfg)
    decreases Unvisited(h, s.stack), 4, 0
  {
    var prefix := ElementPrefix(cfg, depth, i);
    var s1 := Append(s, prefix);
    ValueIsRender(h, h[r].elems[i], s1, depth + 1, cfg);
    var value := RenderValue(h, h[r].elems[i], s.stack, depth + 1, cfg);
    var s2 := DumpValue(h, h[r].elems[i], s1, depth + 1, cfg);
    assert DumpElements(h, r, i, s, depth, cfg) == DumpElements(h, r, i + 1, Newline(s2), depth, cfg);
    assert ElementLines(h, r, s.stack, depth, cfg)[i] == prefix + value + "\n";
    LineShape(s.out, prefix, value);
    assert Newline(s2) == Session(s.out + ElementLines(h, r, s.stack, depth, cfg)[i], s.stack);
  }

  lemma {:induction false} EntriesIsRender(h: Heap, r: Ref, i: nat, s: Session, depth: nat, cfg: Config)
    requires Closed(h) && r in h && h[r].ObjectNode? && i <= |h[r].entries|
    ensures DumpEntries(h, r, i, s, depth, cfg)
         == Session(s.out + Concat(EntryLines(h, r, s.stack, depth, cfg)[i..]), s.stack)
    decreases Unvisited(h, s.stack), 5, |h[r].entries| - i
  {
    var lines := EntryLines(h, r, s.stack, depth, cfg);
    if i < |h[r].entries| {
      var s' := Session(s.out + lines[i], s.stack);
      assert DumpEntries(h, r, i, s, depth, cfg) == DumpEntries(h, r, i + 1, s', depth, cfg) by {
        EntryIsLine(h, r, i, s, depth, cfg);
      }
      assert DumpEntries(h, r, i + 1, s', depth, cfg) == Session(s'.out + Concat(lines[i + 1..]), s.stack) by {
        EntriesIsRender(h, r, i + 1, s', depth, cfg);
      }
      assert Concat(lines[i..]) == lines[i] + Concat(lines[i + 1..]) by {
        ConcatStep(lines, i);
      }
      AppendAssoc(s.out, lines[i], Concat(lines[i + 1..]));
    } else {
      assert lines[i..] == [];
    }
  }

  /** One turn of dump_object's loop appends that property's line, or only its prefix. */
  lemma {:induction false} EntryIsLine(h: Heap, r: Ref, i: nat, s: Session, depth: nat, cfg: Config)
    requires Closed(h) && r in h && h[r].ObjectNode? && i < |h[r].entries|
    ensures DumpEntries(h, r, i, s, depth, cfg)
         == DumpEntries(h, r, i + 1, Session(s.out + EntryLines(h, r, s.stack, depth, cfg)[i], s.stack), depth, cfg)
    decreases Unvisited(h, s.stack), 4, 0
  {
    var e := h[r].entries[i];
    var prefix := EntryPrefix(cfg, depth, e.key);
    var s1 := Append(s, prefix);
    if e.read.Threw? {
      assert DumpEntries(h, r, i, s, depth, cfg) == DumpEntries(h, r, i + 1, s1, depth, cfg);
      assert EntryLines(h, r, s.stack, depth, cfg)[i] == prefix;
    } else {
      ValueIsRender(h, e.read.value, s1, depth + 1, cfg);
      var value := RenderValue(h, e.read.value, s.stack, depth + 1, cfg);
      var s2 := Newline(DumpValue(h, e.read.value, s1, depth + 1, cfg));
      assert DumpEntries(h, r, i, s, depth, cfg) == DumpEntries(h, r, i + 1, s2, depth, cfg);
      assert EntryLines(h, r, s.stack, depth, cfg)[i] == prefix + (value + "\n");
      LineShape(s.out, prefix, value);
      assert s2 == Session(s.out + EntryLines(h, r, s.stack, depth, cfg)[i], s.stack);
    }
  }
}

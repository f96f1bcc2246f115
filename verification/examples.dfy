/**
 * Worked dumps: the format's own samples, a self-containing array, and
 * the parameters of a function with a required and an optional parameter.
 */
module Examples {

  import opened Wrappers
  import opened Strings
  import opened Values
  import opened Parameters
  import opened Dump
  import opened Render
  import opened Layout
  import opened ParameterExamples

  /** The array `[1, 2]` as the only object of a heap. */
  function PairHeap(): (h: Heap)
    ensures Closed(h) && 0 in h
  {
    var h := map[0 := ArrayNode([Number(1), Number(2)])];
    assert NodeIn(h, h[0]);
    h
  }

  /** `[1, 2]` at depth 0. */
  lemma ArrayOfTwo()
    ensures RenderValue(PairHeap(), Obj(0), [], 0, Defaults)
         == "array(2) {\n"
          + "    [0] => number(1)\n"
          + "    [1] => number(2)\n"
          + "}"
  {
    var h := PairHeap();
    var lines := ElementLines(h, 0, [0], 0, Defaults);
    assert RenderValue(h, Obj(0), [], 0, Defaults) == "array(" + NatText(2) + ") {\n" + Concat(lines) + Repeat("    ", 0) + "}" by {
      ArrayLayout(h, 0, [], 0, Defaults);
      var empty: seq<Ref> := [];
      assert empty + [0] == [0];
    }
    assert Concat(lines) == "    [0] => number(1)\n" + "    [1] => number(2)\n" by {
      PairLines();
      ConcatTwo(lines);
    }
    Indents();
    Digits();
    assert "array(" + "2" + ") {\n" == "array(2) {\n";
  }

  lemma PairLines()
    ensures var lines := ElementLines(PairHeap(), 0, [0], 0, Defaults);
      |lines| == 2 && lines[0] == "    [0] => number(1)\n" && lines[1] == "    [1] => number(2)\n"
  {
    PairLine(0);
    PairLine(1);
    Digits();
    FirstNumberLine();
    SecondNumberLine();
  }

  /** Element i of `[1, 2]` is the number i + 1. */
  lemma PairLine(i: nat)
    requires i < 2
    ensures ElementLines(PairHeap(), 0, [0], 0, Defaults)[i] == "    [" + NatText(i) + "] => number(" + NatText(i + 1) + ")\n"
  {
    var h := PairHeap();
    ElementLineLayout(h, 0, i, [0], 0, Defaults);
    assert h[0].elems[i] == Number(i + 1);
    NumberRender(h, i + 1, [0], 1, Defaults);
    Indents();
    NumberLineShape(NatText(i), NatText(i + 1));
  }

  /** A natural number renders as `number(<digits>)`. */
  lemma NumberRender(h: Heap, n: nat, path: seq<Ref>, depth: nat, cfg: Config)
    requires Closed(h)
    ensures RenderValue(h, Number(n), path, depth, cfg) == "number(" + NatText(n) + ")"
  {
    assert RenderValue(h, Number(n), path, depth, cfg) == Primitive(Number(n));
  }

  lemma NumberLineShape(index: string, n: string)
    ensures "    " + "[" + index + "] => " + ("number(" + n + ")") + "\n" == "    [" + index + "] => number(" + n + ")\n"
  {
    assert "    " + "[" == "    [";
    assert "] => " + "number(" == "] => number(";
    assert ")" + "\n" == ")\n";
  }

  lemma FirstNumberLine()
    ensures "    [" + "0" + "] => number(" + "1" + ")\n" == "    [0] => number(1)\n"
  {
  }

  lemma SecondNumberLine()
    ensures "    [" + "1" + "] => number(" + "2" + ")\n" == "    [1] => number(2)\n"
  {
  }

  lemma ConcatTwo(parts: seq<string>)
    requires |parts| == 2
    ensures Concat(parts) == parts[0] + parts[1]
  {
    assert parts[1..][1..] == [];
    assert Concat(parts[1..][1..]) == "";
  }

  lemma ConcatOne(parts: seq<string>)
    requires |parts| == 1
    ensures Concat(parts) == parts[0]
  {
    assert parts[1..] == [];
    assert Concat(parts[1..]) == "";
  }

  lemma Indents()
    ensures Repeat("    ", 0) == "" && Repeat("    ", 1) == "    " && Repeat("    ", 2) == "        "
  {
  }

  /** An array holding itself as its only element. */
  function CyclicHeap(): (h: Heap)
    ensures Closed(h) && 0 in h
  {
    var h := map[0 := ArrayNode([Obj(0)])];
    assert NodeIn(h, h[0]);
    h
  }

  /** An array holding itself: one marker where it recurs, and the dump ends. */
  lemma SelfContainingArray()
    ensures RenderValue(CyclicHeap(), Obj(0), [], 0, Defaults)
         == "array(1) {\n"
          + "    [0] => *RECURSION*\n"
          + "}"
  {
    var h := CyclicHeap();
    var lines := ElementLines(h, 0, [0], 0, Defaults);
    assert RenderValue(h, Obj(0), [], 0, Defaults) == "array(" + NatText(1) + ") {\n" + Concat(lines) + Repeat("    ", 0) + "}" by {
      ArrayLayout(h, 0, [], 0, Defaults);
      var empty: seq<Ref> := [];
      assert empty + [0] == [0];
    }
    assert Concat(lines) == "    [0] => *RECURSION*\n" by {
      CyclicLine();
      ConcatOne(lines);
    }
    Indents();
    Digits();
    assert "array(" + "1" + ") {\n" == "array(1) {\n";
  }

  lemma CyclicLine()
    ensures var lines := ElementLines(CyclicHeap(), 0, [0], 0, Defaults);
      |lines| == 1 && lines[0] == "    [0] => *RECURSION*\n"
  {
    var h := CyclicHeap();
    ElementLineLayout(h, 0, 0, [0], 0, Defaults);
    assert RenderValue(h, Obj(0), [0], 1, Defaults) == "*RECURSION*";
    Indents();
    Digits();
    assert "    " + "[" + "0" + "] => " == "    [0] => ";
    assert "    [0] => " + "*RECURSION*" + "\n" == "    [0] => *RECURSION*\n";
  }

  // ---------------------------------------------------------------------
  // function add(a, b = 1) { return a + b; }
  // ---------------------------------------------------------------------

  /**
   * The whole dump of `add` at depth 0. The parameters object prints as
   * `object(Object)`: it is a plain `{}` whose constructor is Object.
   */
  lemma AddFunction(source: string)
    requires source == "function add(a, b = 1) { return a + b; }"
    ensures RenderValue(map[], Function("add", source), [], 0, Defaults)
         == "function {\n"
          + "    [name] => string(3) \"add\"\n"
          + "    [parameters] => object(Object) (2) {\n"
          + "        [\"a\"] => string(10) \"<required>\"\n"
          + "        [\"b\"] => string(10) \"<optional>\"\n"
          + "    }\n"
          + "}"
  {
    var h: Heap := map[];
    FunctionLayout(h, "add", source, [], 0, Defaults);
    AddParameters(source);
    TwoParameterText(1, Defaults);
    Indents();
    AddName();
    var A := "[\"a\"] => string(10) \"<required>\"\n";
    var B := "[\"b\"] => string(10) \"<optional>\"\n";
    AddShape("    ", "        ", "string(3) \"add\"", A, B);
    AddChunks("    ", "        ", "string(3) \"add\"", A, B);
  }

  lemma AddShape(i1: string, i2: string, name: string, a: string, b: string)
    ensures "function {\n" + i1 + "[name] => " + name + "\n"
          + i1 + "[parameters] => " + ("object(Object) (2) {\n" + i2 + a + i2 + b + i1 + "}") + "\n"
          + "" + "}"
         == "function {\n" + (i1 + "[name] => " + name + "\n")
          + (i1 + "[parameters] => " + "object(Object) (2) {\n")
          + (i2 + a) + (i2 + b) + (i1 + "}" + "\n") + "}"
  {
  }

  lemma AddChunks(i1: string, i2: string, name: string, a: string, b: string)
    requires i1 == "    " && i2 == "        " && name == "string(3) \"add\""
    requires a == "[\"a\"] => string(10) \"<required>\"\n" && b == "[\"b\"] => string(10) \"<optional>\"\n"
    ensures i1 + "[name] => " + name + "\n" == "    [name] => string(3) \"add\"\n"
    ensures i1 + "[parameters] => " + "object(Object) (2) {\n" == "    [parameters] => object(Object) (2) {\n"
    ensures i2 + a == "        [\"a\"] => string(10) \"<required>\"\n"
    ensures i2 + b == "        [\"b\"] => string(10) \"<optional>\"\n"
    ensures i1 + "}" + "\n" == "    }\n"
  {
    assert "    " + "[name] => " + "string(3) \"add\"" + "\n" == "    [name] => string(3) \"add\"\n";
    ParametersChunk();
    IndentedLines();
  }

  lemma ParametersChunk()
    ensures "    " + "[parameters] => " + "object(Object) (2) {\n" == "    [parameters] => object(Object) (2) {\n"
  {
    assert "    " + "[parameters] => " == "    [parameters] => ";
    assert "    [parameters] => " + "object(" == "    [parameters] => object(";
  }

  lemma IndentedLines()
    ensures "        " + "[\"a\"] => string(10) \"<required>\"\n" == "        [\"a\"] => string(10) \"<required>\"\n"
    ensures "        " + "[\"b\"] => string(10) \"<optional>\"\n" == "        [\"b\"] => string(10) \"<optional>\"\n"
    ensures "    " + "}" + "\n" == "    }\n"
  {
    IndentedA();
    IndentedB();
  }

  lemma IndentedA()
    ensures "        " + "[\"a\"] => string(10) \"<required>\"\n" == "        [\"a\"] => string(10) \"<required>\"\n"
  {
  }

  lemma IndentedB()
    ensures "        " + "[\"b\"] => string(10) \"<optional>\"\n" == "        [\"b\"] => string(10) \"<optional>\"\n"
  {
  }

  lemma AddName()
    ensures StringText("add") == "string(3) \"add\""
  {
    assert Utf16Length("add") == 3;
    assert NatText(3) == "3";
  }

  lemma TwoParameterText(depth: nat, cfg: Config)
    ensures ParametersText([Param("a", Required), Param("b", Optional)], depth, cfg)
         == "object(Object) (2) {\n"
          + Repeat(cfg.indentation, depth + 1) + "[\"a\"] => string(10) \"<required>\"\n"
          + Repeat(cfg.indentation, depth + 1) + "[\"b\"] => string(10) \"<optional>\"\n"
          + Repeat(cfg.indentation, depth) + "}"
  {
    var ps := [Param("a", Required), Param("b", Optional)];
    TwoNode();
    TwoHeader();
    TwoLines(depth, cfg);
    var indent := Repeat(cfg.indentation, depth + 1);
    var la := indent + "[\"a\"] => string(10) \"<required>\"\n";
    var lb := indent + "[\"b\"] => string(10) \"<optional>\"\n";
    assert ParametersText(ps, depth, cfg) == "object(Object) (2) {" + "\n" + (la + lb) + Closing(cfg, depth);
    TwoShape(indent, "[\"a\"] => string(10) \"<required>\"\n", "[\"b\"] => string(10) \"<optional>\"\n", Repeat(cfg.indentation, depth));
  }

  lemma TwoShape(indent: string, a: string, b: string, outer: string)
    ensures "object(Object) (2) {" + "\n" + (indent + a + (indent + b)) + (outer + "}")
         == "object(Object) (2) {\n" + indent + a + indent + b + outer + "}"
  {
  }

  lemma TwoHeader()
    ensures ObjectHeader(ObjectName(Some("Object")), 2) == "object(Object) (2) {"
  {
    assert NatText(2) == "2";
  }

  lemma TwoNode()
    ensures ParametersNode([Param("a", Required), Param("b", Optional)]).ctor == Some("Object")
    ensures ParametersNode([Param("a", Required), Param("b", Optional)]).hasOwnProperty
  {
    assert Keys([Param("a", Required), Param("b", Optional)]) == ["a", "b"];
  }

  lemma TwoLines(depth: nat, cfg: Config)
    ensures ParameterLines([Param("a", Required), Param("b", Optional)], 0, depth, cfg)
         == Repeat(cfg.indentation, depth + 1) + "[\"a\"] => string(10) \"<required>\"\n"
          + (Repeat(cfg.indentation, depth + 1) + "[\"b\"] => string(10) \"<optional>\"\n")
  {
    TwoLinesOf([Param("a", Required), Param("b", Optional)], depth, cfg);
  }

  lemma TwoLinesOf(ps: seq<Param>, depth: nat, cfg: Config)
    requires ps == [Param("a", Required), Param("b", Optional)]
    ensures ParameterLines(ps, 0, depth, cfg)
         == Repeat(cfg.indentation, depth + 1) + "[\"a\"] => string(10) \"<required>\"\n"
          + (Repeat(cfg.indentation, depth + 1) + "[\"b\"] => string(10) \"<optional>\"\n")
  {
    SecondParameterLine(ps, depth, cfg);
    ParameterLineText(ps, 0, depth, cfg);
    assert ps[0].name == "a" && TagText(ps[0].tag) == "<required>";
    LineA(Repeat(cfg.indentation, depth + 1));
  }

  lemma SecondParameterLine(ps: seq<Param>, depth: nat, cfg: Config)
    requires ps == [Param("a", Required), Param("b", Optional)]
    ensures ParameterLines(ps, 1, depth, cfg) == Repeat(cfg.indentation, depth + 1) + "[\"b\"] => string(10) \"<optional>\"\n"
  {
    ParameterLineText(ps, 1, depth, cfg);
    assert ParameterLines(ps, 2, depth, cfg) == "";
    assert ps[1].name == "b" && TagText(ps[1].tag) == "<optional>";
    LineB(Repeat(cfg.indentation, depth + 1));
  }

  lemma LineA(indent: string)
    ensures indent + "[\"" + "a" + "\"] => string(10) \"" + "<required>" + "\"\n"
         == indent + "[\"a\"] => string(10) \"<required>\"\n"
  {
    assert "[\"" + "a" == "[\"a";
    assert "[\"a" + "\"] => string(10) \"" == "[\"a\"] => string(10) \"";
    assert "[\"a\"] => string(10) \"" + "<required>" == "[\"a\"] => string(10) \"<required>";
    IndentShape(indent, "[\"", "a", "\"] => string(10) \"", "<required>", "\"\n");
  }

  lemma LineB(indent: string)
    ensures indent + "[\"" + "b" + "\"] => string(10) \"" + "<optional>" + "\"\n"
         == indent + "[\"b\"] => string(10) \"<optional>\"\n"
  {
    assert "[\"" + "b" == "[\"b";
    assert "[\"b" + "\"] => string(10) \"" == "[\"b\"] => string(10) \"";
    assert "[\"b\"] => string(10) \"" + "<optional>" == "[\"b\"] => string(10) \"<optional>";
    IndentShape(indent, "[\"", "b", "\"] => string(10) \"", "<optional>", "\"\n");
  }

  lemma IndentShape(indent: string, a: string, b: string, c: string, d: string, e: string)
    ensures indent + a + b + c + d + e == indent + (a + b + c + d + e)
  {
  }

  lemma Digits()
    ensures NatText(0) == "0" && NatText(1) == "1" && NatText(2) == "2"
  {
  }
}

/**
 * Worked classifications of parameter pieces and the parameters object of
 * `function add(a, b = 1) { return a + b; }`. Each example names its text
 * through a parameter fixed by `requires`, so the proof reasons about that
 * text through the general lemmas instead of by evaluating every function
 * on the literal.
 */
module ParameterExamples {

  import opened Wrappers
  import opened Strings
  import opened Parameters

  // ---------------------------------------------------------------------
  // Single pieces
  // ---------------------------------------------------------------------

  /** A bare name is required and named by itself. */
  lemma ClassifyPlain(t: string)
    requires t == "a"
    ensures Classify(t) == Param("a", Required)
  {
    assert '=' !in t && |t| == 1 && !IsSpace(t[0]);
    NoDots(t);
    TrimWord(t);
    ClassifyName(t);
  }

  /** Too short to hold `...`. */
  lemma NoDots(t: string)
    requires |t| < 3
    ensures Find(t, "...") == -1
  {
    assert forall j: nat :: !OccursAt(t, "...", j);
  }

  /** A name with a default is optional and named by the trimmed text before `=`. */
  lemma ClassifyDefault(t: string)
    requires t == " b = 1"
    ensures Classify(t) == Param("b", Optional)
  {
    assert t[3] == '=' && '=' !in t[..3];
    IndexOfAt(t, '=', 3);
    assert t[..3] == " " + "b" + " ";
    TrimSpaced("b");
    ClassifyName(t);
  }

  /** A rest parameter is optional and named by what follows the dots. */
  lemma ClassifyRest(t: string)
    requires t == "...rest"
    ensures Classify(t) == Param("rest", Optional)
  {
    assert '=' !in t;
    DotsFirst(t);
    var w := t[3..];
    assert w == "rest" && |w| > 0 && !IsSpace(w[0]) && !IsSpace(w[|w| - 1]);
    TrimWord(w);
    ClassifyName(t);
  }

  /** A piece that starts with `...` has its first `...` at position 0. */
  lemma DotsFirst(t: string)
    requires |t| >= 3 && t[..3] == "..."
    ensures Find(t, "...") == 0
  {
    assert OccursAt(t, "...", 0);
  }

  /** With both, `=` wins: `...xs = []` is named by the text before `=`, dots included. */
  lemma ClassifyRestWithDefault(t: string)
    requires t == "...xs = []"
    ensures Classify(t) == Param("...xs", Optional)
  {
    var w := "...xs";
    assert IndexOf(t, '=') == 6 by {
      assert t[6] == '=' && '=' !in t[..6];
      IndexOfAt(t, '=', 6);
    }
    assert Trim(t[..6]) == w by {
      assert t[..6] == w + " ";
      assert |w| > 0 && !IsSpace(w[0]) && !IsSpace(w[|w| - 1]);
      TrimTrailingSpace(w);
    }
    ClassifyName(t);
  }

  // ---------------------------------------------------------------------
  // Filling the parameters object
  // ---------------------------------------------------------------------

  /** Two parameters with different names keep both keys, in order. */
  lemma CollectTwo(p: Param, q: Param)
    requires p.name != q.name && p.name != "__proto__" && q.name != "__proto__"
    ensures Collect([p, q]) == [p, q]
  {
    var r := Collect([p, q]);
    NamesTwo(p, q);
    FirstTwo(p.name, q.name);
    assert |r| == |Keys(r)| == 2;
    LastTwo(p, q);
    CollectAt([p, q], 0);
    CollectAt([p, q], 1);
    assert r[0] == p && r[1] == q;
  }

  lemma NamesTwo(p: Param, q: Param)
    ensures Names([p, q]) == [p.name, q.name]
  {
  }

  lemma FirstTwo(a: string, b: string)
    requires a != b && a != "__proto__" && b != "__proto__"
    ensures FirstOccurrences([a, b]) == [a, b]
  {
    assert [a, b][..1] == [a];
    assert [a][..0] == [];
    assert FirstOccurrences([a]) == [a];
  }

  lemma LastTwo(p: Param, q: Param)
    requires p.name != q.name && p.name != "__proto__" && q.name != "__proto__"
    ensures LastTag([p, q], p.name) == Some(p.tag)
    ensures LastTag([p, q], q.name) == Some(q.tag)
  {
    assert [p, q][..1] == [p];
  }

  /** A later parameter of the same name overwrites the tag but not the position. */
  lemma CollectDuplicate(p: Param, q: Param)
    requires p.name == q.name && p.name != "__proto__"
    ensures Collect([p, q]) == [q]
  {
    var r := Collect([p, q]);
    NamesTwo(p, q);
    assert FirstOccurrences([p.name, q.name]) == [p.name] by {
      assert [p.name, q.name][..1] == [p.name];
      assert [p.name][..0] == [];
      assert FirstOccurrences([p.name]) == [p.name];
    }
    assert |r| == |Keys(r)| == 1;
    assert LastTag([p, q], q.name) == Some(q.tag);
    CollectAt([p, q], 0);
    assert r[0] == q;
  }

  // ---------------------------------------------------------------------
  // function add(a, b = 1) { return a + b; }
  // ---------------------------------------------------------------------

  /** One required and one optional parameter, in declaration order. */
  lemma AddParameters(source: string)
    requires source == "function add(a, b = 1) { return a + b; }"
    ensures ParametersOf(source) == [Param("a", Required), Param("b", Optional)]
  {
    AddTokens(source);
    ClassifyPlain("a");
    ClassifyDefault(" b = 1");
    ClassifiedTwo("a", " b = 1");
    CollectTwo(Param("a", Required), Param("b", Optional));
  }

  lemma ClassifiedTwo(x: string, y: string)
    ensures Classified([x, y]) == [Classify(x), Classify(y)]
  {
    var c := Classified([x, y]);
    assert |c| == 2;
    assert c[0] == Classify([x, y][0]) && c[1] == Classify([x, y][1]);
    PairOf(c, Classify(x), Classify(y));
  }

  lemma PairOf(c: seq<Param>, a: Param, b: Param)
    requires |c| == 2 && c[0] == a && c[1] == b
    ensures c == [a, b]
  {
  }

  lemma AddTokens(source: string)
    requires source == "function add(a, b = 1) { return a + b; }"
    ensures Tokens(source) == ["a", " b = 1"]
  {
    AddText(source, "function add", "a, b = 1", " { return a + b; }");
    SplitAdd("a, b = 1");
  }

  lemma AddText(source: string, head: string, text: string, tail: string)
    requires source == "function add(a, b = 1) { return a + b; }"
    requires head == "function add" && text == "a, b = 1" && tail == " { return a + b; }"
    ensures ParameterText(source) == text
  {
    AddSourceParts();
    AddNoBrackets(head, text);
    ParameterTextBetween(head, text, tail);
  }

  lemma AddSourceParts()
    ensures "function add(a, b = 1) { return a + b; }" == "function add" + "(" + "a, b = 1" + ")" + " { return a + b; }"
  {
    assert "function add" + "(" + "a, b = 1" + ")" == "function add(a, b = 1)";
  }

  lemma AddNoBrackets(head: string, text: string)
    requires head == "function add" && text == "a, b = 1"
    ensures '(' !in head && ')' !in head && '(' !in text && ')' !in text
  {
  }

  lemma SplitAdd(text: string)
    requires text == "a, b = 1"
    ensures Split(text, ',') == ["a", " b = 1"]
  {
    var parts := ["a", " b = 1"];
    JoinCons("a", [" b = 1"], ',');
    assert Join(parts, ',') == text;
    assert Separated(parts, ',');
    SplitJoin(parts, ',');
  }
}

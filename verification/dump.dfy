/**
 * The dumper itself: dump_value, dump_object, dump_array, dump_function and
 * get_indentation. Each step takes the session (output buffer and stack) and
 * returns it updated, as the JavaScript functions mutate `result`.
 */
module Dump {

  import opened Wrappers
  import opened Strings
  import opened Values
  import opened Parameters

  /** get_indentation: the indentation unit repeated `times` times. */
  function Indentation(cfg: Config, times: nat): (r: string)
    ensures |r| == times * |cfg.indentation|
  {
    Repeat(cfg.indentation, times)
  }

  /** `string(<length>) "<text>"`, the length in UTF-16 code units, the text raw. */
  function StringText(s: string): string
  {
    "string(" + NatText(Utf16Length(s)) + ") \"" + s + "\""
  }

  /**
   * A string dump opens with `string(`, then the decimal UTF-16 length and
   * `) "`, and ends with the text itself, unescaped, and `"`.
   */
  lemma StringTextShape(s: string)
    ensures var r, d := StringText(s), NatText(Utf16Length(s));
      && |r| == 7 + |d| + 3 + |s| + 1
      && r[..7] == "string("
      && r[7..7 + |d|] == d
      && r[7 + |d|..7 + |d| + 3] == ") \""
      && r[|r| - |s| - 1..] == s + "\""
  {
    var d := NatText(Utf16Length(s));
    assert StringText(s) == "string(" + d + ") \"" + s + "\"";
    FiveParts("string(", d, ") \"", s, "\"");
  }

  /** Where each part of `a + d + b + s + q` sits, for the lengths a string dump has. */
  lemma FiveParts(a: string, d: string, b: string, s: string, q: string)
    requires |a| == 7 && |b| == 3 && |q| == 1
    ensures var r := a + d + b + s + q;
      && |r| == 7 + |d| + 3 + |s| + 1
      && r[..7] == a && r[7..7 + |d|] == d && r[7 + |d|..7 + |d| + 3] == b
      && r[|r| - |s| - 1..] == s + q
  {
  }

  /**
   * The text dump_value appends for a value it prints directly. Booleans,
   * numbers, bigints and strings open with their `typeof` name and `(`;
   * `undefined` prints as its own name.
   */
  function Primitive(v: Value): string
    requires IsPrimitive(v)
  {
    if v.Boolean? then "boolean(" + (if v.b then "true" else "false") + ")"
    else if v.Number? then "number(" + IntText(v.n) + ")"
    else if v.BigInt? then "bigint(" + IntText(v.n) + ")"
    else if v.Str? then StringText(v.s)
    else if v.Symbol? then "Symbol(" + v.description + ")"
    else "undefined"
  }

  /**
   * Booleans, numbers, bigints and strings open with their `typeof` name
   * and `(`; every other primitive text but `undefined` ends with `)`, and
   * `undefined` prints as its own type name.
   */
  lemma PrimitiveShape(v: Value)
    requires IsPrimitive(v)
    ensures var r := Primitive(v);
      && (v.Boolean? || v.Number? || v.BigInt? || v.Str? ==>
           |r| > |TypeOf(v)| && r[..|TypeOf(v)| + 1] == TypeOf(v) + "(")
      && (v.Undefined? ==> r == TypeOf(v))
      && (!v.Str? && !v.Undefined? ==> |r| > 0 && r[|r| - 1] == ')')
  {
    if v.Str? {
      StringTextShape(v.s);
    }
  }

  /** The constructor's name when it is a non-empty function name, else `@anonymous`. */
  function ObjectName(ctor: Option<string>): (name: string)
    ensures |name| > 0
    ensures name == "@anonymous" || ctor == Some(name)
    ensures ctor.Some? && |ctor.value| > 0 ==> name == ctor.value
  {
    if ctor.Some? && |ctor.value| > 0 then ctor.value else "@anonymous"
  }

  function ObjectHeader(name: string, count: nat): string
  {
    "object(" + name + ") (" + NatText(count) + ") {"
  }

  function ArrayHeader(length: nat): string
  {
    "array(" + NatText(length) + ") {"
  }

  /** What precedes the value of array element `i`. */
  function ElementPrefix(cfg: Config, depth: nat, i: nat): string
  {
    Indentation(cfg, depth + 1) + "[" + NatText(i) + "] => "
  }

  /** What precedes the value of property `key`. */
  function EntryPrefix(cfg: Config, depth: nat, key: string): string
  {
    Indentation(cfg, depth + 1) + "[\"" + key + "\"] => "
  }

  function Closing(cfg: Config, depth: nat): string
  {
    Indentation(cfg, depth) + "}"
  }

  // ---------------------------------------------------------------------
  // The recursive dumper. Termination: pushing a heap object that is not on
  // the stack shrinks the set of unvisited objects; between pushes the rank
  // (second component) and the loop index (third) go down.
  // ---------------------------------------------------------------------

  /** dump_value: dispatch on the kind of the value. */
  function DumpValue(h: Heap, v: Value, s: Session, depth: nat, cfg: Config): (r: Session)
    requires Closed(h) && ValueIn(h, v)
    ensures r.stack == s.stack
    ensures s.out <= r.out
    decreases Unvisited(h, s.stack), 3, 0
  {
    if v.Function? then DumpFunction(v, s, depth, cfg)
    else if v.Null? || v.Obj? then DumpObject(h, v, s, depth, cfg)
    else Append(s, Primitive(v))
  }

  /** dump_object: the checks in source order, then the object's own keys. */
  function DumpObject(h: Heap, v: Value, s: Session, depth: nat, cfg: Config): (r: Session)
    requires Closed(h) && (v.Null? || (v.Obj? && v.r in h))
    ensures r.stack == s.stack
    ensures s.out <= r.out
    decreases Unvisited(h, s.stack), 2, 0
  {
    if v.Obj? && v.r in s.stack then Append(s, "*RECURSION*")
    else if v.Null? then Append(s, "NULL")
    else if h[v.r].ArrayNode? then DumpArray(h, v.r, s, depth, cfg)
    else
      var node := h[v.r];
      if !cfg.allowWindowDump && node.isWindow then Append(s, "object(window)")
      else if node.element.Some? then Append(s, "HTMLElement(" + node.element.value + ")")
      else
        var s1 := Push(s, v.r);
        PushShrinks(h, s.stack, v.r);
        var s2 := AppendLine(s1, ObjectHeader(ObjectName(node.ctor), |node.entries|));
        var s3 := if node.hasOwnProperty then DumpEntries(h, v.r, 0, s2, depth, cfg) else s2;
        assert s.out <= s3.out by {
          PrefixOfAppend(s.out, ObjectHeader(ObjectName(node.ctor), |node.entries|) + "\n", s3.out);
        }
        assert s3.stack[..|s.stack|] == s.stack;
        Append(Pop(s3), Closing(cfg, depth))
  }

  /** dump_array: its own recursion check, then the elements in index order. */
  function DumpArray(h: Heap, r: Ref, s: Session, depth: nat, cfg: Config): (res: Session)
    requires Closed(h) && r in h && h[r].ArrayNode?
    ensures res.stack == s.stack
    ensures s.out <= res.out
    decreases Unvisited(h, s.stack), 1, 0
  {
    if r in s.stack then Append(s, "*RECURSION*")
    else
      var s1 := AppendLine(s, ArrayHeader(|h[r].elems|));
      var s2 := Push(s1, r);
      PushShrinks(h, s.stack, r);
      var s3 := DumpElements(h, r, 0, s2, depth, cfg);
      assert s.out <= s3.out by {
        PrefixOfAppend(s.out, ArrayHeader(|h[r].elems|) + "\n", s3.out);
      }
      assert s3.stack[..|s.stack|] == s.stack;
      Append(Pop(s3), Closing(cfg, depth))
  }

  /** Whatever extends `a + b` extends `a`. */
  lemma PrefixOfAppend(a: string, b: string, c: string)
    requires a + b <= c
    ensures a <= c
  {
    assert c[..|a|] == (a + b)[..|a|];
  }

  /** The loop of dump_array from element `i` on. */
  function DumpElements(h: Heap, r: Ref, i: nat, s: Session, depth: nat, cfg: Config): (res: Session)
    requires Closed(h) && r in h && h[r].ArrayNode? && i <= |h[r].elems|
    ensures res.stack == s.stack
    ensures s.out <= res.out
    decreases Unvisited(h, s.stack), 4, |h[r].elems| - i
  {
    if i == |h[r].elems| then s
    else
      var s1 := Append(s, ElementPrefix(cfg, depth, i));
      var s2 := DumpValue(h, h[r].elems[i], s1, depth + 1, cfg);
      DumpElements(h, r, i + 1, Newline(s2), depth, cfg)
  }

  /**
   * The loop of dump_object from key `i` on. A read that throws leaves the
   * prefix already written and adds nothing more for that key.
   */
  function DumpEntries(h: Heap, r: Ref, i: nat, s: Session, depth: nat, cfg: Config): (res: Session)
    requires Closed(h) && r in h && h[r].ObjectNode? && i <= |h[r].entries|
    ensures res.stack == s.stack
    ensures s.out <= res.out
    decreases Unvisited(h, s.stack), 4, |h[r].entries| - i
  {
    if i == |h[r].entries| then s
    else
      var e := h[r].entries[i];
      var s1 := Append(s, EntryPrefix(cfg, depth, e.key));
      var s2 := if e.read.Threw? then s1 else Newline(DumpValue(h, e.read.value, s1, depth + 1, cfg));
      assert s.out <= s2.out by {
        PrefixOfAppend(s.out, EntryPrefix(cfg, depth, e.key), s2.out);
      }
      DumpEntries(h, r, i + 1, s2, depth, cfg)
  }

  // ---------------------------------------------------------------------
  // Functions
  // ---------------------------------------------------------------------

  /** The function's name, or `(anonymous)` when it has none. */
  function DisplayName(name: string): (r: string)
    ensures |r| > 0
    ensures r == name || r == "(anonymous)"
    ensures |name| > 0 ==> r == name
  {
    if |name| > 0 then name else "(anonymous)"
  }

  /**
   * dump_function. The parameters object is a fresh `{}`, so the recursion
   * check cannot match it and nothing read while it is on the stack looks
   * at the stack; its dump is ParametersText.
   */
  function DumpFunction(v: Value, s: Session, depth: nat, cfg: Config): (r: Session)
    requires v.Function?
    ensures r.stack == s.stack
    ensures s.out <= r.out
  {
    var args := Tokens(v.source);
    var attrIndent := Indentation(cfg, depth + 1);
    var s1 := AppendLine(s, "function {");
    var s2 := Append(s1, attrIndent + "[name] => ");
    var s3 := Append(s2, Primitive(Str(DisplayName(v.name))));
    var s4 :=
      if |args| > 0 then
        var t := Append(Newline(s3), attrIndent + "[parameters] => ");
        Append(t, ParametersText(Collect(Classified(args)), depth + 1, cfg))
      else s3;
    Append(Newline(s4), Closing(cfg, depth))
  }

  /** dump_object on the parameters object at the given depth. */
  function ParametersText(ps: seq<Param>, depth: nat, cfg: Config): string
  {
    var node := ParametersNode(ps);
    ObjectHeader(ObjectName(node.ctor), |node.entries|) + "\n"
    + (if node.hasOwnProperty then ParameterLines(ps, 0, depth, cfg) else "")
    + Closing(cfg, depth)
  }

  /** One line per parameter from index `i` on: key, then its tag as a string dump. */
  function ParameterLines(ps: seq<Param>, i: nat, depth: nat, cfg: Config): string
    decreases |ps| - i
  {
    if i >= |ps| then ""
    else EntryPrefix(cfg, depth, ps[i].name) + Primitive(Str(TagText(ps[i].tag))) + "\n"
         + ParameterLines(ps, i + 1, depth, cfg)
  }
}

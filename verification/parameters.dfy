/**
 * How dump_function describes a function's parameters: it cuts the
 * declaration text between the first `(` and the first `)`, splits that on
 * `,`, tags each piece `<required>` or `<optional>` and stores the tags in
 * a fresh object keyed by the trimmed parameter names.
 */
module Parameters {

  import opened Wrappers
  import opened Strings
  import opened Values

  datatype Tag = Required | Optional

  /** The string stored for a tag. */
  function TagText(t: Tag): string
  {
    match t
    case Required => "<required>"
    case Optional => "<optional>"
  }

  /** One property of the parameters object: a parameter name and its tag. */
  datatype Param = Param(name: string, tag: Tag)

  /**
   * `body.slice(body.indexOf('(') + 1, body.indexOf(')'))`: the text between
   * the first `(` and the first `)`, with JavaScript's handling of a missing
   * bracket (-1 as an end position drops the last character).
   */
  function ParameterText(source: string): (r: string)
    ensures var open, close := IndexOf(source, '('), IndexOf(source, ')');
      0 <= open < close ==> r == source[open + 1..close]
  {
    Slice(source, IndexOf(source, '(') + 1, IndexOf(source, ')'))
  }

  /**
   * The other cases of the slice: brackets in the wrong order give nothing;
   * without `(` the text runs from the start to `)`; without `)` the end
   * position -1 cuts the text one short of the end.
   */
  lemma ParameterTextCases(source: string)
    ensures var open, close := IndexOf(source, '('), IndexOf(source, ')');
      && (0 <= close < open ==> ParameterText(source) == "")
      && (open == -1 && close >= 0 ==> ParameterText(source) == source[..close])
      && (close == -1 && open + 1 < |source| ==> ParameterText(source) == source[open + 1..|source| - 1])
      && (close == -1 && open + 1 >= |source| - 1 ==> ParameterText(source) == "")
  {
    var open, close := IndexOf(source, '('), IndexOf(source, ')');
    assert ParameterText(source) == Slice(source, open + 1, close);
    if open == -1 && close >= 0 {
      assert source[0..close] == source[..close];
    } else if close == -1 {
      SliceToMinusOne(source, open + 1);
    }
  }

  /** `s.slice(a, -1)`: everything from `a` but the last character. */
  lemma SliceToMinusOne(s: string, a: nat)
    requires a <= |s|
    ensures a < |s| ==> Slice(s, a, -1) == s[a..|s| - 1]
    ensures a >= |s| - 1 ==> Slice(s, a, -1) == ""
  {
  }

  /**
   * For a declaration `head(text)tail` whose head and parameter text hold
   * no bracket, the parameter text is exactly `text`, whatever the tail.
   */
  lemma ParameterTextBetween(head: string, text: string, tail: string)
    requires '(' !in head && ')' !in head && '(' !in text && ')' !in text
    ensures ParameterText(head + "(" + text + ")" + tail) == text
  {
    var s := head + "(" + text + ")" + tail;
    assert s[..|head|] == head;
    IndexOfAt(s, '(', |head|);
    var close := |head| + 1 + |text|;
    assert s[..close] == head + "(" + text;
    assert forall x | x in head + "(" + text :: x in head || x == '(' || x in text;
    IndexOfAt(s, ')', close);
    assert s[|head| + 1..close] == text;
  }

  /** The raw parameter pieces: `ParameterText(source).split(',')`. */
  function Tokens(source: string): (r: seq<string>)
    ensures |r| >= 1
    ensures Join(r, ',') == ParameterText(source)
  {
    Split(ParameterText(source), ',')
  }

  /**
   * Classifies one piece: with a `=` it is optional and named by the text
   * before the first `=`; otherwise with a `...` it is optional and named by
   * the text after the first `...`; otherwise it is required and named by
   * the whole piece. Names are trimmed.
   */
  function Classify(token: string): (p: Param)
    ensures p.tag == Optional <==> ('=' in token || Find(token, "...") != -1)
    ensures '=' !in p.name && Trim(p.name) == p.name
  {
    if IndexOf(token, '=') != -1 then
      var before := Split(token, '=')[0];
      TrimIdempotent(before);
      TrimKeepsOut(before, '=');
      Param(Trim(before), Optional)
    else
      var e := Find(token, "...");
      var rest := if e != -1 then token[e + 3..] else token;
      TrimIdempotent(rest);
      TrimKeepsOut(rest, '=');
      Param(Trim(rest), if e != -1 then Optional else Required)
  }

  /** The name Classify gives each of the three kinds of piece. */
  lemma ClassifyName(token: string)
    ensures '=' in token ==> Classify(token).name == Trim(token[..IndexOf(token, '=')])
    ensures '=' !in token && Find(token, "...") != -1 ==> Classify(token).name == Trim(token[Find(token, "...") + 3..])
    ensures '=' !in token && Find(token, "...") == -1 ==> Classify(token).name == Trim(token)
  {
    SplitFirst(token, '=');
  }

  /** Trimming never brings in a character that was not there. */
  lemma TrimKeepsOut(s: string, c: char)
    requires c !in s
    ensures c !in Trim(s)
  {
    TrimSlice(s);
  }

  // ---------------------------------------------------------------------
  // The parameters object
  // ---------------------------------------------------------------------

  /** The own keys of the object are distinct. */
  predicate DistinctNames(ps: seq<Param>)
  {
    forall i, j | 0 <= i < j < |ps| :: ps[i].name != ps[j].name
  }

  /** The own keys, in order. */
  function Keys(ps: seq<Param>): seq<string>
  {
    seq(|ps|, i requires 0 <= i < |ps| => ps[i].name)
  }

  /** `obj[name]` for an own key: the tag stored there, if any. */
  function Lookup(ps: seq<Param>, name: string): Option<Tag>
  {
    if |ps| == 0 then None
    else if ps[0].name == name then Some(ps[0].tag)
    else Lookup(ps[1..], name)
  }

  /** Storing into an own key: a new key goes last, an existing one keeps its place. */
  function Put(ps: seq<Param>, p: Param): (r: seq<Param>)
    ensures Lookup(ps, p.name).Some? ==> Keys(r) == Keys(ps)
    ensures Lookup(ps, p.name).None? ==> r == ps + [p]
  {
    if |ps| == 0 then [p]
    else if ps[0].name == p.name then
      assert Keys([p] + ps[1..]) == Keys(ps);
      [p] + ps[1..]
    else
      var rest := Put(ps[1..], p);
      assert Keys([ps[0]] + rest) == [ps[0].name] + Keys(rest);
      assert Keys(ps) == [ps[0].name] + Keys(ps[1..]);
      assert Lookup(ps, p.name).None? ==> ps == [ps[0]] + ps[1..];
      [ps[0]] + rest
  }

  /** After a Put the name holds the new tag and every other name holds what it held. */
  lemma {:induction false} PutLookup(ps: seq<Param>, p: Param, n: string)
    ensures Lookup(Put(ps, p), n) == if n == p.name then Some(p.tag) else Lookup(ps, n)
  {
    if |ps| > 0 && ps[0].name != p.name {
      PutLookup(ps[1..], p, n);
      assert ([ps[0]] + Put(ps[1..], p))[1..] == Put(ps[1..], p);
    }
  }

  /** Put keeps the keys distinct. */
  lemma PutDistinct(ps: seq<Param>, p: Param)
    requires DistinctNames(ps)
    ensures DistinctNames(Put(ps, p))
  {
    var r := Put(ps, p);
    KeyInLookup(ps, p.name);
    if Lookup(ps, p.name).Some? {
      assert forall k | 0 <= k < |r| :: r[k].name == Keys(r)[k] == Keys(ps)[k] == ps[k].name;
    } else {
      assert forall k | 0 <= k < |ps| :: ps[k].name == Keys(ps)[k];
    }
  }

  /**
   * `parameters[p.name] = tag`. Assigning a string to `__proto__` goes to
   * the inherited setter, which ignores non-objects, so no key appears.
   */
  function Assign(ps: seq<Param>, p: Param): (r: seq<Param>)
    requires DistinctNames(ps)
    ensures DistinctNames(r)
  {
    if p.name == "__proto__" then ps else PutDistinct(ps, p); Put(ps, p)
  }

  /** The tag of the last parameter with this name; `__proto__` is never stored. */
  function LastTag(params: seq<Param>, name: string): Option<Tag>
  {
    if name == "__proto__" || |params| == 0 then None
    else if params[|params| - 1].name == name then Some(params[|params| - 1].tag)
    else LastTag(params[..|params| - 1], name)
  }

  /** The names in order of first appearance, without repeats and without `__proto__`. */
  function FirstOccurrences(names: seq<string>): seq<string>
  {
    if |names| == 0 then []
    else
      var earlier := FirstOccurrences(names[..|names| - 1]);
      var n := names[|names| - 1];
      if n == "__proto__" || n in earlier then earlier else earlier + [n]
  }

  /** The names of classified parameters, in declaration order. */
  function Names(params: seq<Param>): seq<string>
  {
    seq(|params|, i requires 0 <= i < |params| => params[i].name)
  }

  /**
   * The loop that fills the parameters object. Each name maps to the tag of
   * its last occurrence; keys keep the order in which they first appeared.
   */
  function Collect(params: seq<Param>): (r: seq<Param>)
    ensures DistinctNames(r)
    ensures forall n :: Lookup(r, n) == LastTag(params, n)
    ensures Keys(r) == FirstOccurrences(Names(params))
    decreases |params|
  {
    if |params| == 0 then []
    else
      var init, p := params[..|params| - 1], params[|params| - 1];
      var earlier := Collect(init);
      var r := Assign(earlier, p);
      assert forall n :: Lookup(r, n) == LastTag(params, n) by {
        forall n
          ensures Lookup(r, n) == LastTag(params, n)
        {
          if p.name != "__proto__" {
            PutLookup(earlier, p, n);
          }
          assert Lookup(earlier, n) == LastTag(init, n);
        }
      }
      assert Names(params) == Names(init) + [p.name];
      KeyInLookup(earlier, p.name);
      assert Lookup(earlier, p.name).None? && p.name != "__proto__" ==> Keys(r) == Keys(earlier) + [p.name];
      r
  }

  /** A name is a key exactly when looking it up finds a tag. */
  lemma KeyInLookup(ps: seq<Param>, n: string)
    ensures n in Keys(ps) <==> Lookup(ps, n).Some?
  {
    if |ps| > 0 {
      KeyInLookup(ps[1..], n);
      assert Keys(ps) == [ps[0].name] + Keys(ps[1..]);
    }
  }

  /** Each stored parameter is what looking up its own name finds. */
  lemma {:induction false} LookupAt(ps: seq<Param>, i: nat)
    requires DistinctNames(ps) && i < |ps|
    ensures Lookup(ps, ps[i].name) == Some(ps[i].tag)
  {
    if i > 0 {
      assert ps[0].name != ps[i].name;
      assert DistinctNames(ps[1..]) by {
        forall a, b | 0 <= a < b < |ps| - 1
          ensures ps[1..][a].name != ps[1..][b].name
        {
          assert ps[1..][a] == ps[a + 1] && ps[1..][b] == ps[b + 1];
        }
      }
      LookupAt(ps[1..], i - 1);
      assert ps[1..][i - 1] == ps[i];
    }
  }

  /**
   * The parameters object is determined by its keys and what each holds:
   * position i holds key i with the tag its last declaration gave it.
   */
  lemma CollectAt(params: seq<Param>, i: nat)
    requires i < |Collect(params)|
    ensures Collect(params)[i].name == FirstOccurrences(Names(params))[i]
    ensures LastTag(params, Collect(params)[i].name) == Some(Collect(params)[i].tag)
  {
    var r := Collect(params);
    LookupAt(r, i);
    assert Keys(r)[i] == r[i].name;
  }

  /** Every piece classified, in order. */
  function Classified(tokens: seq<string>): (r: seq<Param>)
    ensures |r| == |tokens|
  {
    seq(|tokens|, i requires 0 <= i < |tokens| => Classify(tokens[i]))
  }

  /** The parameters object dump_function builds for a declaration text. */
  function ParametersOf(source: string): seq<Param>
  {
    Collect(Classified(Tokens(source)))
  }

  /**
   * A declaration with nothing but white space between the brackets still
   * gets one parameter: the empty name, required.
   */
  lemma {:induction false} BlankParameterText(source: string)
    requires AllSpace(ParameterText(source))
    ensures ParametersOf(source) == [Param("", Required)]
  {
    BlankText(ParameterText(source));
  }

  lemma BlankText(text: string)
    requires AllSpace(text)
    ensures Collect(Classified(Split(text, ','))) == [Param("", Required)]
  {
    SpacesSplit(text);
    SpacesClassify(text);
    var params := Classified([text]);
    assert params == [Param("", Required)];
    CollectSingle(Param("", Required));
  }

  lemma SpacesSplit(text: string)
    requires AllSpace(text)
    ensures Split(text, ',') == [text]
  {
    NotInSpaces(text, ',');
    SplitFirst(text, ',');
  }

  lemma SpacesClassify(text: string)
    requires AllSpace(text)
    ensures Classify(text) == Param("", Required)
  {
    NotInSpaces(text, '=');
    NoDotsInSpaces(text);
    TrimAllSpace(text);
  }

  lemma CollectSingle(p: Param)
    requires p.name != "__proto__"
    ensures Collect([p]) == [p]
  {
    assert [p][..0] == [];
    assert Collect([]) == [];
    assert Collect([p]) == Assign([], p);
  }

  lemma NotInSpaces(s: string, c: char)
    requires AllSpace(s) && !IsSpace(c)
    ensures c !in s
  {
  }

  lemma NoDotsInSpaces(s: string)
    requires AllSpace(s)
    ensures Find(s, "...") == -1
  {
    var e := Find(s, "...");
    if e != -1 {
      OccursAtFirst(s, "...", e);
      assert false;
    }
  }

  lemma OccursAtFirst(s: string, pat: string, i: nat)
    requires OccursAt(s, pat, i) && |pat| > 0
    ensures s[i] == pat[0]
  {
    assert s[i..i + |pat|][0] == s[i];
  }

  /**
   * The fresh `{}` after the loop, as the heap would hold it. Its
   * constructor is `Object` unless a parameter named `constructor` shadows
   * it with a string; `hasOwnProperty` stays a function unless a parameter
   * of that name shadows it. Every read returns the stored tag string.
   */
  function ParametersNode(ps: seq<Param>): (n: Node)
    ensures n.ObjectNode? && |n.entries| == |ps|
    ensures n.ctor.Some? <==> "constructor" !in Keys(ps)
    ensures "constructor" !in Keys(ps) ==> n.ctor == Some("Object")
    ensures n.hasOwnProperty <==> "hasOwnProperty" !in Keys(ps)
  {
    ObjectNode(
      if "constructor" in Keys(ps) then None else Some("Object"),
      seq(|ps|, i requires 0 <= i < |ps| => Entry(ps[i].name, Returned(Str(TagText(ps[i].tag))))),
      "hasOwnProperty" !in Keys(ps),
      false,
      None)
  }
}

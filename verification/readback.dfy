/**
 * The text dump_value writes for a primitive determines the primitive: a
 * reader that recognises each form gets the value back. In particular a
 * string's length prefix, counted in UTF-16 code units, marks where its raw
 * text ends even when the text itself holds quotes or brackets.
 */
module Readback {

  import opened Wrappers
  import opened Strings
  import opened Values
  import opened Dump

  predicate StartsWith(s: string, p: string)
  {
    |p| <= |s| && s[..|p|] == p
  }

  /** Reads the part of a string dump after `string(`: the length, `) "`, the text, `"`. */
  function ReadString(u: string): Option<Value>
  {
    var k := IndexOf(u, ')');
    if k < 0 || !AllDigits(u[..k]) then None
    else
      var n := DigitsValue(u[..k]);
      var rest := u[k + 1..];
      if !StartsWith(rest, " \"") then None
      else
        var body := rest[2..];
        var s := TakeUnits(body, n);
        if body == s + "\"" && NatText(Utf16Length(s)) == u[..k] then Some(Str(s)) else None
  }

  /**
   * The inverse of Primitive on the texts it produces, None on anything
   * else: the kind is the text before the first `(`.
   */
  function ReadPrimitive(t: string): (r: Option<Value>)
    ensures r.Some? ==> IsPrimitive(r.value)
  {
    var k := IndexOf(t, '(');
    if k < 0 then (if t == "undefined" then Some(Undefined) else None)
    else
      var kind, rest := t[..k], t[k + 1..];
      if kind == "string" then ReadString(rest)
      else if |rest| == 0 || rest[|rest| - 1] != ')' then None
      else ReadWrapped(kind, rest[..|rest| - 1])
  }

  /** The kinds printed as `kind(inner)`. */
  function ReadWrapped(kind: string, inner: string): (r: Option<Value>)
    ensures r.Some? ==> IsPrimitive(r.value)
  {
    if kind == "boolean" then
      if inner == "true" then Some(Boolean(true))
      else if inner == "false" then Some(Boolean(false))
      else None
    else if kind == "number" then
      match ReadInt(inner)
      case Some(n) => Some(Number(n))
      case None => None
    else if kind == "bigint" then
      match ReadInt(inner)
      case Some(n) => Some(BigInt(n))
      case None => None
    else if kind == "Symbol" then Some(Symbol(inner))
    else None
  }

  /** Each primitive's dump reads back as that primitive. */
  lemma PrimitiveRoundTrip(v: Value)
    requires IsPrimitive(v)
    ensures ReadPrimitive(Primitive(v)) == Some(v)
  {
    match v
    case Boolean(b) => BooleanRoundTrip(b);
    case Str(s) => StringRoundTrip(s);
    case Number(n) => NumberRoundTrip(n);
    case BigInt(n) => BigIntRoundTrip(n);
    case Symbol(d) => SymbolRoundTrip(d);
    case Undefined => UndefinedRoundTrip();
  }

  /** A text `kind(rest` splits at its first bracket when the kind has none. */
  lemma Opened(t: string, kind: string, rest: string)
    requires '(' !in kind && t == kind + "(" + rest
    ensures IndexOf(t, '(') == |kind| && t[..|kind|] == kind && t[|kind| + 1..] == rest
  {
    assert t[..|kind|] == kind;
    IndexOfAt(t, '(', |kind|);
  }

  /** A text `kind(inner)`: the kind, then the inner text before the final bracket. */
  lemma Wrapped(t: string, kind: string, inner: string)
    requires '(' !in kind && kind != "string" && t == kind + "(" + inner + ")"
    ensures ReadPrimitive(t) == ReadWrapped(kind, inner)
  {
    Opened(t, kind, inner + ")");
    assert (inner + ")")[..|inner|] == inner;
  }

  lemma BooleanRoundTrip(b: bool)
    ensures ReadPrimitive(Primitive(Boolean(b))) == Some(Boolean(b))
  {
    var inner := if b then "true" else "false";
    Wrapped(Primitive(Boolean(b)), "boolean", inner);
  }

  lemma NumberRoundTrip(n: int)
    ensures ReadPrimitive(Primitive(Number(n))) == Some(Number(n))
  {
    IntTextRoundTrip(n);
    Wrapped(Primitive(Number(n)), "number", IntText(n));
  }

  lemma BigIntRoundTrip(n: int)
    ensures ReadPrimitive(Primitive(BigInt(n))) == Some(BigInt(n))
  {
    IntTextRoundTrip(n);
    Wrapped(Primitive(BigInt(n)), "bigint", IntText(n));
  }

  lemma SymbolRoundTrip(d: string)
    ensures ReadPrimitive(Primitive(Symbol(d))) == Some(Symbol(d))
  {
    Wrapped(Primitive(Symbol(d)), "Symbol", d);
  }

  lemma UndefinedRoundTrip()
    ensures ReadPrimitive(Primitive(Undefined)) == Some(Undefined)
  {
    assert '(' !in "undefined";
  }

  lemma StringRoundTrip(s: string)
    ensures ReadPrimitive(Primitive(Str(s))) == Some(Str(s))
  {
    var digits := NatText(Utf16Length(s));
    var rest := digits + [')'] + " \"" + s + "\"";
    assert Primitive(Str(s)) == "string" + "(" + rest;
    Opened(Primitive(Str(s)), "string", rest);
    ReadStringOf(s);
  }

  lemma ReadStringOf(s: string)
    ensures ReadString(NatText(Utf16Length(s)) + [')'] + " \"" + s + "\"") == Some(Str(s))
  {
    var digits := NatText(Utf16Length(s));
    var u := digits + [')'] + " \"" + s + "\"";
    BracketAfterDigits(digits, " \"" + s + "\"");
    assert u == digits + [')'] + (" \"" + s + "\"");
    NatTextRoundTrip(Utf16Length(s));
    var rest := u[|digits| + 1..];
    assert rest == " \"" + s + "\"";
    assert StartsWith(rest, " \"");
    assert rest[2..] == s + "\"";
    TakeUnitsOfLength(s, "\"");
  }

  lemma BracketAfterDigits(digits: string, tail: string)
    requires AllDigits(digits)
    ensures IndexOf(digits + [')'] + tail, ')') == |digits|
    ensures (digits + [')'] + tail)[..|digits|] == digits
    ensures (digits + [')'] + tail)[|digits| + 1..] == tail
  {
    var u := digits + [')'] + tail;
    DigitsHaveNoBracket(digits);
    assert u[..|digits|] == digits;
    assert u[|digits|] == ')';
  }

  /** Different primitives never print the same text. */
  lemma PrimitiveInjective(v: Value, w: Value)
    requires IsPrimitive(v) && IsPrimitive(w) && Primitive(v) == Primitive(w)
    ensures v == w
  {
    PrimitiveRoundTrip(v);
    PrimitiveRoundTrip(w);
  }

  lemma DigitsHaveNoBracket(d: string)
    requires AllDigits(d)
    ensures ')' !in d
  {
  }
}

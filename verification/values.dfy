/**
 * The values the dumper inspects, the heap that gives objects their
 * identity, the configuration, and the dump session (output buffer and
 * cycle-tracking stack) of one top-level value.
 */
module Values {

  import opened Wrappers

  /** Identity of an object or array: its address in the heap. */
  type Ref = nat

  /**
   * A JavaScript value, by the kind `typeof` reports. Objects and arrays
   * (`typeof` "object") are references into the heap; `null` is its own
   * case. A function carries its `name` and its declaration text
   * (`toString()` with comments already stripped).
   */
  datatype Value =
    | Boolean(b: bool)
    | Number(n: int)
    | BigInt(n: int)
    | Str(s: string)
    | Symbol(description: string)
    | Function(name: string, source: string)
    | Null
    | Obj(r: Ref)
    | Undefined

  /** The kinds dump_value prints directly, without delegating. */
  predicate IsPrimitive(v: Value)
  {
    v.Boolean? || v.Number? || v.BigInt? || v.Str? || v.Symbol? || v.Undefined?
  }

  /**
   * `typeof v`. dump_value prints a value directly exactly when its type is
   * neither "function" nor "object".
   */
  function TypeOf(v: Value): (t: string)
    ensures IsPrimitive(v) <==> t != "function" && t != "object"
  {
    match v
    case Boolean(_) => "boolean"
    case Number(_) => "number"
    case BigInt(_) => "bigint"
    case Str(_) => "string"
    case Symbol(_) => "symbol"
    case Function(_, _) => "function"
    case Null => "object"
    case Obj(_) => "object"
    case Undefined => "undefined"
  }

  /** Reading a property: its value, or an exception from a getter. */
  datatype Read = Returned(value: Value) | Threw

  /** One own enumerable property, in `Object.keys` order. */
  datatype Entry = Entry(key: string, read: Read)

  /**
   * A heap cell. For an object:
   *   ctor            Some(name) when `value.constructor` is a function with that name
   *   entries         the own keys in `Object.keys` order, with how reading each goes
   *   hasOwnProperty  whether `value.hasOwnProperty` is a function
   *   isWindow        whether the value is the global `window`
   *   element         Some(nodeName) when the host says it is an HTML element
   */
  datatype Node =
    | ArrayNode(elems: seq<Value>)
    | ObjectNode(ctor: Option<string>, entries: seq<Entry>, hasOwnProperty: bool,
                 isWindow: bool, element: Option<string>)

  type Heap = map<Ref, Node>

  /** The two settings `var_dump.INDENTATION` and `var_dump.ALLOW_WINDOW_DUMP`. */
  datatype Config = Config(indentation: string, allowWindowDump: bool)

  /** The settings as the library ships them. */
  const Defaults := Config("    ", false)

  /** Every reference the value holds points into the heap. */
  predicate ValueIn(h: Heap, v: Value)
  {
    v.Obj? ==> v.r in h
  }

  predicate ReadIn(h: Heap, x: Read)
  {
    x.Returned? ==> ValueIn(h, x.value)
  }

  predicate NodeIn(h: Heap, n: Node)
  {
    match n
    case ArrayNode(elems) => forall i | 0 <= i < |elems| :: ValueIn(h, elems[i])
    case ObjectNode(_, entries, _, _, _) => forall i | 0 <= i < |entries| :: ReadIn(h, entries[i].read)
  }

  /** No dangling references: the heap is a finite object graph, cycles allowed. */
  predicate Closed(h: Heap)
  {
    forall r | r in h :: NodeIn(h, h[r])
  }

  /** The per-value state of var_dump: the output so far and the descent path. */
  datatype Session = Session(out: string, stack: seq<Ref>)

  /** A session with nothing written and nothing on the stack. */
  const Fresh := Session("", [])

  /** `result.dump.append(text)`. */
  function Append(s: Session, text: string): Session
  {
    s.(out := s.out + text)
  }

  /** `result.dump.appendLine(text)`. */
  function AppendLine(s: Session, text: string): Session
  {
    Append(s, text + "\n")
  }

  /** `result.dump.appendLine()`. */
  function Newline(s: Session): Session
  {
    Append(s, "\n")
  }

  /** `append` only extends the buffer, by exactly the text, and leaves the stack. */
  lemma AppendExtends(s: Session, text: string)
    ensures var t := Append(s, text);
      t.stack == s.stack && |t.out| == |s.out| + |text|
      && t.out[..|s.out|] == s.out && t.out[|s.out|..] == text
  {
  }

  /** `appendLine(v)` is `append(v)` followed by `append("\n")`. */
  lemma AppendLineIsTwoAppends(s: Session, text: string)
    ensures AppendLine(s, text) == Append(Append(s, text), "\n")
  {
    assert (s.out + text) + "\n" == s.out + (text + "\n");
  }

  /** `appendLine()` with no value adds only the line break, as `appendLine("")` does. */
  lemma NewlineIsEmptyLine(s: Session)
    ensures Newline(s) == AppendLine(s, "")
    ensures Newline(s).out[..|s.out|] == s.out && Newline(s).out[|s.out|..] == "\n"
  {
    assert "" + "\n" == "\n";
  }

  /** `result.stack.push(r)`: the output is untouched and a pop undoes it. */
  function Push(s: Session, r: Ref): (t: Session)
    ensures t.out == s.out && |t.stack| == |s.stack| + 1 && t.stack[|s.stack|] == r
    ensures Pop(t) == s
  {
    s.(stack := s.stack + [r])
  }

  /** `result.stack.pop()`: drops the last reference; no change when empty. */
  function Pop(s: Session): (t: Session)
    ensures t.out == s.out
    ensures |s.stack| == 0 ==> t == s
    ensures |s.stack| > 0 ==> t.stack + [s.stack[|s.stack| - 1]] == s.stack
  {
    if |s.stack| == 0 then s
    else
      var t := s.(stack := s.stack[..|s.stack| - 1]);
      assert t.stack + [s.stack[|s.stack| - 1]] == s.stack;
      t
  }

  /** Heap objects not on the descent path: the dumper's termination measure. */
  function Unvisited(h: Heap, stack: seq<Ref>): set<Ref>
  {
    set r | r in h && r !in stack
  }

  /** Pushing a heap object that is not yet on the path leaves strictly fewer to visit. */
  lemma PushShrinks(h: Heap, stack: seq<Ref>, r: Ref)
    requires r in h && r !in stack
    ensures Unvisited(h, stack + [r]) < Unvisited(h, stack)
  {
    assert r in Unvisited(h, stack);
    assert r !in Unvisited(h, stack + [r]);
  }
}

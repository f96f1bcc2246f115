/**
 * var_dump's own loop: every argument gets a fresh session (an empty
 * buffer and an empty stack), is dumped at depth 0, and the buffer's text
 * is what would be logged. The log itself is the sequence returned.
 */
module Driver {

  import opened Values
  import opened Dump
  import opened Render

  /** The line logged for each argument, in argument order. */
  method VarDump(h: Heap, args: seq<Value>, cfg: Config) returns (logged: seq<string>)
    requires Closed(h)
    requires forall i | 0 <= i < |args| :: ValueIn(h, args[i])
    ensures |logged| == |args|
    ensures forall i | 0 <= i < |args| :: logged[i] == RenderValue(h, args[i], [], 0, cfg)
  {
    logged := [];
    var i := 0;
    while i < |args|
      invariant 0 <= i <= |args|
      invariant |logged| == i
      invariant forall j | 0 <= j < i :: logged[j] == RenderValue(h, args[j], [], 0, cfg)
    {
      var line := DumpArgument(h, args[i], cfg);
      Extend(h, args, logged, line, cfg);
      logged := logged + [line];
      i := i + 1;
    }
  }

  /** One argument: a fresh buffer and stack, a dump at depth 0, the buffer's text. */
  method DumpArgument(h: Heap, v: Value, cfg: Config) returns (line: string)
    requires Closed(h) && ValueIn(h, v)
    ensures line == RenderValue(h, v, [], 0, cfg)
  {
    var result := DumpValue(h, v, Fresh, 0, cfg);
    ArgumentsIndependent(h, v, cfg);
    line := result.out;
  }

  /** Logging the next argument's line keeps every earlier line. */
  lemma Extend(h: Heap, args: seq<Value>, logged: seq<string>, line: string, cfg: Config)
    requires Closed(h) && |logged| < |args|
    requires forall j | 0 <= j < |args| :: ValueIn(h, args[j])
    requires forall j | 0 <= j < |logged| :: logged[j] == RenderValue(h, args[j], [], 0, cfg)
    requires line == RenderValue(h, args[|logged|], [], 0, cfg)
    ensures forall j | 0 <= j < |logged| + 1 :: (logged + [line])[j] == RenderValue(h, args[j], [], 0, cfg)
  {
    forall j | 0 <= j < |logged| + 1
      ensures (logged + [line])[j] == RenderValue(h, args[j], [], 0, cfg)
    {
      if j < |logged| {
        assert (logged + [line])[j] == logged[j];
      }
    }
  }

  /**
   * Arguments do not see each other: the line for an argument is the same
   * whatever comes before or after it in the call.
   */
  lemma ArgumentsIndependent(h: Heap, v: Value, cfg: Config)
    requires Closed(h) && ValueIn(h, v)
    ensures DumpValue(h, v, Fresh, 0, cfg).out == RenderValue(h, v, [], 0, cfg)
    ensures DumpValue(h, v, Fresh, 0, cfg).stack == []
  {
    ValueIsRender(h, v, Fresh, 0, cfg);
  }
}

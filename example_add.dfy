/** The add example: a traced `add` and a `main` that logs it. Clock readings are parameters. */
module ExampleAdd {
  import opened Dicts
  import opened Frames
  import opened Tracer
  import opened DemoStack

  /** `add(a, b)`: records its arguments and returns their sum. */
  method Add(a: int, b: int, callers: seq<Frame>, start: int, finish: int) returns (t: Trace)
    ensures t.builder.funcName == "add"
    ensures t.builder.attributes.entries == [("arg.a", Int(a)), ("arg.b", Int(b))]
    ensures t.returnValue == Int(a + b) && t.status == OK
    ensures t.builder.children == []
    ensures fresh(t) && fresh(t.builder) && fresh(t.builder.attributes)
  {
    PutAllNew([], [("arg.a", Int(a)), ("arg.b", Int(b))]);
    var attrs := new PyDict.FromPairs([("arg.a", Int(a)), ("arg.b", Int(b))]);
    var tb := new TraceBuilder(attrs, start, start, BuilderStack(Plain("add"), callers));
    t := tb.Bind(Int(a + b), finish);
  }

  /** `main()` of the add example: logs `add(3, 5)`, whose value is 8, and returns None. */
  method AddMain(callers: seq<Frame>, start: int, finish: int) returns (sum: Obj, t: Trace)
    ensures sum == Int(8)
    ensures t.builder.funcName == "main" && t.status == OK && t.returnValue == Nil
    ensures |t.builder.children| == 1
    ensures t.builder.children[0].builder.funcName == "add"
    ensures t.builder.children[0].builder.attributes.entries == [("arg.a", Int(3)), ("arg.b", Int(5))]
    ensures t.builder.children[0].builder.children == []
    ensures t.builder.attributes.entries == []
  {
    var tb := new TraceBuilder(null, start, start, BuilderStack(Plain("main"), callers));
    var child := Add(3, 5, [Plain("main")] + callers, start, finish);
    sum := tb.Log(child);
    t := tb.Bind(Nil, finish);
  }
}

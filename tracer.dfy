/**
 * The trace engine. A `TraceBuilder` accumulates one call's attributes,
 * the traces of the calls it made, and its start and end times; `Bind`
 * finalizes it into a `Trace` that carries the call's return value, its
 * status and its duration, and that renders as an eight-field record.
 * `SafeSerialize` is the fallback the JSON export uses for objects that are
 * not plain data.
 */
module Tracer {
  import opened Wrappers
  import opened Dicts
  import Frames
  import PyText

  /**
   * A Python object as the tracer meets it: plain data, a `result` value,
   * a trace, an object that exposes a `__dict__` of fields, or any other
   * object, known only by its `repr` text.
   */
  datatype Obj =
    | Nil                                          // None
    | Bool(b: bool)
    | Int(i: int)
    | Str(s: string)
    | List(items: seq<Obj>)
    | Dict(entries: Entries<Obj>)                   // a dict with string keys, in insertion order
    | Ok(okValue: Obj)                              // result.Ok
    | Err(errValue: Obj)                            // result.Err
    | TraceObj(trace: Trace)
    | Instance(fields: Entries<Obj>, debug: string)  // an object whose __dict__ is `fields`; `debug` is its repr
    | Opaque(debug: string)                         // an object without __dict__, with its repr

  datatype Status = OK | ERROR

  /** The status of a call that returned `v`. */
  function StatusOf(v: Obj): (s: Status)
    ensures s == ERROR <==> v.Err?
  {
    if v.Err? then ERROR else OK
  }

  /** The text the record shows for a status. */
  function StatusText(s: Status): (t: string)
    ensures t == "ERROR" <==> s == ERROR
  {
    match s
    case OK => "OK"
    case ERROR => "ERROR"
  }

  /** The keys of a trace's record, in rendering order. */
  const RecordKeys: seq<string> :=
    ["function_name", "status", "start_time", "end_time", "duration", "attributes", "return_value", "children"]

  /** Entries whose keys are the record's keys have distinct keys. */
  lemma RecordEntriesDistinct(es: Entries<Obj>)
    requires Keys(es) == RecordKeys
    ensures DistinctKeys(es)
  {
    forall i, j | 0 <= i < j < |es| ensures es[i].0 != es[j].0 {
      assert es[i].0 == RecordKeys[i] && es[j].0 == RecordKeys[j];
    }
  }

  /** The child traces as objects, in order. */
  function TraceObjs(cs: seq<Trace>): (os: seq<Obj>)
    ensures |os| == |cs|
    ensures forall i :: 0 <= i < |cs| ==> os[i] == TraceObj(cs[i])
  {
    seq(|cs|, i requires 0 <= i < |cs| => TraceObj(cs[i]))
  }

  /** Accumulates the metadata of a single function call. */
  class TraceBuilder {
    const funcName: string
    const attributes: PyDict<Obj>
    var children: seq<Trace>
    const startTime: int
    var endTime: int

    ghost predicate Valid()
      reads this, attributes
    {
      attributes.Valid()
    }

    /**
     * `TraceBuilder(attributes)`. `attrs == null` stands for no argument;
     * `start` and `end` are the two clock readings taken one after the
     * other, and `stack` is the call stack the naming helper sees.
     */
    constructor (attrs: PyDict?<Obj>, start: int, end: int, stack: seq<Frames.Frame>)
      requires attrs != null ==> attrs.Valid()
      ensures Valid()
      ensures attrs != null ==> attributes == attrs && attributes.entries == old(attrs.entries)
      ensures attrs == null ==> fresh(attributes) && attributes.entries == []
      ensures children == []
      ensures startTime == start && endTime == end
      ensures funcName == Frames.CallerName(stack)
      ensures |stack| < 3 ==> funcName == Frames.NotAvailable
    {
      if attrs == null {
        attributes := new PyDict.Empty();
      } else {
        attributes := attrs;
      }
      children := [];
      startTime := start;
      endTime := end;
      var name := Frames.GetFunctionName(stack);
      funcName := name;
    }

    /** Records the child trace `t` last and hands back its value. */
    method Log(t: Trace) returns (v: Obj)
      requires Valid()
      modifies this`children
      ensures Valid()
      ensures v == t.returnValue
      ensures children == old(children) + [t]
      ensures |children| == |old(children)| + 1 && children[..|old(children)|] == old(children)
      ensures endTime == old(endTime) && unchanged(attributes)
    {
      children := children + [t];
      v := t.Value();
    }

    /**
     * Stamps the end time with the clock reading `now` and finalizes the
     * builder with `value`. Nothing stops a second call: it stamps the end
     * time again and yields a second trace over the same builder.
     */
    method Bind(value: Obj, now: int) returns (t: Trace)
      requires Valid()
      modifies this`endTime
      ensures Valid()
      ensures endTime == now
      ensures children == old(children) && unchanged(attributes)
      ensures fresh(t) && t.builder == this && t.returnValue == value
      ensures t.duration == now - startTime
      ensures now >= startTime ==> t.duration >= 0
      ensures t.status == ERROR <==> value.Err?
    {
      endTime := now;
      t := new Trace(this, value);
    }

    /** `attributes[key] = value`. */
    method SetAttribute(key: string, value: Obj)
      requires Valid()
      modifies attributes
      ensures Valid()
      ensures attributes.entries == Put(old(attributes.entries), key, value)
      ensures Lookup(attributes.entries, key) == Some(value)
      ensures forall k :: k != key ==> Lookup(attributes.entries, k) == Lookup(old(attributes.entries), k)
      ensures Keys(attributes.entries) ==
        if key in Keys(old(attributes.entries)) then Keys(old(attributes.entries))
        else Keys(old(attributes.entries)) + [key]
      ensures children == old(children) && endTime == old(endTime)
    {
      ghost var before := attributes.entries;
      attributes.Set(key, value);
      PutKeys(before, key, value);
      forall k {
        PutLookup(before, key, value, k);
      }
    }
  }

  /**
   * A finished call: the builder it came from (by reference, so the record
   * shows the builder as it is when rendered), its return value, its status
   * and the duration fixed when it was made.
   */
  class Trace {
    const builder: TraceBuilder
    const returnValue: Obj
    const duration: int
    const status: Status := StatusOf(returnValue)

    constructor (b: TraceBuilder, v: Obj)
      ensures builder == b && returnValue == v
      ensures duration == b.endTime - b.startTime
    {
      builder := b;
      returnValue := v;
      duration := b.endTime - b.startTime;
    }

    /** The value the traced call returned. */
    function Value(): (v: Obj)
      ensures status == ERROR <==> v.Err?
    {
      returnValue
    }

    /** `dict()`: the eight-field record of this trace, keys in rendering order. */
    function ToDict(): (r: Obj)
      reads builder, builder.attributes
      ensures r.Dict? && Keys(r.entries) == RecordKeys
    {
      Dict([
        ("function_name", Str(builder.funcName)),
        ("status", Str(StatusText(status))),
        ("start_time", Int(builder.startTime)),
        ("end_time", Int(builder.endTime)),
        ("duration", Int(duration)),
        ("attributes", Dict(builder.attributes.entries)),
        ("return_value", returnValue),
        ("children", List(TraceObjs(builder.children)))
      ])
    }
  }

  /**
   * What each field of a trace's record holds: the builder's name, times,
   * attributes and children as they are now, the status, the duration fixed
   * at binding, and the return value.
   */
  lemma RecordFields(t: Trace)
    ensures DistinctKeys(t.ToDict().entries)
    ensures Lookup(t.ToDict().entries, "function_name") == Some(Str(t.builder.funcName))
    ensures Lookup(t.ToDict().entries, "status") == Some(Str("ERROR")) <==> t.returnValue.Err?
    ensures Lookup(t.ToDict().entries, "status") == Some(Str("OK")) <==> !t.returnValue.Err?
    ensures Lookup(t.ToDict().entries, "start_time") == Some(Int(t.builder.startTime))
    ensures Lookup(t.ToDict().entries, "end_time") == Some(Int(t.builder.endTime))
    ensures Lookup(t.ToDict().entries, "duration") == Some(Int(t.duration))
    ensures Lookup(t.ToDict().entries, "attributes") == Some(Dict(t.builder.attributes.entries))
    ensures Lookup(t.ToDict().entries, "return_value") == Some(t.returnValue)
    ensures Lookup(t.ToDict().entries, "children") == Some(List(TraceObjs(t.builder.children)))
  {
    var es := t.ToDict().entries;
    RecordEntriesDistinct(es);
    LookupAt(es, 0); LookupAt(es, 1); LookupAt(es, 2); LookupAt(es, 3);
    LookupAt(es, 4); LookupAt(es, 5); LookupAt(es, 6); LookupAt(es, 7);
  }

  /**
   * `repr(o)`. Objects that define their own `repr` carry its text; a trace
   * nested inside a list or a dictionary is shown as "<Trace>".
   */
  function Repr(o: Obj): (r: string)
    ensures o.Str? ==> |r| >= 2 && PyText.ClosingQuote(r[1..], PyText.QuoteFor(o.s)) == |r| - 2
    decreases o, 1
  {
    match o
    case Nil => "None"
    case Bool(b) => if b then "True" else "False"
    case Int(i) => PyText.IntText(i)
    case Str(s) => PyText.StrTextCloses(s); PyText.StrText(s)
    case List(items) => "[" + ReprItems(items) + "]"
    case Dict(entries) => "{" + ReprEntries(entries) + "}"
    case Ok(v) => "Ok(" + Repr(v) + ")"
    case Err(e) => "Err(" + Repr(e) + ")"
    case TraceObj(_) => "<Trace>"
    case Instance(_, debug) => debug
    case Opaque(debug) => debug
  }

  /** The reprs of `items`, separated by ", ". */
  function ReprItems(items: seq<Obj>): string
    decreases items, 0
  {
    if items == [] then ""
    else if |items| == 1 then Repr(items[0])
    else Repr(items[0]) + ", " + ReprItems(items[1..])
  }

  /** The entries of a dictionary as `'key': repr(value)`, separated by ", ". */
  function ReprEntries(entries: Entries<Obj>): string
    decreases entries, 0
  {
    if entries == [] then ""
    else
      var (key, value) := entries[0];
      assert value < entries[0];
      var entry := PyText.StrText(key) + ": " + Repr(value);
      if |entries| == 1 then entry else entry + ", " + ReprEntries(entries[1..])
  }

  /** The objects the JSON encoder writes without help: None, booleans, numbers, strings, lists and dicts. */
  predicate IsPlainData(o: Obj) {
    o.Nil? || o.Bool? || o.Int? || o.Str? || o.List? || o.Dict?
  }

  /** What `SafeSerialize` reads: the builder of a trace and its attributes. */
  function Footprint(o: Obj): set<object> {
    if o.TraceObj? then {o.trace.builder, o.trace.builder.attributes} else {}
  }

  /**
   * `safe_serialize`: a trace becomes its record, an object with a `__dict__`
   * becomes that mapping, anything else becomes its repr text.
   * It is total and always yields plain data.
   */
  function SafeSerialize(o: Obj): (r: Obj)
    reads Footprint(o)
    ensures IsPlainData(r)
    ensures o.TraceObj? ==> r == o.trace.ToDict() && Keys(r.entries) == RecordKeys
    ensures !o.TraceObj? && o.Instance? ==> r == Dict(o.fields)
    ensures !o.TraceObj? && !o.Instance? ==> r == Str(Repr(o))
  {
    match o
    case TraceObj(t) => t.ToDict()
    case Instance(fields, _) => Dict(fields)
    case _ => Str(Repr(o))
  }
}

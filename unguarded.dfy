/**
 * What the builder does not guard against: binding twice, writing or logging
 * after binding, and a caller that keeps writing to the dictionary it passed in.
 * A trace reads its builder by reference, so each of these shows in its record.
 */
module Unguarded {
  import opened Wrappers
  import opened Dicts
  import Frames
  import opened Tracer

  /**
   * Binding twice, which nothing prevents: the first trace keeps the
   * duration it was made with, while its record, read through the shared
   * builder, shows the second end time.
   */
  method BindTwice(b: TraceBuilder, v1: Obj, v2: Obj, now1: int, now2: int) returns (t1: Trace, t2: Trace)
    requires b.Valid()
    modifies b
    ensures t1 != t2 && t1.builder == b && t2.builder == b
    ensures t1.duration == now1 - b.startTime && t2.duration == now2 - b.startTime
    ensures Lookup(t1.ToDict().entries, "duration") == Some(Int(now1 - b.startTime))
    ensures Lookup(t1.ToDict().entries, "end_time") == Some(Int(now2))
  {
    t1 := b.Bind(v1, now1);
    t2 := b.Bind(v2, now2);
    RecordFields(t1);
  }

  /** Writing an attribute after binding changes what the trace's record shows. */
  method SetAfterBind(b: TraceBuilder, v: Obj, now: int, key: string, value: Obj) returns (t: Trace)
    requires b.Valid()
    modifies b, b.attributes
    ensures Lookup(t.ToDict().entries, "attributes") == Some(Dict(b.attributes.entries))
    ensures Lookup(b.attributes.entries, key) == Some(value)
  {
    t := b.Bind(v, now);
    b.SetAttribute(key, value);
    RecordFields(t);
  }

  /** Logging a child after binding adds it to the children the trace's record shows. */
  method LogAfterBind(b: TraceBuilder, v: Obj, now: int, child: Trace) returns (t: Trace)
    requires b.Valid()
    modifies b
    ensures Lookup(t.ToDict().entries, "children") == Some(List(TraceObjs(old(b.children) + [child])))
  {
    t := b.Bind(v, now);
    var _ := b.Log(child);
    RecordFields(t);
  }

  /**
   * The builder keeps the caller's dictionary itself: a write the caller
   * makes after construction shows up among the builder's attributes.
   */
  method SharedAttributes(d: PyDict<Obj>, key: string, value: Obj, now: int, stack: seq<Frames.Frame>)
    returns (b: TraceBuilder)
    requires d.Valid()
    modifies d
    ensures b.attributes == d && b.Valid()
    ensures Lookup(b.attributes.entries, key) == Some(value)
  {
    b := new TraceBuilder(d, now, now, stack);
    d.Set(key, value);
    PutLookup(old(d.entries), key, value, key);
  }

  /** The serialized record of a trace is the record itself. */
  method SerializeTrace(t: Trace) returns (r: Obj)
    ensures r == t.ToDict()
  {
    r := SafeSerialize(TraceObj(t));
  }
}

/**
 * The call stacks the demonstration functions run under: the naming helper's
 * frame, the builder constructor's frame, then the traced function and its callers.
 */
module DemoStack {
  import opened Wrappers
  import opened Frames

  /** The stack the naming helper sees when `traced` constructs a builder and is called from `callers`. */
  function BuilderStack(traced: Frame, callers: seq<Frame>): (stack: seq<Frame>)
    ensures CallerName(stack) == QualifiedName(traced)
  {
    [Frame("get_function_name", None, None), Frame("__init__", Some("TraceBuilder"), None), traced] + callers
  }

  /** A module-level function of the given name. */
  function Plain(name: string): Frame {
    Frame(name, None, None)
  }
}

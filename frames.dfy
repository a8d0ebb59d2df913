/**
 * Naming of a trace's operation. The tracer asks the interpreter for the
 * current call stack and names the function two frames above its naming
 * helper: the helper's caller is the builder's constructor, and the
 * constructor's caller is the traced function. A frame is abstracted to the
 * name of its code and the class names of its `self` and `cls` locals.
 */
module Frames {
  import opened Wrappers

  /**
   * One call-stack frame: the name of the function it runs, the class name of
   * a local `self` that is not None, and the name of a local `cls` that is not None.
   */
  datatype Frame = Frame(funcName: string, selfClass: Option<string>, clsName: Option<string>)

  /** The name used when no frame can be found. */
  const NotAvailable: string := "<N/A>"

  /** `func`, qualified by the class of `self` when there is one, else by `cls`. */
  function QualifiedName(f: Frame): string {
    match f.selfClass
    case Some(c) => c + "." + f.funcName
    case None =>
      match f.clsName
      case Some(c) => c + "." + f.funcName
      case None => f.funcName
  }

  /**
   * The name of the caller, given the stack innermost frame first
   * (`stack[0]` is the naming helper's own frame; an empty stack means the
   * interpreter gives no frames at all).
   */
  function CallerName(stack: seq<Frame>): string {
    if |stack| < 3 then NotAvailable else QualifiedName(stack[2])
  }

  /** `get_function_name`: step back twice from the current frame, then name that frame. */
  method GetFunctionName(stack: seq<Frame>) returns (name: string)
    ensures name == CallerName(stack)
    ensures |stack| < 3 ==> name == NotAvailable
    ensures |stack| >= 3 && stack[2].selfClass.Some? ==>
      name == stack[2].selfClass.value + "." + stack[2].funcName
    ensures |stack| >= 3 && stack[2].selfClass.None? && stack[2].clsName.Some? ==>
      name == stack[2].clsName.value + "." + stack[2].funcName
    ensures |stack| >= 3 && stack[2].selfClass.None? && stack[2].clsName.None? ==>
      name == stack[2].funcName
  {
    if |stack| == 0 {
      return NotAvailable;
    }
    var current := 0;
    for step := 0 to 2
      invariant current == step < |stack|
    {
      if current + 1 == |stack| {
        // the frame has no `f_back`
        return NotAvailable;
      }
      current := current + 1;
    }
    var frame := stack[current];
    match frame.selfClass {
      case Some(c) =>
        return c + "." + frame.funcName;
      case None =>
    }
    match frame.clsName {
      case Some(c) =>
        return c + "." + frame.funcName;
      case None =>
    }
    return frame.funcName;
  }
}

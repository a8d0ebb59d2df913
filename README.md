# Tracer: a Dafny model of a manual call-tracing core

The tracer lets a Python function record its own call. It creates a
`TraceBuilder`, may set attributes on it, *logs* the traces returned by the
functions it calls (so each child is recorded and its value handed back),
and finally *binds* its return value. Binding produces a `Trace`. The trace
keeps a reference to its builder and fixes the call's duration. Its status
is `ERROR` exactly when the return value is a `result.Err`. The trace
renders as an eight-field record. `safe_serialize` is the fallback the JSON
export uses for objects that are not plain data.

Files and modules:

- `wrappers.dfy` (`Wrappers`): `Option`.
- `dicts.dfy` (`Dicts`): the Python `dict` laws the attributes rely on.
  Entries are kept in insertion order. A write updates a key in place or
  appends it. The `PyDict` class models the dict object itself, so two
  holders of one dict see each other's writes.
- `frames.dfy` (`Frames`): the naming rule of `get_function_name`, over an
  abstract call stack (innermost frame first).
- `pytext.dfy` (`PyText`): the text `repr` gives for `str` and `int`, which
  is the last fallback tier.
- `tracer.dfy` (`Tracer`):
  - `Obj` is a Python object as the tracer meets it.
  - `TraceBuilder` and `Trace` are classes.
  - Also here: the status rule, the record (`ToDict`), `Repr` and
    `SafeSerialize`.
- `demo_stack.dfy`, `example_add.dfy`, `example_item.dfy`: the
  repository's two demo call chains, restated with the model's operations.
- `unguarded.dfy`: what the builder does not prevent, and how each case
  shows up in a trace's record. The cases are binding twice, writing or
  logging after binding, and a caller that keeps writing to the dict it
  passed in.

Inputs from the outside world are parameters:

- Clock readings (`datetime.now`) are integers the caller passes in.
- The call stack (`inspect.currentframe`) is a sequence of `Frames.Frame`.
- The demos' `random.choice` outcomes are the booleans `found` and `updated`.

Where the documented design of the system and its code disagree, the model
follows the code:

- The design says a builder is finalized once and later misuse fails loudly.
  The code has no such guard. A second `bind` overwrites the end time.
  Writes and logs after `bind` change what the earlier trace's record shows,
  because the trace holds the builder by reference. `Unguarded.BindTwice`,
  `Unguarded.SetAfterBind` and `Unguarded.LogAfterBind` show this.
- The design says `end_time` equals `start_time` until finalization. The
  constructor actually reads the clock twice (tracer.py:35-36), so the
  constructor takes two readings.
- The design speaks of six top-level keys in the export. The record has
  eight.
- The design describes a frozen copy of the builder's metadata. The code
  keeps the caller's attribute dict itself, not a copy, and a trace keeps a
  reference to the builder.
- The docstring of `get_function_name` promises an empty string when no name
  is found. The code returns `"<N/A>"`.

## Model

| member | source | states |
|---|---|---|
| `Dicts.Lookup` | src/tracer/tracer.py:127-136 | `d.get(k)`, as the record's fields are read: the value of the entry with key `k`, `None` when there is none; it has no contract of its own, and `Dicts.PutLookup`, `Dicts.PutAllLookup` and `Dicts.LookupAt` state its laws |
| `Dicts.Put` | src/tracer/tracer.py:79 | after `d[k] = v` the pair `(k, v)` is stored, and every stored pair is either that one or one that was stored before |
| `Dicts.PutLookup` | src/tracer/tracer.py:79 | after `d[k] = v`, `k` holds `v` and every other key keeps its value |
| `Dicts.PutKeys` | src/tracer/tracer.py:79 | writing an existing key keeps the key order; a new key is appended last |
| `Dicts.PutDistinct` | src/tracer/tracer.py:79 | a write keeps the keys distinct |
| `Dicts.PutAllLookup` | src/tracer/tracer.py:79 | after any sequence of writes, each key holds its last written value, or its old one if never written (last write wins) |
| `Dicts.PutAllKeys` | src/tracer/tracer.py:79 | after any sequence of writes, keys are in first-insertion order: old keys, then new keys in the order first written |
| `Dicts.PutAllNew` | src/example_add.py:6-9 | a dict display with distinct keys holds its pairs in the order written |
| `Dicts.LookupAt` | src/tracer/tracer.py:127-136 | in a dict with distinct keys, each entry's key looks up that entry's value |
| `Dicts.PyDict.Empty` | src/tracer/tracer.py:29-30 | `{}` is a dict with no entries |
| `Dicts.PyDict.FromPairs` | src/example_add.py:6-9 | a dict display is its pairs written in order into an empty dict, and has distinct keys |
| `Dicts.PyDict.Set` | src/tracer/tracer.py:79 | `d[k] = v` updates the dict object in place as `Put` describes and keeps its keys distinct |
| `Frames.GetFunctionName` | src/tracer/tracer.py:172-200 | the stack walk agrees with `CallerName`: `"<N/A>"` when there is no current frame or fewer than two frames above it; otherwise the frame two above, named `Class.func` from `self` if present, else from `cls`, else plain `func` |
| `Tracer.StatusOf` | src/tracer/tracer.py:111-114 | status is `ERROR` exactly when the value is the `Err` variant, `OK` for `Ok` and for every other value |
| `Tracer.StatusText` | src/tracer/tracer.py:98 | the record shows `"ERROR"` exactly for the `ERROR` status |
| `Tracer.TraceBuilder.constructor` | src/tracer/tracer.py:23-38 | with no attributes the builder gets a fresh empty dict, otherwise the caller's dict object itself, unchanged; children are empty; start and end are the two clock readings; the name is `CallerName` of the stack |
| `Tracer.TraceBuilder.Log` | src/tracer/tracer.py:40-52 | returns exactly the child's value; the children are the old children with the child appended last; end time and attributes unchanged |
| `Tracer.TraceBuilder.Bind` | src/tracer/tracer.py:54-67 | sets the end time to the reading and changes nothing else; returns a fresh trace over this builder with the given value, duration `now - start` (non-negative when the clock did not go back), status `ERROR` iff the value is an `Err` |
| `Tracer.TraceBuilder.SetAttribute` | src/tracer/tracer.py:69-79 | the key holds the value, every other key's value is unchanged, key order kept or the key appended; children and end time untouched |
| `Tracer.Trace.constructor` | src/tracer/tracer.py:100-114 | the trace keeps the builder by reference and the value, and fixes the duration as end minus start at that moment |
| `Tracer.Trace.Value` | src/tracer/tracer.py:142-145 | the enclosed value, which is an `Err` exactly when the status is `ERROR` |
| `Tracer.Trace.ToDict` | src/tracer/tracer.py:119-136 | the record has exactly the keys `function_name`, `status`, `start_time`, `end_time`, `duration`, `attributes`, `return_value`, `children`, in that order |
| `Tracer.RecordFields` | src/tracer/tracer.py:127-136 | each record field holds what it should: the builder's name, live times, attributes and its list of child trace objects (one per logged child, in order; they become records only when serialized), the status text, the frozen duration, the return value |
| `Tracer.TraceObjs` | src/tracer/tracer.py:135 | the record's children list has one entry per logged child, in order |
| `Tracer.SafeSerialize` | src/tracer/tracer.py:148-163 | total, always plain data; a trace becomes its eight-key record, else an object with a `__dict__` becomes that mapping, else the value becomes its repr text |
| `PyText.StrText` | src/tracer/tracer.py:163 | a string's repr is quoted with double quotes exactly when it holds a single quote and no double quote |
| `Tracer.Repr` | src/tracer/tracer.py:163 | `repr(obj)`; for a string it is one whole literal: a tokenizer reading it finds its closing quote at its last character |
| `PyText.EscapeKeepsQuote` | src/tracer/tracer.py:163 | a tokenizer that reads the escaped body of a string followed by the closing quote (and anything after) stops exactly at that quote, whatever backslashes and quotes the string holds: only the delimiting quote and backslashes are escaped, the other quote character is written bare, as CPython does |
| `PyText.StrTextCloses` | src/tracer/tracer.py:163 | a string's repr is one whole literal: read from after its opening quote, its first closing quote is its last character |
| `PyText.IntText` | src/tracer/tracer.py:163 | an integer's repr starts with `-` exactly when the integer is negative, and the digits after it read back as its magnitude |
| `PyText.EscapePlain` | src/tracer/tracer.py:163 | characters that need no escaping appear in the repr unchanged |
| `PyText.NatTextValue` | src/tracer/tracer.py:163 | an integer's repr reads back as that integer |
| `PyText.NatText` | src/tracer/tracer.py:163 | an integer's repr is a non-empty string of decimal digits without a leading zero |
| `DemoStack.BuilderStack` | src/tracer/tracer.py:179-181 | when a function creates a builder, the name found two frames above the naming helper is that function's own |
| `ExampleAdd.Add` | src/example_add.py:4-11 | `add(a, b)` has attributes exactly `{"arg.a": a, "arg.b": b}`, value `a + b`, status OK, no children, name `add` |
| `ExampleAdd.AddMain` | src/example_add.py:14-23 | logging `add(3, 5)` hands back 8; the outer trace has one child, the `add` trace; the outer status is OK |
| `ExampleItem.ItemObj` | src/example_item.py:9-13 | an `Item` exposes the fields `id`, `name`, `price` |
| `ExampleItem.NotFoundMessage` | src/example_item.py:46 | the not-found message holds the item's id, between single quotes, at a fixed position |
| `ExampleItem.GetItem` | src/example_item.py:38-48 | the lookup trace is OK with the item, or ERROR with the not-found message |
| `ExampleItem.UpdateItem` | src/example_item.py:51-60 | the update trace is OK with no value, or ERROR with the message as the source writes it, `{item.id}` left unfilled |
| `ExampleItem.ProcessRequest` | src/example_item.py:16-35 | a failed lookup followed by an early bind gives status ERROR and one child; that child's value and the request's own value are both `Err` of the not-found message, and both serialize to `Err("Item with id 'seUfO284e' not found")`; otherwise two children in call order, the lookup OK, and ERROR iff the update failed, when the update trace is ERROR too and its unfilled message is the request's value |
| `ExampleItem.ReprNotFound` | src/example_item.py:46 | the not-found failure's repr is the message in double quotes inside `Err(...)` |
| `ExampleItem.UpdateFailedMessageAsWrittenLosesId` | src/example_item.py:58 | as written, two different items fail with the same message |
| `ExampleItem.UpdateFailedMessageNamesItem` | src/example_item.py:58 | with the id filled in, different items fail with different messages |
| `Unguarded.BindTwice` | src/tracer/tracer.py:66-67 | a second bind yields another trace over the same builder; the first trace keeps its duration, but its record shows the second end time |
| `Unguarded.SetAfterBind` | src/tracer/tracer.py:79 | an attribute written after bind shows in the earlier trace's record |
| `Unguarded.LogAfterBind` | src/tracer/tracer.py:49-52 | a child logged after bind shows in the earlier trace's record |
| `Unguarded.SharedAttributes` | src/tracer/tracer.py:29-32 | the builder holds the caller's dict itself: a later write by the caller shows among the builder's attributes |
| `Unguarded.SerializeTrace` | src/tracer/tracer.py:156-157 | serializing a trace yields its record |

## Left out

- Reading the clock (`datetime.now`, tracer.py:35-36, 66): timestamps are integers the caller passes in. That they increase is not assumed. `Bind` only promises a non-negative duration when the reading is not before the start.
- Tracer.Trace.ToDict: `start_time`, `end_time` and `duration` are shown as integers. The source shows `str(datetime)` text and a two-decimal "N.NN seconds" string made by float division (tracer.py:124-126).
- Tracer.Trace.ToDict: the record is a value taken when it is read. The source puts the builder's own attribute dict and child list into the dict it returns, so a consumer that writes into them changes the builder. That aliasing is not modelled.
- `Trace.json` (tracer.py:138-140): `json.dumps` is a foreign library. It recurses into nested values, detects circular references and indents its output. Only the record and the `safe_serialize` hook are modelled.
- `pretty_format` and the `__repr__` methods of both classes (tracer.py:81-89, 116-117, 166-169): they are console rendering through the `rich` library.
- Tracer.Repr: a trace nested in a list or dict is rendered as `<Trace>`. The source renders it through `rich` pretty-printing.
- Tracer.Repr: an object with a `__dict__` (`Instance`) or any other object (`Opaque`) carries its own repr text.
- Tracer.Repr: floats, tuples and other built-in types are not among the modelled objects.
- PyText.EscapeChar: non-ASCII characters are written unchanged. Python escapes the non-printable ones among them.
- Real stack inspection (`inspect.currentframe`, `getframeinfo`, `f_locals`, tracer.py:174, 188-198): a frame is abstracted to its function name and the class names of non-None `self` and `cls` locals.
- Frames.GetFunctionName: a local named `cls` with no `__name__` would make the source raise. Frames here carry the name already.
- `isinstance(return_value, Err)` also accepts subclasses of `Err`. `Obj` has only the one `Err` variant.
- Concurrency: the source is single-threaded and so is the model.
- Demo code: `time.sleep`, `print` and the `__main__` blocks are left out. The demo renames the found `Item` in place, which the lookup child's trace would also show. The model passes a renamed copy instead.
- `src/tracer/__init__.py` only re-exports the two classes.

## Findings

| source | as written | input that shows it | evidently intended | confidence | as-written member | corrected member |
|---|---|---|---|---|---|---|
| src/example_item.py:58 | the failure message of `update_item` is a plain string literal without the `f` prefix, so it contains the text `{item.id}` rather than the item's id | updating the items with ids `seUfO284e` and `x` fails with the same message | an f-string that names the item's id | high (not executed) | `ExampleItem.UpdateFailedMessageAsWrittenLosesId` | `ExampleItem.UpdateFailedMessageNamesItem` |

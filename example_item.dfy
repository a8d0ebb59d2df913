/**
 * The item example: a request that looks an item up, renames it and stores
 * it, each step traced. The random failures become the parameters `found`
 * and `updated`; clock readings are parameters.
 */
module ExampleItem {
  import opened Wrappers
  import opened Dicts
  import opened Frames
  import opened Tracer
  import opened DemoStack
  import PyText

  /** An `Item` dataclass instance: its fields, and the repr a dataclass generates. */
  function ItemObj(id: string, name: string, price: int): (o: Obj)
    ensures o.Instance? && Keys(o.fields) == ["id", "name", "price"]
  {
    Instance([("id", Str(id)), ("name", Str(name)), ("price", Int(price))],
      "Item(id=" + PyText.StrText(id) + ", name=" + PyText.StrText(name) + ", price=" + PyText.IntText(price) + ")")
  }

  /** The message `get_item` fails with. */
  function NotFoundMessage(id: string): (m: string)
    ensures |m| == |id| + 25 && m[14..14 + |id|] == id
    ensures m[13] == '\'' && m[14 + |id|] == '\''
  {
    "Item with id '" + id + "' not found"
  }

  /** How the not-found failure prints: the message in double quotes, inside `Err(...)`. */
  function NotFoundText(id: string): string {
    "Err(\"" + NotFoundMessage(id) + "\")"
  }

  /** The message `update_item` fails with, as the source writes it: without the `f` prefix, so the id is never filled in. */
  function UpdateFailedMessageAsWritten(id: string): string {
    "Error updating item with id '{item.id}'"
  }

  /** The message `update_item` evidently means to fail with. */
  function UpdateFailedMessage(id: string): string {
    "Error updating item with id '" + id + "'"
  }

  /** As written, two different items fail with the same message. */
  lemma UpdateFailedMessageAsWrittenLosesId()
    ensures UpdateFailedMessageAsWritten("seUfO284e") == UpdateFailedMessageAsWritten("x")
    ensures "seUfO284e" != "x"
  {
  }

  /** The corrected message names the item: different ids give different messages. */
  lemma UpdateFailedMessageNamesItem(a: string, b: string)
    requires UpdateFailedMessage(a) == UpdateFailedMessage(b)
    ensures a == b
  {
    var prefix := "Error updating item with id '";
    var ma, mb := UpdateFailedMessage(a), UpdateFailedMessage(b);
    assert |a| == |b|;
    assert a == ma[|prefix|..|prefix| + |a|];
    assert b == mb[|prefix|..|prefix| + |b|];
  }

  /** `get_item(id)`: a lookup that finds the item when `found`, and fails otherwise. */
  method GetItem(id: string, found: bool, callers: seq<Frame>, start: int, finish: int) returns (t: Trace)
    ensures t.builder.funcName == "get_item"
    ensures t.builder.attributes.entries == [("arg.id", Str(id))]
    ensures t.builder.children == []
    ensures found ==> t.returnValue == Ok(ItemObj(id, "Salt Shaker", 24)) && t.status == OK
    ensures !found ==> t.returnValue == Err(Str(NotFoundMessage(id))) && t.status == ERROR
    ensures fresh(t) && fresh(t.builder) && fresh(t.builder.attributes)
  {
    var attrs := new PyDict.FromPairs([("arg.id", Str(id))]);
    var tb := new TraceBuilder(attrs, start, start, BuilderStack(Plain("get_item"), callers));
    if !found {
      t := tb.Bind(Err(Str(NotFoundMessage(id))), finish);
    } else {
      t := tb.Bind(Ok(ItemObj(id, "Salt Shaker", 24)), finish);
    }
  }

  /** `update_item(item)`: an update that succeeds when `updated`, and fails otherwise. */
  method UpdateItem(item: Obj, id: string, updated: bool, callers: seq<Frame>, start: int, finish: int)
    returns (t: Trace)
    ensures t.builder.funcName == "update_item"
    ensures t.builder.attributes.entries == [("arg.item", item)]
    ensures t.builder.children == []
    ensures updated ==> t.returnValue == Ok(Nil) && t.status == OK
    ensures !updated ==> t.returnValue == Err(Str(UpdateFailedMessageAsWritten(id))) && t.status == ERROR
    ensures fresh(t) && fresh(t.builder) && fresh(t.builder.attributes)
  {
    var attrs := new PyDict.FromPairs([("arg.item", item)]);
    var tb := new TraceBuilder(attrs, start, start, BuilderStack(Plain("update_item"), callers));
    if !updated {
      t := tb.Bind(Err(Str(UpdateFailedMessageAsWritten(id))), finish);
    } else {
      t := tb.Bind(Ok(Nil), finish);
    }
  }

  /**
   * `process_request()`: looks the item up, renames it and stores it,
   * returning the first failure as its own. Both children are logged in
   * call order.
   */
  method ProcessRequest(found: bool, updated: bool, callers: seq<Frame>, start: int, finish: int)
    returns (t: Trace)
    ensures t.builder.funcName == "process_request"
    ensures |t.builder.children| >= 1 && t.builder.children[0].builder.funcName == "get_item"
    ensures !found ==>
      && |t.builder.children| == 1 && t.status == ERROR
      && t.returnValue == Err(Str(NotFoundMessage("seUfO284e")))
      && t.builder.children[0].returnValue == Err(Str(NotFoundMessage("seUfO284e")))
      && SafeSerialize(t.builder.children[0].returnValue) == Str(NotFoundText("seUfO284e"))
      && SafeSerialize(t.returnValue) == Str(NotFoundText("seUfO284e"))
    ensures found ==> |t.builder.children| == 2 && t.builder.children[1].builder.funcName == "update_item"
    ensures found ==> t.builder.children[0].status == OK
    ensures found && !updated ==>
      && t.status == ERROR && t.builder.children[1].status == ERROR
      && t.returnValue == Err(Str(UpdateFailedMessageAsWritten("seUfO284e")))
    ensures found && updated ==> t.status == OK && t.returnValue == Ok(Nil)
  {
    var tb := new TraceBuilder(null, start, start, BuilderStack(Plain("process_request"), callers));
    var here := [Plain("process_request")] + callers;
    var lookup := GetItem("seUfO284e", found, here, start, finish);
    var getItemResult := tb.Log(lookup);
    if getItemResult.Err? {
      t := tb.Bind(Err(getItemResult.errValue), finish);
      assert tb.children == [lookup];
      DemoIdPlain();
      ReprNotFound("seUfO284e");
      return;
    }
    // the item found, renamed in place by the source
    var renamed := ItemObj("seUfO284e", "Black Salt Shaker", 24);
    var update := UpdateItem(renamed, "seUfO284e", updated, here, start, finish);
    var updateItemResult := tb.Log(update);
    if updateItemResult.Err? {
      t := tb.Bind(Err(updateItemResult.errValue), finish);
      return;
    }
    t := tb.Bind(Ok(Nil), finish);
  }

  /**
   * The failed lookup's value serializes to its repr, quoted with double
   * quotes because the message holds single ones.
   */
  lemma ReprNotFound(id: string)
    requires PyText.AllUnescaped(id, '"')
    ensures Repr(Err(Str(NotFoundMessage(id)))) == NotFoundText(id)
  {
    var m := NotFoundMessage(id);
    NotFoundMessagePlain(id);
    PyText.StrTextPlain(m, 13);
    ReprErrStr(m);
  }

  /** The lookup's message needs no escaping and holds a single quote. */
  lemma NotFoundMessagePlain(id: string)
    requires PyText.AllUnescaped(id, '"')
    ensures PyText.AllUnescaped(NotFoundMessage(id), '"') && NotFoundMessage(id)[13] == '\''
  {
  }

  /** The demo's item id needs no escaping inside double quotes. */
  lemma DemoIdPlain()
    ensures PyText.AllUnescaped("seUfO284e", '"')
  {
  }

  /** The repr of a failure carrying a string. */
  lemma ReprErrStr(m: string)
    ensures Repr(Err(Str(m))) == "Err(" + PyText.StrText(m) + ")"
  {
  }
}

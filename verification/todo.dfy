/**
 * The tiny-todo store: an ordered in-memory list of todo items with a
 * next-id counter, and the `{next_id, items}` document it is saved to and
 * loaded from (tiny-todo/src/tiny_todo/todo.py).
 */
module Todo {
  import opened Wrappers
  import opened Text

  /** One todo item (`TodoItem`); held by value in this model. */
  datatype Item = Item(id: int, text: string, done: bool)

  /** The exceptions the store raises. */
  datatype Error =
    | ValueError    // `add` with empty or whitespace-only text
    | MissingField  // `load` of an item without `id` or `text` (`TodoItem(**raw)` fails)

  // ---------------------------------------------------------------------
  // The store's invariant
  // ---------------------------------------------------------------------

  /** Text as `add` stores it: stripped and non-empty. */
  predicate IsTodoText(s: string) {
    s != [] && Stripped(s)
  }

  /** No two items share an id. */
  predicate DistinctIds(items: seq<Item>) {
    forall i, j :: 0 <= i < j < |items| ==> items[i].id != items[j].id
  }

  /**
   * What the store keeps true when it is only ever changed by `add` and
   * `complete`: ids are positive, pairwise distinct and below the counter,
   * and every text is stripped and non-empty.
   */
  predicate WellFormed(items: seq<Item>, nextId: int) {
    && 1 <= nextId
    && (forall k :: 0 <= k < |items| ==> 1 <= items[k].id < nextId && IsTodoText(items[k].text))
    && DistinctIds(items)
  }

  /** Appending the item `add` creates keeps the invariant, with the counter moved on by one. */
  lemma AddKeepsWellFormed(items: seq<Item>, nextId: int, text: string)
    requires WellFormed(items, nextId) && IsTodoText(text)
    ensures WellFormed(items + [Item(nextId, text, false)], nextId + 1)
  {
  }

  // ---------------------------------------------------------------------
  // list_open
  // ---------------------------------------------------------------------

  /** The items that are not done, in list order (todo.py:41). */
  function OpenItems(items: seq<Item>): (r: seq<Item>)
    ensures |r| <= |items|
    ensures forall k :: 0 <= k < |r| ==> !r[k].done
  {
    if items == [] then []
    else (if items[0].done then [] else [items[0]]) + OpenItems(items[1..])
  }

  /**
   * Filtering distributes over concatenation: the open items keep the
   * relative order they have in the list.
   */
  lemma {:induction false} OpenItemsAppend(a: seq<Item>, b: seq<Item>)
    ensures OpenItems(a + b) == OpenItems(a) + OpenItems(b)
  {
    if a == [] {
      assert a + b == b;
    } else {
      assert (a + b)[1..] == a[1..] + b;
      OpenItemsAppend(a[1..], b);
    }
  }

  /** An item is in the open list exactly when it is in the list and not done. */
  lemma {:induction false} OpenItemsMembers(items: seq<Item>, it: Item)
    ensures it in OpenItems(items) <==> it in items && !it.done
  {
    if items != [] {
      OpenItemsMembers(items[1..], it);
      assert items == [items[0]] + items[1..];
    }
  }

  /** A list of one item filters to that item when it is open and to nothing otherwise. */
  lemma OpenItemsSingle(it: Item)
    ensures OpenItems([it]) == if it.done then [] else [it]
  {
    assert [it][1..] == [];
  }

  // ---------------------------------------------------------------------
  // complete
  // ---------------------------------------------------------------------

  /** `k` is the position of the first item whose id is `id`. */
  predicate IsFirstWithId(items: seq<Item>, id: int, k: int) {
    0 <= k < |items| && items[k].id == id && forall j :: 0 <= j < k ==> items[j].id != id
  }

  /** Where the scan of `complete` stops: the first item with id `id`, if any. */
  function FirstIndex(items: seq<Item>, id: int): (r: Option<nat>)
    ensures r.Some? ==> IsFirstWithId(items, id, r.value)
    ensures r.None? ==> forall k :: 0 <= k < |items| ==> items[k].id != id
  {
    if items == [] then None
    else if items[0].id == id then Some(0)
    else match FirstIndex(items[1..], id)
         case None => None
         case Some(k) => Some(k + 1)
  }

  /** The list after `complete(id)` and whether it returned True. */
  datatype Completion = Completion(items: seq<Item>, changed: bool)

  /**
   * `complete(id)` on a list: the first item with that id is marked done
   * when it was open, and True is returned exactly then.
   */
  function MarkComplete(items: seq<Item>, id: int): (r: Completion)
    ensures r.changed <==> exists k :: IsFirstWithId(items, id, k) && !items[k].done
    ensures |r.items| == |items|
    ensures forall k :: 0 <= k < |items| ==>
              r.items[k].id == items[k].id && r.items[k].text == items[k].text
              && (items[k].done ==> r.items[k].done)
    ensures forall k :: 0 <= k < |items| && r.items[k] != items[k] ==>
              IsFirstWithId(items, id, k) && r.items[k] == items[k].(done := true)
    ensures !r.changed ==> r.items == items
    ensures r.changed ==> forall k :: IsFirstWithId(items, id, k) ==> r.items[k] == items[k].(done := true)
  {
    match FirstIndex(items, id)
    case None => Completion(items, false)
    case Some(k) =>
      if items[k].done then Completion(items, false)
      else Completion(items[k := items[k].(done := true)], true)
  }

  /** A second `complete` with the same id returns False and changes nothing. */
  lemma CompleteTwice(items: seq<Item>, id: int)
    ensures var once := MarkComplete(items, id).items;
            MarkComplete(once, id) == Completion(once, false)
  {
    var once := MarkComplete(items, id).items;
    match FirstIndex(items, id)
    case None =>
    case Some(k) =>
      assert IsFirstWithId(once, id, k);
  }

  /** `complete` of an id the store never issued returns False and changes nothing. */
  lemma CompleteNeverIssued(items: seq<Item>, nextId: int, id: int)
    requires WellFormed(items, nextId)
    requires id < 1 || nextId <= id
    ensures MarkComplete(items, id) == Completion(items, false)
  {
  }

  /** `complete` keeps the invariant: it only ever flips a `done` flag. */
  lemma CompleteKeepsWellFormed(items: seq<Item>, nextId: int, id: int)
    requires WellFormed(items, nextId)
    ensures WellFormed(MarkComplete(items, id).items, nextId)
  {
    var r := MarkComplete(items, id).items;
    forall i, j | 0 <= i < j < |r| ensures r[i].id != r[j].id {
      assert r[i].id == items[i].id && r[j].id == items[j].id;
    }
  }

  /** A list is its part before position `k`, its `k`-th item and its part after. */
  lemma SplitAt(items: seq<Item>, k: nat)
    requires k < |items|
    ensures items == items[..k] + [items[k]] + items[k + 1..]
  {
  }

  /** The open items of a list, split around its `k`-th item. */
  lemma OpenItemsAround(items: seq<Item>, k: nat)
    requires k < |items|
    ensures OpenItems(items) ==
              OpenItems(items[..k]) + (if items[k].done then [] else [items[k]]) + OpenItems(items[k + 1..])
  {
    SplitAt(items, k);
    OpenItemsAppend(items[..k] + [items[k]], items[k + 1..]);
    OpenItemsAppend(items[..k], [items[k]]);
    OpenItemsSingle(items[k]);
  }

  /** `complete` at the first item with its id, which is open, marks that item done and nothing else. */
  lemma MarkCompleteAt(items: seq<Item>, id: int, k: nat)
    requires IsFirstWithId(items, id, k) && !items[k].done
    ensures MarkComplete(items, id) == Completion(items[k := items[k].(done := true)], true)
  {
    assert FirstIndex(items, id) == Some(k);
  }

  /**
   * When `complete` returns True, exactly the completed item leaves the
   * open list, and the other open items keep their order.
   */
  lemma CompleteClosesOne(items: seq<Item>, id: int, k: nat)
    requires IsFirstWithId(items, id, k) && !items[k].done
    ensures OpenItems(items) == OpenItems(items[..k]) + [items[k]] + OpenItems(items[k + 1..])
    ensures OpenItems(MarkComplete(items, id).items) == OpenItems(items[..k]) + OpenItems(items[k + 1..])
  {
    OpenItemsAround(items, k);
    MarkCompleteAt(items, id, k);
    var after := items[k := items[k].(done := true)];
    assert after[..k] == items[..k] && after[k + 1..] == items[k + 1..];
    OpenItemsAround(after, k);
  }

  // ---------------------------------------------------------------------
  // save / load: the `{next_id, items}` document
  // ---------------------------------------------------------------------

  /** One entry of the document's `items` list; an absent key is None. */
  datatype RawItem = RawItem(id: Option<int>, text: Option<string>, done: Option<bool>)

  /** The persisted document; an absent key is None. */
  datatype Document = Document(nextId: Option<int>, items: Option<seq<RawItem>>)

  /** The state a document describes: the items in file order and the counter. */
  datatype Snapshot = Snapshot(items: seq<Item>, nextId: int)

  /** One entry per item, in list order, with `id`, `text` and `done` all present (todo.py:50). */
  function EncodeItems(items: seq<Item>): (raws: seq<RawItem>)
    ensures |raws| == |items|
    ensures forall k :: 0 <= k < |items| ==>
              raws[k] == RawItem(Some(items[k].id), Some(items[k].text), Some(items[k].done))
  {
    if items == [] then []
    else [RawItem(Some(items[0].id), Some(items[0].text), Some(items[0].done))] + EncodeItems(items[1..])
  }

  /**
   * One item per entry, in file order (todo.py:62): fails when an entry lacks `id` or
   * `text`; `done` defaults to False.
   */
  function ParseItems(raws: seq<RawItem>): (r: Option<seq<Item>>)
    ensures r.Some? <==> forall k :: 0 <= k < |raws| ==> raws[k].id.Some? && raws[k].text.Some?
    ensures r.Some? ==> |r.value| == |raws|
    ensures r.Some? ==> forall k :: 0 <= k < |raws| ==>
              r.value[k] == Item(raws[k].id.value, raws[k].text.value, raws[k].done.GetOr(false))
  {
    if raws == [] then Some([])
    else
      var raw := raws[0];
      if raw.id.None? || raw.text.None? then None
      else match ParseItems(raws[1..])
           case None => None
           case Some(rest) => Some([Item(raw.id.value, raw.text.value, raw.done.GetOr(false))] + rest)
  }

  /** The largest id of a non-empty list. */
  function MaxId(items: seq<Item>): (m: int)
    requires items != []
    ensures forall k :: 0 <= k < |items| ==> items[k].id <= m
    ensures exists k :: 0 <= k < |items| && items[k].id == m
  {
    if |items| == 1 then items[0].id
    else
      var rest := MaxId(items[1..]);
      if items[0].id < rest then rest else items[0].id
  }

  /**
   * The counter `load` falls back on when `next_id` is absent:
   * `max(ids, default=0) + 1`.
   */
  function DefaultNextId(items: seq<Item>): (n: int)
    ensures items == [] ==> n == 1
    ensures forall k :: 0 <= k < |items| ==> items[k].id < n
    ensures items != [] ==> exists k :: 0 <= k < |items| && items[k].id == n - 1
  {
    (if items == [] then 0 else MaxId(items)) + 1
  }

  /**
   * The reconstruction in `load`: no file gives the empty store with
   * counter 1; otherwise the items are rebuilt in file order (an absent
   * `items` key reads as an empty list) and the counter is `next_id` when
   * present, else one more than the largest id.
   */
  function Decode(file: Option<Document>): (r: Result<Snapshot, Error>)
    ensures file.None? ==> r == Ok(Snapshot([], 1))
    ensures file.Some? ==>
              var raws := file.value.items.GetOr([]);
              && (r.Ok? <==> forall k :: 0 <= k < |raws| ==> raws[k].id.Some? && raws[k].text.Some?)
              && (r.Err? ==> r.error == MissingField)
              && (r.Ok? ==> |r.value.items| == |raws|
                            && (forall k :: 0 <= k < |raws| ==>
                                  r.value.items[k] == Item(raws[k].id.value, raws[k].text.value, raws[k].done.GetOr(false)))
                            && r.value.nextId == file.value.nextId.GetOr(DefaultNextId(r.value.items)))
  {
    match file
    case None => Ok(Snapshot([], 1))
    case Some(doc) =>
      match ParseItems(doc.items.GetOr([]))
      case None => Err(MissingField)
      case Some(items) => Ok(Snapshot(items, doc.nextId.GetOr(DefaultNextId(items))))
  }

  /** Parsing what `save` wrote gives back the same items in the same order. */
  lemma {:induction false} ParseEncodedItems(items: seq<Item>)
    ensures ParseItems(EncodeItems(items)) == Some(items)
  {
    if items != [] {
      ParseEncodedItems(items[1..]);
      assert EncodeItems(items)[1..] == EncodeItems(items[1..]);
      assert [items[0]] + items[1..] == items;
    }
  }

  /**
   * A document whose `next_id` was dropped still reloads to a well-formed
   * store when the saved one was: the recomputed counter is no larger than
   * the saved one and still above every id, so the next `add` issues an
   * id that is not in use.
   */
  lemma ReloadWithoutNextId(items: seq<Item>, nextId: int)
    requires WellFormed(items, nextId)
    ensures var r := Decode(Some(Document(None, Some(EncodeItems(items)))));
            && r.Ok? && r.value.items == items
            && r.value.nextId <= nextId
            && WellFormed(items, r.value.nextId)
  {
    ParseEncodedItems(items);
  }

  // ---------------------------------------------------------------------
  // The store
  // ---------------------------------------------------------------------

  /** `TodoList`: the items in insertion order and the next id to issue. */
  class TodoList {
    var items: seq<Item>
    var nextId: int

    /** `TodoList(items, next_id)`; `TodoList()` is `TodoList([], 1)`. */
    constructor (items: seq<Item>, nextId: int)
      ensures this.items == items && this.nextId == nextId
    {
      this.items := items;
      this.nextId := nextId;
    }

    /** The store's invariant on the current state. */
    ghost predicate Valid()
      reads this
    {
      WellFormed(items, nextId)
    }

    /**
     * `add(text)`: strips `text` (None reads as ""); raises ValueError and
     * changes nothing when the result is empty; otherwise appends an open
     * item under the current counter, moves the counter on, and returns
     * the new id.
     */
    method Add(text: Option<string>) returns (r: Result<int, Error>)
      modifies this
      ensures var t := Strip(text.GetOr(""));
              if t == [] then
                r == Err(ValueError) && items == old(items) && nextId == old(nextId)
              else
                && r == Ok(old(nextId))
                && items == old(items) + [Item(old(nextId), t, false)]
                && nextId == old(nextId) + 1
      ensures old(Valid()) ==> Valid()
    {
      var t := Strip(text.GetOr(""));
      if t == [] {
        return Err(ValueError);
      }
      if WellFormed(items, nextId) {
        AddKeepsWellFormed(items, nextId, t);
      }
      var item := Item(nextId, t, false);
      items := items + [item];
      nextId := nextId + 1;
      return Ok(item.id);
    }

    /**
     * `complete(id)`: scans the items in order; at the first one with that
     * id, returns False if it is already done, else marks it done and
     * returns True; returns False when no item has that id.
     */
    method Complete(id: int) returns (changed: bool)
      modifies this
      ensures Completion(items, changed) == MarkComplete(old(items), id)
      ensures nextId == old(nextId)
      ensures old(Valid()) ==> Valid()
    {
      if WellFormed(items, nextId) {
        CompleteKeepsWellFormed(items, nextId, id);
      }
      var i := 0;
      while i < |items|
        invariant 0 <= i <= |items|
        invariant items == old(items)
        invariant forall j :: 0 <= j < i ==> items[j].id != id
      {
        if items[i].id == id {
          if items[i].done {
            return false;
          }
          items := items[i := items[i].(done := true)];
          return true;
        }
        i := i + 1;
      }
      return false;
    }

    /** `list_open()`: the open items, in insertion order. */
    function ListOpen(): (r: seq<Item>)
      reads this
      ensures r == OpenItems(items)
      ensures forall it :: it in r <==> it in items && !it.done
    {
      forall it { OpenItemsMembers(items, it); }
      OpenItems(items)
    }

    /** `list_all()`: a snapshot of every item, in insertion order. */
    function ListAll(): (r: seq<Item>)
      reads this
      ensures |r| == |items| && forall k :: 0 <= k < |r| ==> r[k] == items[k]
    {
      items
    }

    /**
     * The document `save` writes: `next_id` always present, every item with
     * all three keys; reading it back restores exactly this state.
     */
    function ToDocument(): (doc: Document)
      reads this
      ensures doc.nextId == Some(nextId)
      ensures Decode(Some(doc)) == Ok(Snapshot(items, nextId))
    {
      ParseEncodedItems(items);
      Document(Some(nextId), Some(EncodeItems(items)))
    }

    /**
     * `TodoList.load`: `file` is None when the path does not exist. Builds
     * the store `Decode` describes, or raises what it reports.
     */
    static method Load(file: Option<Document>) returns (r: Result<TodoList, Error>)
      ensures Decode(file).Err? ==> r == Err(Decode(file).error)
      ensures Decode(file).Ok? ==>
                && r.Ok? && fresh(r.value)
                && r.value.items == Decode(file).value.items
                && r.value.nextId == Decode(file).value.nextId
    {
      match Decode(file)
      case Err(e) =>
        r := Err(e);
      case Ok(s) =>
        var store := new TodoList(s.items, s.nextId);
        r := Ok(store);
    }
  }
}

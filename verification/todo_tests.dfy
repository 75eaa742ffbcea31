/** The scenarios of tiny-todo/tests/test_todo.py, replayed against the model. */
module TodoTests {
  import opened Wrappers
  import opened Text
  import opened Todo

  /** test_add_and_list_open: ids 1 and 2, both open, in insertion order. */
  method AddAndListOpen() {
    var tl := new TodoList([], 1);
    StripStripped("write tests");
    StripStripped("wire CI");
    var a := tl.Add(Some("write tests"));
    var b := tl.Add(Some("wire CI"));
    assert a == Ok(1) && b == Ok(2);
    var writeTests, wireCI := Item(1, "write tests", false), Item(2, "wire CI", false);
    assert tl.items == [writeTests] + [wireCI];
    OpenItemsAppend([writeTests], [wireCI]);
    OpenItemsSingle(writeTests);
    OpenItemsSingle(wireCI);
    assert tl.ListOpen() == [writeTests, wireCI];
  }

  /**
   * test_complete_and_persistence, first half: from the store two adds
   * leave behind (as in AddAndListOpen), complete item 1 once, then again.
   */
  method CompleteOnceThenAgain() {
    var taskA, taskB := Item(1, "task A", false), Item(2, "task B", false);
    var tl := new TodoList([taskA, taskB], 3);
    var closedA := taskA.(done := true);
    MarkCompleteAt([taskA, taskB], 1, 0);
    var first := tl.Complete(1);
    assert first && tl.items == [closedA, taskB];
    CompleteTwice([taskA, taskB], 1);
    var second := tl.Complete(1);
    assert !second && tl.items == [closedA, taskB] && tl.nextId == 3;
  }

  /** test_complete_and_persistence, second half: save the store above and load it back. */
  method SaveAndReload() {
    var taskA, taskB := Item(1, "task A", true), Item(2, "task B", false);
    var tl := new TodoList([taskA, taskB], 3);
    var doc := tl.ToDocument();
    var loaded := TodoList.Load(Some(doc));
    assert loaded.Ok?;
    var tl2 := loaded.value;
    assert tl2.ListAll() == [taskA, taskB];
    assert (set it | it in tl2.ListAll() :: it.id) == {1, 2};
    assert [taskA, taskB] == [taskA] + [taskB];
    OpenItemsAppend([taskA], [taskB]);
    OpenItemsSingle(taskA);
    OpenItemsSingle(taskB);
    assert tl2.ListOpen() == [taskB];
  }

  /** test_add_empty_raises: whitespace-only text is rejected and nothing changes. */
  method AddEmptyRaises() {
    var tl := new TodoList([], 1);
    assert AllSpace("   ");
    StripEmptyIff("   ");
    var r := tl.Add(Some("   "));
    assert r == Err(ValueError) && tl.items == [] && tl.nextId == 1;
  }

  /** `add(None)` is rejected the same way. */
  method AddNoneRaises() {
    var tl := new TodoList([], 1);
    var r := tl.Add(None);
    assert r == Err(ValueError) && tl.items == [] && tl.nextId == 1;
  }

  /**
   * Loading a path that does not exist gives the empty store with counter 1,
   * the state AddAndListOpen starts from (where the first id issued is 1).
   */
  method LoadMissingFile() {
    var loaded := TodoList.Load(None);
    assert loaded.Ok?;
    var tl := loaded.value;
    assert tl.ListAll() == [] && tl.nextId == 1;
  }
}

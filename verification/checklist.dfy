/**
 * The checklist screen of src/screens/FeatureThreeScreen.tsx. The component
 * keeps two pieces of state, the list `items` and the text-field contents
 * `newItem`; its handlers replace them with lists computed by spreading,
 * `map` and `filter`. Those list computations are the functions below, the
 * component the class `ChecklistScreen`.
 */
module Checklist {
  import opened JsString

  datatype ChecklistItem = ChecklistItem(id: string, text: string, completed: bool)

  /** The item `addItem` creates from the text field, under the id it is given. */
  function NewItem(id: string, input: string): (item: ChecklistItem)
    ensures item.id == id && !item.completed
    ensures |item.text| <= |input|
    ensures item.text == "" <==> AddButtonDisabled(input)
    ensures item.text == "" || (!IsWhitespace(item.text[0]) && !IsWhitespace(item.text[|item.text| - 1]))
  {
    ChecklistItem(id, Trim(input), false)
  }

  /** The add button's `disabled` flag: the input trims to the empty string. */
  predicate AddButtonDisabled(input: string)
    ensures AddButtonDisabled(input) <==> AllWhitespace(input)
  {
    Trim(input) == ""
  }

  /** `items.map(...)` of `toggleItem`: flip `completed` on every item carrying `id`. */
  function Toggled(items: seq<ChecklistItem>, id: string): (r: seq<ChecklistItem>)
    ensures |r| == |items|
    ensures forall i :: 0 <= i < |items| && items[i].id != id ==> r[i] == items[i]
    ensures forall i :: 0 <= i < |items| && items[i].id == id ==>
              r[i].id == id && r[i].text == items[i].text && r[i].completed != items[i].completed
  {
    if items == [] then []
    else
      var item := items[0];
      [if item.id == id then item.(completed := !item.completed) else item] + Toggled(items[1..], id)
  }

  /** `items.filter(...)` of `deleteItem`: keep the items not carrying `id`. */
  function Deleted(items: seq<ChecklistItem>, id: string): (r: seq<ChecklistItem>)
    ensures |r| <= |items|
    ensures forall i :: 0 <= i < |r| ==> r[i].id != id
  {
    if items == [] then []
    else (if items[0].id == id then [] else [items[0]]) + Deleted(items[1..], id)
  }

  /**
   * Deletion removes exactly the items carrying `id`: every other item keeps
   * its number of occurrences.
   */
  lemma {:induction false} DeletedContents(items: seq<ChecklistItem>, id: string)
    ensures forall x :: multiset(Deleted(items, id))[x] == if x.id == id then 0 else multiset(items)[x]
  {
    if items != [] {
      DeletedContents(items[1..], id);
      assert items == [items[0]] + items[1..];
    }
  }

  /** Toggling the same id twice gives back the original list. */
  lemma ToggleTwice(items: seq<ChecklistItem>, id: string)
    ensures Toggled(Toggled(items, id), id) == items
  {
  }

  /**
   * Deletion keeps order: deleting from a concatenation is deleting from each
   * part. With the singleton case this pins `Deleted` down as the order-preserving filter.
   */
  lemma {:induction false} DeletedConcat(a: seq<ChecklistItem>, b: seq<ChecklistItem>, id: string)
    ensures Deleted(a + b, id) == Deleted(a, id) + Deleted(b, id)
  {
    if a == [] {
      assert a + b == b;
    } else {
      var head: seq<ChecklistItem> := if a[0].id == id then [] else [a[0]];
      assert (a + b)[0] == a[0];
      assert (a + b)[1..] == a[1..] + b;
      assert Deleted(a + b, id) == head + Deleted(a[1..] + b, id);
      DeletedConcat(a[1..], b, id);
      assert Deleted(a, id) == head + Deleted(a[1..], id);
      assert head + (Deleted(a[1..], id) + Deleted(b, id)) == (head + Deleted(a[1..], id)) + Deleted(b, id);
    }
  }

  /** Deleting an id no item carries leaves the list as it was. */
  lemma {:induction false} DeleteAbsentIsNoOp(items: seq<ChecklistItem>, id: string)
    requires forall i :: 0 <= i < |items| ==> items[i].id != id
    ensures Deleted(items, id) == items
  {
    if items != [] {
      DeleteAbsentIsNoOp(items[1..], id);
    }
  }

  /** Deleting the same id twice is deleting it once. */
  lemma DeleteIdempotent(items: seq<ChecklistItem>, id: string)
    ensures Deleted(Deleted(items, id), id) == Deleted(items, id)
  {
    DeleteAbsentIsNoOp(Deleted(items, id), id);
  }

  /** The component's state and its handlers. */
  class ChecklistScreen {
    var items: seq<ChecklistItem>
    var newItem: string

    /** `useState('')` and `useState<ChecklistItem[]>([])`. */
    constructor ()
      ensures items == [] && newItem == ""
    {
      items := [];
      newItem := "";
    }

    /** `onChangeText={setNewItem}`: the text field's contents become `text`. */
    method ChangeText(text: string)
      modifies this
      ensures newItem == text && items == old(items)
    {
      newItem := text;
    }

    /**
     * `addItem`, with `Date.now().toString()` passed in as `id`. A blank input
     * changes nothing; otherwise exactly one item is appended, made of the
     * trimmed text, not completed, and the text field is cleared. The state is
     * left unchanged exactly when the add button is disabled.
     */
    method AddItem(id: string)
      modifies this
      ensures AddButtonDisabled(old(newItem)) ==> items == old(items) && newItem == old(newItem)
      ensures !AddButtonDisabled(old(newItem)) ==>
                |items| == |old(items)| + 1 && items[..|old(items)|] == old(items)
                && items[|old(items)|] == NewItem(id, old(newItem)) && newItem == ""
      ensures (items == old(items) && newItem == old(newItem)) <==> AddButtonDisabled(old(newItem))
    {
      if Trim(newItem) != "" {
        items := items + [NewItem(id, newItem)];
        newItem := "";
      }
    }

    /** `toggleItem(id)`. */
    method ToggleItem(id: string)
      modifies this
      ensures items == Toggled(old(items), id) && newItem == old(newItem)
    {
      items := Toggled(items, id);
    }

    /** `deleteItem(id)`. */
    method DeleteItem(id: string)
      modifies this
      ensures items == Deleted(old(items), id) && newItem == old(newItem)
    {
      items := Deleted(items, id);
    }
  }
}

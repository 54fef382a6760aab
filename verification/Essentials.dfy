/** src/components/app/essentials-manager.tsx: the monthly shopping list.
    The form's schema, the item `onSubmit` builds, what `deleteItem` does
    and the `totalCost` fold. The signed-in user is an optional uid and the
    list is the optional value of the collection subscription; the
    Firestore writes and the toasts are described as values. */
module Essentials {
  import opened Wrappers

  /** An item of the list as the subscription delivers it. */
  datatype EssentialItem = EssentialItem(id: string, name: string, quantity: real, price: Option<real>)

  /** The values of the add form. */
  datatype FormValues = FormValues(name: string, quantity: real, price: Option<real>)

  /** The document `onSubmit` adds. */
  datatype NewItem = NewItem(userId: string, name: string, quantity: real, price: real)

  /** `formSchema`: a name of at least two characters, a quantity of at
      least 1 and, when given, a price of at least 0. */
  predicate FormValid(v: FormValues) {
    |v.name| >= 2 && v.quantity >= 1.0 && (v.price.Some? ==> v.price.value >= 0.0)
  }

  /** What one item adds to the total: its price, or 0 without one, times
      its quantity. */
  function Cost(item: EssentialItem): real {
    item.price.GetOr(0.0) * item.quantity
  }

  /** The `reduce` over a list, from the first item on. */
  function Sum(items: seq<EssentialItem>): real {
    if items == [] then 0.0 else Sum(items[..|items| - 1]) + Cost(items[|items| - 1])
  }

  /** `totalCost`: the fold over the list, or over `[]` while none is
      loaded. */
  function TotalCost(items: Option<seq<EssentialItem>>): real {
    Sum(items.GetOr([]))
  }

  /** No list and an empty list both total 0. */
  lemma TotalCostOfNothing()
    ensures TotalCost(None) == 0.0 && TotalCost(Some([])) == 0.0
  {
  }

  /** Adding an item raises the total by its price times its quantity. */
  lemma TotalCostAppend(items: seq<EssentialItem>, item: EssentialItem)
    ensures TotalCost(Some(items + [item])) == TotalCost(Some(items)) + item.price.GetOr(0.0) * item.quantity
  {
    assert (items + [item])[..|items|] == items;
  }

  /** An item without a price leaves the total as it is. */
  lemma UnpricedAddsNothing(items: seq<EssentialItem>, item: EssentialItem)
    requires item.price == None
    ensures TotalCost(Some(items + [item])) == TotalCost(Some(items))
  {
    TotalCostAppend(items, item);
  }

  /** The total of two lists one after the other is the sum of their
      totals, so the order in which items arrive does not matter. */
  lemma {:induction false} SumConcat(a: seq<EssentialItem>, b: seq<EssentialItem>)
    ensures Sum(a + b) == Sum(a) + Sum(b)
    decreases |b|
  {
    if b == [] {
      assert a + b == a;
    } else {
      var n := |b| - 1;
      SumConcat(a, b[..n]);
      assert (a + b)[..|a + b| - 1] == a + b[..n];
      assert (a + b)[|a + b| - 1] == b[n];
    }
  }

  /** An item that passed the schema: positive quantity, price absent or
      not negative. */
  predicate ItemValid(item: EssentialItem) {
    FormValid(FormValues(item.name, item.quantity, item.price))
  }

  /** Validated items never total below 0. */
  lemma {:induction false} TotalOfValidItems(items: seq<EssentialItem>)
    requires forall k :: 0 <= k < |items| ==> ItemValid(items[k])
    ensures TotalCost(Some(items)) >= 0.0
    decreases |items|
  {
    if items != [] {
      var n := |items| - 1;
      TotalOfValidItems(items[..n]);
      assert ItemValid(items[n]);
      assert Cost(items[n]) >= 0.0;
    }
  }

  /** `onSubmit`: nothing without a signed-in user; otherwise the document
      for the user, with the form's name and quantity and the price or 0. */
  function OnSubmit(user: Option<string>, v: FormValues): (r: Option<NewItem>)
    ensures r.None? <==> user.None?
    ensures r.Some? ==> r.value.userId == user.value && r.value.name == v.name && r.value.quantity == v.quantity
    ensures r.Some? ==> r.value.price == (if v.price.Some? then v.price.value else 0.0)
    ensures r.Some? && FormValid(v) ==> r.value.price >= 0.0 && r.value.quantity >= 1.0
  {
    if user.None? then None
    else Some(NewItem(user.value, v.name, v.quantity, v.price.GetOr(0.0)))
  }

  /** The stored document, read back under the id the store gives it. */
  function Stored(n: NewItem, id: string): EssentialItem {
    EssentialItem(id, n.name, n.quantity, Some(n.price))
  }

  /** A submitted valid form adds a valid item, and the total grows by
      exactly what the form's price times its quantity comes to. */
  lemma SubmitRaisesTotal(items: seq<EssentialItem>, uid: string, v: FormValues, id: string)
    requires FormValid(v)
    ensures OnSubmit(Some(uid), v).Some?
    ensures ItemValid(Stored(OnSubmit(Some(uid), v).value, id))
    ensures TotalCost(Some(items + [Stored(OnSubmit(Some(uid), v).value, id)]))
         == TotalCost(Some(items)) + v.price.GetOr(0.0) * v.quantity
  {
    TotalCostAppend(items, Stored(OnSubmit(Some(uid), v).value, id));
  }

  /** `items.find((item) => item.id === id)?.name`: the name of the first
      item with the id. */
  function FindName(items: seq<EssentialItem>, id: string): (r: Option<string>)
    ensures r.None? <==> forall k :: 0 <= k < |items| ==> items[k].id != id
    ensures r.Some? ==> exists k :: 0 <= k < |items| && items[k].id == id && items[k].name == r.value
                          && forall j :: 0 <= j < k ==> items[j].id != id
  {
    if items == [] then None
    else if items[0].id == id then Some(items[0].name)
    else
      var r := FindName(items[1..], id);
      assert forall k :: 1 <= k < |items| ==> items[k] == items[1..][k - 1];
      r
  }

  /** What `deleteItem` does: the document it deletes, as (uid, id), and
      the name its toast announces. */
  datatype DeleteEffect = DeleteEffect(deleted: Option<(string, string)>, toast: Option<string>)

  /** `deleteItem(id)`: nothing without a user or a loaded list; otherwise
      the document is deleted whether or not the list holds it, and the
      toast names the first item with the id when its name is not
      empty. */
  function DeleteItem(user: Option<string>, items: Option<seq<EssentialItem>>, id: string): (r: DeleteEffect)
    ensures user.None? || items.None? ==> r == DeleteEffect(None, None)
    ensures user.Some? && items.Some? ==> r.deleted == Some((user.value, id))
    ensures r.toast.Some? <==>
      (&& user.Some? && items.Some?
       && exists k :: && 0 <= k < |items.value|
                     && items.value[k].id == id && items.value[k].name != ""
                     && forall j :: 0 <= j < k ==> items.value[j].id != id)
    ensures r.toast.Some? ==>
      exists k :: 0 <= k < |items.value| && items.value[k].id == id && items.value[k].name == r.toast.value
  {
    if user.None? || items.None? then DeleteEffect(None, None)
    else
      var name := FindName(items.value, id);
      DeleteEffect(Some((user.value, id)), if name.Some? && name.value != "" then name else None)
  }
}

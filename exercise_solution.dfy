/** The arbitrary-inventory builder of the Kani tutorial's arbitrary-variables
    exercise. Kani's nondeterministic choices are the parameters: the number
    of inserts `size` and, for each insert, the product id and the quantity. */
module InventoryBuilder {
  import opened Machine
  import opened Inventories

  /** The map after inserting `quantities[j]` under `ids[j]` for each `j` in
      order, starting from an empty map. */
  function Inserted(ids: seq<ProductId>, quantities: seq<NonZeroU32>): (m: map<ProductId, NonZeroU32>)
    requires |ids| == |quantities|
  {
    if |ids| == 0 then map[]
    else Inserted(ids[..|ids| - 1], quantities[..|ids| - 1])[ids[|ids| - 1] := quantities[|ids| - 1]]
  }

  /** The keys are exactly the inserted ids. */
  lemma {:induction false} InsertedKeys(ids: seq<ProductId>, quantities: seq<NonZeroU32>)
    requires |ids| == |quantities|
    ensures forall id :: id in Inserted(ids, quantities) <==> id in ids
  {
    if |ids| > 0 {
      var n := |ids| - 1;
      InsertedKeys(ids[..n], quantities[..n]);
      forall id ensures id in ids <==> id in ids[..n] || id == ids[n] {
        if id in ids {
          var j :| 0 <= j < |ids| && ids[j] == id;
          if j < n { assert ids[..n][j] == id; }
        }
      }
    }
  }

  /** Each id holds the quantity of its latest insert. */
  lemma {:induction false} InsertedLatest(ids: seq<ProductId>, quantities: seq<NonZeroU32>)
    requires |ids| == |quantities|
    ensures forall j :: 0 <= j < |ids| && (forall l :: j < l < |ids| ==> ids[l] != ids[j]) ==>
      ids[j] in Inserted(ids, quantities) && Inserted(ids, quantities)[ids[j]] == quantities[j]
  {
    if |ids| > 0 {
      var n := |ids| - 1;
      InsertedLatest(ids[..n], quantities[..n]);
      forall j | 0 <= j < |ids| && (forall l :: j < l < |ids| ==> ids[l] != ids[j])
        ensures ids[j] in Inserted(ids, quantities) && Inserted(ids, quantities)[ids[j]] == quantities[j]
      {
        if j < n {
          assert ids[..n][j] == ids[j] && quantities[..n][j] == quantities[j];
          assert forall l :: j < l < n ==> ids[..n][l] != ids[..n][j];
        }
      }
    }
  }

  /** There are at most as many keys as inserts. */
  lemma {:induction false} InsertedSize(ids: seq<ProductId>, quantities: seq<NonZeroU32>)
    requires |ids| == |quantities|
    ensures |Inserted(ids, quantities)| <= |ids|
  {
    if |ids| > 0 {
      var n := |ids| - 1;
      InsertedSize(ids[..n], quantities[..n]);
      var m := Inserted(ids[..n], quantities[..n]);
      assert m[ids[n] := quantities[n]].Keys == m.Keys + {ids[n]};
    }
  }

  /** `any_inventory(bound)`: `size <= bound` inserts into an empty map, in a
      loop. */
  method AnyInventory(bound: u32, size: u32, ids: seq<ProductId>, quantities: seq<NonZeroU32>)
    returns (inventory: Inventory)
    requires size <= bound
    requires |ids| == size && |quantities| == size
    ensures fresh(inventory)
    ensures inventory.inner == Inserted(ids, quantities)
    ensures |inventory.inner| <= bound
    ensures bound == 0 ==> inventory.inner == map[]
  {
    var inner: map<ProductId, NonZeroU32> := map[];
    for i := 0 to size
      invariant inner == Inserted(ids[..i], quantities[..i])
    {
      assert ids[..i + 1][..i] == ids[..i] && quantities[..i + 1][..i] == quantities[..i];
      inner := inner[ids[i] := quantities[i]];
    }
    assert ids[..size] == ids && quantities[..size] == quantities;
    InsertedSize(ids, quantities);
    inventory := new Inventory.FromMap(inner);
  }

  /** The harness `safe_update_with_any`: on an inventory from
      `any_inventory(0)`, an update is read back unchanged. */
  method SafeUpdateWithAny(size: u32, ids: seq<ProductId>, quantities: seq<NonZeroU32>,
                           id: ProductId, quantity: NonZeroU32)
    returns (got: Option<NonZeroU32>)
    requires size <= 0
    requires |ids| == size && |quantities| == size
    ensures got == Some(quantity)
  {
    var inventory := AnyInventory(0, size, ids, quantities);
    inventory.Update(id, quantity);
    got := inventory.Get(id);
  }
}

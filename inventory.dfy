/** The `Inventory` of the Kani tutorial's arbitrary-variables chapter: a
    map from product ids to quantities that are never zero. */
module Inventories {
  import opened Machine

  type ProductId = u32

  class Inventory {
    /** The `VecMap` of the source, with insert and lookup semantics. */
    var inner: map<ProductId, NonZeroU32>

    /** `Inventory { inner: VecMap::new() }`. */
    constructor ()
      ensures inner == map[]
    {
      inner := map[];
    }

    /** `Inventory { inner }` around a map built elsewhere. */
    constructor FromMap(m: map<ProductId, NonZeroU32>)
      ensures inner == m
    {
      inner := m;
    }

    /** Records `newQuantity` for `id`, replacing any earlier quantity and
        leaving every other product as it was. */
    method Update(id: ProductId, newQuantity: NonZeroU32)
      modifies this
      ensures inner == old(inner)[id := newQuantity]
      ensures Get(id) == Some(newQuantity)
      ensures forall other :: other != id ==> Get(other) == old(Get(other))
    {
      inner := inner[id := newQuantity];
    }

    /** The quantity recorded for `id`, if there is one. */
    function Get(id: ProductId): (r: Option<NonZeroU32>)
      reads this
      ensures r.Some? <==> id in inner
      ensures r.Some? ==> inner[id] == r.value
    {
      if id in inner then Some(inner[id]) else None
    }
  }

  /** The harness `safe_update`: on a fresh inventory, an update is read back
      unchanged. */
  method SafeUpdate(id: ProductId, quantity: NonZeroU32) returns (got: Option<NonZeroU32>)
    ensures got == Some(quantity)
  {
    var inventory := new Inventory();
    inventory.Update(id, quantity);
    got := inventory.Get(id);
  }

  /** A fresh inventory knows no product. */
  method EmptyInventoryGet(id: ProductId) returns (got: Option<NonZeroU32>)
    ensures got == None
  {
    var inventory := new Inventory();
    got := inventory.Get(id);
  }
}

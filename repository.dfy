/** Id-keyed stores standing in for the persistence layer: each repository is
    a map from id to the stored object, with an id generator for new rows. */
module Repository {
  import opened Domain

  class ItemRepository {
    var byId: map<int, Item>
    var nextId: int

    /** Every stored item carries its own key as id, and every key is below
        the next id to hand out. In particular no item is stored twice. */
    ghost predicate Valid()
      reads this, byId.Values
    {
      forall k :: k in byId ==> byId[k].id == Some(k) && k < nextId
    }

    constructor ()
      ensures Valid() && byId == map[]
    {
      byId := map[];
      nextId := 1;
    }

    /** Stores an item. A new item (no id yet) is persisted under a fresh id;
        an item that already has an id is merged: every field of the stored
        item with that id is overwritten with the given item's fields. */
    method Save(item: Item)
      requires Valid()
      requires item.id.Some? ==> item.id.value in byId
      modifies this, item`id,
               if item.id.Some? then {byId[item.id.value]} else {}
      ensures Valid()
      ensures old(item.id).None? ==>
                && byId == old(byId)[old(nextId) := item]
                && old(nextId) !in old(byId)
                && item.Record() == old(item.Record()).(id := Some(old(nextId)))
      ensures old(item.id).Some? ==>
                && byId == old(byId)
                && byId[old(item.id).value].Record() == old(item.Record())
                && item.Record() == old(item.Record())
    {
      if item.id.None? {
        var id := nextId;
        item.id := Some(id);
        byId := byId[id := item];
        nextId := nextId + 1;
      } else {
        var managed := byId[item.id.value];
        assert forall k :: k in byId ==> byId[k].id == Some(k);
        managed.name := item.name;
        managed.price := item.price;
        managed.stockQuantity := item.stockQuantity;
        managed.kind := item.kind;
      }
    }

    /** The item stored under `id`, or null when there is none. */
    method FindOne(id: int) returns (r: Item?)
      ensures id in byId ==> r == byId[id]
      ensures id !in byId ==> r == null
    {
      r := if id in byId then byId[id] else null;
    }
  }

  class MemberRepository {
    var byId: map<int, Member>
    var nextId: int

    ghost predicate Valid()
      reads this, byId.Values
    {
      forall k :: k in byId ==> byId[k].id == Some(k) && k < nextId
    }

    constructor ()
      ensures Valid() && byId == map[]
    {
      byId := map[];
      nextId := 1;
    }

    /** Persists a new member under a fresh id and returns that id. */
    method Save(member: Member) returns (id: int)
      requires Valid() && member.id == None
      modifies this, member`id
      ensures Valid()
      ensures id !in old(byId) && byId == old(byId)[id := member] && member.id == Some(id)
    {
      id := nextId;
      member.id := Some(id);
      byId := byId[id := member];
      nextId := nextId + 1;
    }
  }

  class OrderRepository {
    var byId: map<int, Order>
    var nextId: int

    ghost predicate Valid()
      reads this, byId.Values
    {
      forall k :: k in byId ==> byId[k].id == Some(k) && k < nextId
    }

    constructor ()
      ensures Valid() && byId == map[]
    {
      byId := map[];
      nextId := 1;
    }

    /** Persists a new order under a fresh id. */
    method Save(order: Order)
      requires Valid() && order.id == None
      modifies this, order`id
      ensures Valid()
      ensures order.id == Some(old(nextId)) && old(nextId) !in old(byId)
      ensures byId == old(byId)[old(nextId) := order]
    {
      var id := nextId;
      order.id := Some(id);
      byId := byId[id := order];
      nextId := nextId + 1;
    }

    /** The order stored under `id`, or null when there is none. */
    method FindOne(id: int) returns (r: Order?)
      ensures id in byId ==> r == byId[id]
      ensures id !in byId ==> r == null
    {
      r := if id in byId then byId[id] else null;
    }
  }
}

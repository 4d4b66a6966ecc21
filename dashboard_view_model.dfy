/**
 * The dashboard's list of networks and the selected one: adding a network
 * selects it; deleting removes the selected network and selects the first
 * that remains.
 */
module Dashboard {
  import opened Wrappers
  import opened Strings
  import opened NetworkModels

  /** `NetworkItem`: an id and a display name. */
  datatype NetworkItem = NetworkItem(id: Uuid, name: string)

  /** No two items share an id. */
  ghost predicate UniqueIds(items: seq<NetworkItem>) {
    forall i, j :: 0 <= i < j < |items| ==> items[i].id != items[j].id
  }

  /** The first item whose id equals `id`; none when `id` is nil or matches nothing. */
  function FirstWithId(items: seq<NetworkItem>, id: Option<Uuid>): (r: Option<NetworkItem>)
    ensures r.Some? ==> id.Some? && r.value in items && r.value.id == id.value
    ensures r.None? ==> id.None? || forall x :: x in items ==> x.id != id.value
    ensures r.Some? ==> exists k :: (0 <= k < |items| && items[k] == r.value &&
      forall j :: 0 <= j < k ==> items[j].id != id.value)
  {
    if items == [] || id.None? then None
    else if items[0].id == id.value then Some(items[0])
    else
      var rest := FirstWithId(items[1..], id);
      assert forall x :: x in items[1..] ==> x in items;
      if rest.Some? then
        ghost var k :| (0 <= k < |items[1..]| && items[1..][k] == rest.value &&
          forall j :: 0 <= j < k ==> items[1..][j].id != id.value);
        assert items[k + 1] == rest.value;
        assert forall j :: 0 <= j < k + 1 ==> items[j].id != id.value by {
          forall j | 0 <= j < k + 1
            ensures items[j].id != id.value
          {
            if j > 0 {
              assert items[j] == items[1..][j - 1];
            }
          }
        }
        rest
      else rest
  }

  /** The keep-predicate of `removeAll { $0.id == id }`. */
  function IdIsNot(id: Uuid): NetworkItem -> bool {
    (x: NetworkItem) => x.id != id
  }

  /** The name a new network gets: the given one, or `New Network` when it is empty. */
  function DisplayName(name: string): (r: string)
    ensures r != []
    ensures name != [] ==> r == name
    ensures name == [] ==> r == "New Network"
  {
    if name == [] then "New Network" else name
  }

  /**
   * `DashboardViewModel`: the networks in display order, the selected id, and
   * the connection flags the view shows.
   */
  class DashboardViewModel {
    var networks: seq<NetworkItem>
    var selectedNetworkId: Option<Uuid>
    var isConnected: bool
    var isPending: bool

    ghost predicate Valid()
      reads this
    {
      UniqueIds(networks)
    }

    /** The two sample networks, nothing selected, not connected, not pending; the ids are fresh UUIDs. */
    constructor (firstId: Uuid, secondId: Uuid)
      requires firstId != secondId
      ensures Valid()
      ensures networks == [NetworkItem(firstId, "Test"), NetworkItem(secondId, "Test X")]
      ensures selectedNetworkId.None? && !isConnected && !isPending
    {
      networks := [NetworkItem(firstId, "Test"), NetworkItem(secondId, "Test X")];
      selectedNetworkId := None;
      isConnected := false;
      isPending := false;
    }

    /** `selectedNetwork`. */
    function SelectedNetwork(): (r: Option<NetworkItem>)
      reads this
      ensures r.Some? ==> r.value in networks && selectedNetworkId == Some(r.value.id)
    {
      FirstWithId(networks, selectedNetworkId)
    }

    /**
     * `newNetwork(name:)`: append one item under a fresh id and select it.
     * `newId` stands for the `UUID()` the item is created with.
     */
    method NewNetwork(name: string, newId: Uuid)
      requires Valid()
      requires forall x :: x in networks ==> x.id != newId
      modifies this
      ensures Valid()
      ensures networks == old(networks) + [NetworkItem(newId, DisplayName(name))]
      ensures selectedNetworkId == Some(newId)
      ensures SelectedNetwork() == Some(NetworkItem(newId, DisplayName(name)))
      ensures isConnected == old(isConnected) && isPending == old(isPending)
    {
      var item := NetworkItem(newId, DisplayName(name));
      networks := networks + [item];
      selectedNetworkId := Some(newId);
      SelectsAppended(old(networks), item);
    }

    /**
     * `deleteNetwork()`: with a selection, remove every item with its id and
     * select the first remaining item, or nothing when none remains.
     */
    method DeleteNetwork()
      requires Valid()
      modifies this
      ensures Valid()
      ensures old(selectedNetworkId).None? ==> networks == old(networks) && selectedNetworkId.None?
      ensures old(selectedNetworkId).Some? ==> (
        && networks == Filter(old(networks), IdIsNot(old(selectedNetworkId).value))
        && selectedNetworkId == (if networks == [] then None else Some(networks[0].id)))
      ensures old(selectedNetworkId).Some? ==> (SelectedNetwork() == if networks == [] then None else Some(networks[0]))
      ensures isConnected == old(isConnected) && isPending == old(isPending)
    {
      if selectedNetworkId.None? {
        return;
      }
      var selected := selectedNetworkId.value;
      networks := Filter(networks, IdIsNot(selected));
      FilterKeepsUniqueIds(old(networks), IdIsNot(selected));
      if networks != [] {
        assert FirstWithId(networks, Some(networks[0].id)) == Some(networks[0]);
      }
      selectedNetworkId := if networks == [] then None else Some(networks[0].id);
    }
  }

  /** A freshly appended item is the one its id selects. */
  lemma SelectsAppended(items: seq<NetworkItem>, item: NetworkItem)
    requires forall x :: x in items ==> x.id != item.id
    ensures FirstWithId(items + [item], Some(item.id)) == Some(item)
  {
    var r := FirstWithId(items + [item], Some(item.id));
    assert item in items + [item];
    assert forall x :: x in items + [item] && x.id == item.id ==> x == item;
  }

  /** Filtering keeps ids unique. */
  lemma {:induction false} FilterKeepsUniqueIds(items: seq<NetworkItem>, keep: NetworkItem -> bool)
    requires UniqueIds(items)
    ensures UniqueIds(Filter(items, keep))
  {
    if items != [] {
      FilterKeepsUniqueIds(items[1..], keep);
      if keep(items[0]) {
        UniqueCons(items[0], Filter(items[1..], keep), items[1..]);
      }
    }
  }

  /** An item whose id no item of `pool` has, in front of unique items drawn from `pool`, keeps ids unique. */
  lemma UniqueCons(h: NetworkItem, rest: seq<NetworkItem>, pool: seq<NetworkItem>)
    requires UniqueIds(rest)
    requires forall x :: x in rest ==> x in pool
    requires forall k :: 0 <= k < |pool| ==> pool[k].id != h.id
    ensures UniqueIds([h] + rest)
  {
    var r := [h] + rest;
    forall i, j | 0 <= i < j < |r|
      ensures r[i].id != r[j].id
    {
      if i == 0 {
        assert r[j] in pool;
      } else {
        assert r[i] == rest[i - 1] && r[j] == rest[j - 1];
      }
    }
  }

  /**
   * Deleting removes exactly the items with the id and keeps the others in
   * their order: it distributes over concatenation and leaves a list without
   * the id unchanged.
   */
  lemma DeleteKeepsOthersInOrder(a: seq<NetworkItem>, b: seq<NetworkItem>, id: Uuid)
    ensures Filter(a + b, IdIsNot(id)) == Filter(a, IdIsNot(id)) + Filter(b, IdIsNot(id))
    ensures forall x :: x in Filter(a, IdIsNot(id)) <==> x in a && x.id != id
    ensures (forall x :: x in a ==> x.id != id) ==> Filter(a, IdIsNot(id)) == a
  {
    FilterConcat(a, b, IdIsNot(id));
    if forall x :: x in a ==> x.id != id {
      FilterAllKept(a, IdIsNot(id));
    }
  }
}

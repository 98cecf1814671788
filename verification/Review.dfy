/** The review queue: a map of items plus the list of their ids in insertion order. */
module Review {
  import opened Prelude

  datatype Status = Pending | Resolved
  datatype Item = Item(id: string, txId: string, status: Status, assignedTo: string,
                       createdAt: int, resolvedAt: Option<int>, resolution: string)
  datatype Error = MissingId | Duplicate | NotFound | AlreadyResolved | InvalidResolution
  datatype Result = Ok(item: Item) | Err(error: Error)
  datatype Queue = Queue(mem: map<string, Item>, order: seq<string>)

  const EMPTY := Queue(map[], [])

  ghost predicate NoDuplicates(s: seq<string>) {
    forall i, j :: 0 <= i < j < |s| ==> s[i] != s[j]
  }

  /** The order list names each key of the map exactly once, and items sit under their own id. */
  ghost predicate Valid(q: Queue) {
    && NoDuplicates(q.order)
    && (forall id :: id in q.mem <==> id in q.order)
    && (forall id :: id in q.mem ==> q.mem[id].id == id)
  }

  function Parking(q: Queue, id: string, txId: string, now: int): (Queue, Result) {
    var item := Item(id, txId, Pending, "", now, None, "");
    if id == "" then (q, Err(MissingId))
    else if id in q.mem then (q, Err(Duplicate))
    else (Queue(q.mem[id := item], q.order + [id]), Ok(item))
  }

  /** The read half of Resolve: the item that will be written back. */
  function Checked(q: Queue, id: string, assignee: string, resolution: string, now: int): Result {
    if resolution != "ALLOW" && resolution != "DENY" then Err(InvalidResolution)
    else if id !in q.mem then Err(NotFound)
    else if q.mem[id].status == Resolved then Err(AlreadyResolved)
    else Ok(q.mem[id].(status := Resolved, assignedTo := assignee, resolution := resolution, resolvedAt := Some(now)))
  }

  /** The write half of Resolve. */
  function Updated(q: Queue, item: Item): (Queue, Result) {
    if item.id in q.mem then (q.(mem := q.mem[item.id := item]), Ok(item)) else (q, Err(NotFound))
  }

  function Resolving(q: Queue, id: string, assignee: string, resolution: string, now: int): (Queue, Result) {
    var r := Checked(q, id, assignee, resolution, now);
    if r.Ok? then Updated(q, r.item) else (q, r)
  }

  /** Items of the listed ids that have the wanted status (`None` wants all), in list order. */
  function Select(mem: map<string, Item>, order: seq<string>, want: Option<Status>): seq<Item>
    requires forall id :: id in order ==> id in mem
  {
    if order == [] then []
    else
      var rest := Select(mem, order[..|order| - 1], want);
      var item := mem[order[|order| - 1]];
      if want == None || want.value == item.status then rest + [item] else rest
  }

  class MemoryStore {
    var mem: map<string, Item>
    var order: seq<string>

    ghost function View(): Queue
      reads this
    {
      Queue(mem, order)
    }

    constructor ()
      ensures View() == EMPTY
    {
      mem, order := map[], [];
    }

    method Put(item: Item) returns (error: Option<Error>)
      requires Valid(View())
      modifies this
      ensures Valid(View())
      ensures error == if item.id == "" then Some(MissingId)
                       else if item.id in old(mem) then Some(Duplicate) else None
      ensures View() == if error.None? then Queue(old(mem)[item.id := item], old(order) + [item.id]) else old(View())
    {
      if item.id == "" {
        return Some(MissingId);
      }
      if item.id in mem {
        return Some(Duplicate);
      }
      mem := mem[item.id := item];
      order := order + [item.id];
      return None;
    }

    method Get(id: string) returns (item: Option<Item>)
      ensures item == Lookup(mem, id)
    {
      item := Lookup(mem, id);
    }

    method List(want: Option<Status>) returns (out: seq<Item>)
      requires Valid(View())
      ensures out == Select(mem, order, want)
      ensures forall k :: 0 <= k < |out| && want.Some? ==> out[k].status == want.value
      ensures forall id :: id in mem && (want.Some? ==> mem[id].status == want.value) ==> mem[id] in out
    {
      out := [];
      for i := 0 to |order|
        invariant out == Select(mem, order[..i], want)
      {
        var item := mem[order[i]];
        assert order[..i + 1][..i] == order[..i];
        if want == None || want.value == item.status {
          out := out + [item];
        }
      }
      assert order[..|order|] == order;
      ListingHoldsTheWanted(mem, order, want);
    }

    method Update(item: Item) returns (ok: bool)
      requires Valid(View())
      modifies this
      ensures Valid(View())
      ensures ok <==> item.id in old(mem)
      ensures View() == if ok then Queue(old(mem)[item.id := item], old(order)) else old(View())
    {
      if item.id !in mem {
        return false;
      }
      mem := mem[item.id := item];
      return true;
    }
  }

  class Service {
    const store: MemoryStore
    const notifies: bool      // a notifier is attached and has an address
    var posted: seq<Item>     // what it was handed, in order; a failed delivery is ignored

    constructor (store: MemoryStore, notifies: bool)
      ensures this.store == store && this.notifies == notifies && posted == []
    {
      this.store := store;
      this.notifies := notifies;
      posted := [];
    }

    method Park(id: string, txId: string, now: int) returns (r: Result)
      requires Valid(store.View())
      modifies store
      ensures Valid(store.View())
      ensures (store.View(), r) == Parking(old(store.View()), id, txId, now)
    {
      if id == "" {
        return Err(MissingId);
      }
      var item := Item(id, txId, Pending, "", now, None, "");
      var error := store.Put(item);
      r := if error.Some? then Err(error.value) else Ok(item);
    }

    method Resolve(id: string, assignee: string, resolution: string, now: int) returns (r: Result)
      requires Valid(store.View())
      modifies store, this
      ensures Valid(store.View())
      ensures (store.View(), r) == Resolving(old(store.View()), id, assignee, resolution, now)
      ensures posted == old(posted) + if r.Ok? && notifies then [store.mem[id]] else []
    {
      if resolution != "ALLOW" && resolution != "DENY" {
        return Err(InvalidResolution);
      }
      var found := store.Get(id);
      if found.None? {
        return Err(NotFound);
      }
      var item := found.value;
      if item.status == Resolved {
        return Err(AlreadyResolved);
      }
      item := item.(status := Resolved);
      item := item.(assignedTo := assignee);
      item := item.(resolution := resolution);
      item := item.(resolvedAt := Some(now));
      var ok := store.Update(item);
      if !ok {
        return Err(NotFound);
      }
      if notifies {
        posted := posted + [item];
      }
      return Ok(item);
    }
  }

  /**
   * A Park is refused exactly for an empty id or one in use; a Resolve, which accepts two resolutions,
   * for another resolution, a missing item or one already resolved, and then changes nothing.
   */
  lemma RefusedExactly(q: Queue, id: string, txId: string, assignee: string, resolution: string, now: int)
    ensures var (p, r) := Parking(q, id, txId, now);
            && (r == Err(MissingId) <==> id == "") && (r == Err(Duplicate) <==> id != "" && id in q.mem)
            && (r.Err? ==> p == q && (r.error == MissingId || r.error == Duplicate))
    ensures var r := Checked(q, id, assignee, resolution, now);
            var valid := resolution == "ALLOW" || resolution == "DENY";
            && (r == Err(InvalidResolution) <==> !valid)
            && (r == Err(NotFound) <==> valid && id !in q.mem)
            && (r == Err(AlreadyResolved) <==> valid && id in q.mem && q.mem[id].status == Resolved)
            && (r.Err? ==> r.error in [InvalidResolution, NotFound, AlreadyResolved]
                           && Resolving(q, id, assignee, resolution, now) == (q, r))
  {}

  /** What a resolved item says: the ids and time of its Park, and who resolved it, how and when. */
  lemma ItemTellsItsHistory(q: Queue, id: string, txId: string, parked: int, assignee: string, resolution: string,
                            resolved: int)
    requires Parking(q, id, txId, parked).1.Ok? && (resolution == "ALLOW" || resolution == "DENY")
    ensures var p := Parking(q, id, txId, parked).0;
            var (t, r) := Resolving(p, id, assignee, resolution, resolved);
            && p.mem[id].status == Pending && p.mem[id].resolvedAt == None && p.mem[id].resolution == ""
            && r.Ok? && Lookup(t.mem, id) == Some(r.item) && t.order == q.order + [id]
            && r.item.id == id && r.item.txId == txId && r.item.createdAt == parked && r.item.status == Resolved
            && r.item.assignedTo == assignee && r.item.resolution == resolution && r.item.resolvedAt == Some(resolved)
  {}

  // ---- Listings ----------------------------------------------------------

  /** The full listing is the insertion order itself. */
  lemma {:induction false} FullListing(mem: map<string, Item>, order: seq<string>)
    requires forall id :: id in order ==> id in mem
    ensures |Select(mem, order, None)| == |order|
    ensures forall i :: 0 <= i < |order| ==> Select(mem, order, None)[i] == mem[order[i]]
  {
    if order != [] {
      FullListing(mem, order[..|order| - 1]);
    }
  }

  /**
   * A listing is the insertion order with the other items left out: `at` gives the position of each
   * listed item in the order, climbing, and covers exactly the positions of the wanted items.
   */
  lemma {:induction false} ListingIsTheFilteredOrder(mem: map<string, Item>, order: seq<string>, want: Option<Status>)
    returns (at: seq<nat>)
    requires forall id :: id in order ==> id in mem
    ensures |at| == |Select(mem, order, want)|
    ensures forall k :: 0 <= k < |at| ==> at[k] < |order| && Select(mem, order, want)[k] == mem[order[at[k]]]
    ensures forall j, k :: 0 <= j < k < |at| ==> at[j] < at[k]
    ensures forall i: nat :: i in at <==> i < |order| && (want.Some? ==> mem[order[i]].status == want.value)
  {
    if order == [] {
      at := [];
    } else {
      var n := |order| - 1;
      at := ListingIsTheFilteredOrder(mem, order[..n], want);
      if want == None || want.value == mem[order[n]].status {
        at := at + [n];
      }
    }
  }

  lemma ListingHoldsTheWanted(mem: map<string, Item>, order: seq<string>, want: Option<Status>)
    requires forall id :: id in order ==> id in mem
    ensures var out := Select(mem, order, want);
            && (forall k :: 0 <= k < |out| && want.Some? ==> out[k].status == want.value)
            && (forall id :: id in order && (want.Some? ==> mem[id].status == want.value) ==> mem[id] in out)
  {
    var at := ListingIsTheFilteredOrder(mem, order, want);
    var out := Select(mem, order, want);
    forall k | 0 <= k < |out| && want.Some? ensures out[k].status == want.value {
      assert at[k] in at;
    }
    forall id | id in order && (want.Some? ==> mem[id].status == want.value) ensures mem[id] in out {
      var i: nat :| i < |order| && order[i] == id;
      var k :| 0 <= k < |at| && at[k] == i;
      assert out[k] == mem[id];
    }
  }

  /** Listing PENDING and listing RESOLVED partition the full listing, multiplicity included. */
  lemma {:induction false} ListingsPartition(mem: map<string, Item>, order: seq<string>)
    requires forall id :: id in order ==> id in mem
    ensures multiset(Select(mem, order, Some(Pending))) + multiset(Select(mem, order, Some(Resolved)))
            == multiset(Select(mem, order, None))
  {
    if order != [] {
      var rest := order[..|order| - 1];
      ListingsPartition(mem, rest);
      CountLast(mem, order, None);
      CountLast(mem, order, Some(Pending));
      CountLast(mem, order, Some(Resolved));
    }
  }

  /** The last item adds itself to a listing exactly when it is wanted. */
  lemma CountLast(mem: map<string, Item>, order: seq<string>, want: Option<Status>)
    requires order != [] && forall id :: id in order ==> id in mem
    ensures var x := mem[order[|order| - 1]];
            multiset(Select(mem, order, want)) == multiset(Select(mem, order[..|order| - 1], want))
              + if want.None? || x.status == want.value then multiset{x} else multiset{}
  {}
}

/**
 * The material side of the backend: the `materiels` master-data table, the
 * `commande_materiel` orders that reference it, and the contract of
 * `select('*').order('id_materiel', {ascending: true})`.
 */
module Material {
  import opened Outcomes
  import opened Orders

  /** A `materiels` row without its key `id_materiel`; `quantite` is nullable. */
  datatype Materiel = Materiel(
    nom: string,
    description: Option<string>,
    quantite: Option<int>,
    dateAjout: string,
    numeroSerie: Option<string>,
    etat: string,
    dateExpiration: Option<string>)

  /** A fetched `materiels` row with its key. */
  datatype Item = Item(id: int, materiel: Materiel)

  /** The two tables the material pages touch: `commande_materiel` and `materiels`. */
  datatype Db = Db(orders: map<int, Order>, materiels: map<int, Materiel>)

  /** The quantity the reconciliation reads: JavaScript's `null + n` is `n`, so a null quantity reads as 0. */
  function QuantityOf(m: Materiel): int {
    match m.quantite
    case None => 0
    case Some(q) => q
  }

  /** Some order of `commande_materiel` references item `id`. */
  ghost predicate Referenced(orders: map<int, Order>, id: int) {
    exists k :: k in orders && orders[k].itemId == id
  }

  /** Keys strictly increasing along the list. */
  predicate Ascending(items: seq<Item>) {
    forall i, j :: 0 <= i < j < |items| ==> items[i].id < items[j].id
  }

  /** `items` lists exactly the rows of `t` whose keys are in `keys`, as stored, by ascending key. */
  predicate ListsById(t: map<int, Materiel>, keys: set<int>, items: seq<Item>) {
    && (forall i :: 0 <= i < |items| ==> items[i].id in keys && items[i].id in t && items[i].materiel == t[items[i].id])
    && (forall k :: k in keys ==> exists i :: 0 <= i < |items| && items[i].id == k)
    && Ascending(items)
  }

  /** The result of `select('*').order('id_materiel', {ascending: true})` on `materiels`. */
  predicate IdListing(t: map<int, Materiel>, items: seq<Item>) {
    ListsById(t, t.Keys, items)
  }

  /** Every non-empty set of keys has a smallest one. */
  lemma {:induction false} SmallestKey(keys: set<int>) returns (k: int)
    requires keys != {}
    ensures k in keys
    ensures forall k' :: k' in keys ==> k <= k'
    decreases keys
  {
    if forall y :: y !in keys {
      assert false;
    }
    var x :| x in keys;
    if keys == {x} {
      k := x;
    } else {
      var m := SmallestKey(keys - {x});
      k := if x <= m then x else m;
      assert forall k' :: k' in keys ==> k' == x || k' in keys - {x};
    }
  }

  /** Any set of keys of the table can be listed by ascending key. */
  lemma {:induction false} ListsByIdExists(t: map<int, Materiel>, keys: set<int>) returns (items: seq<Item>)
    requires keys <= t.Keys
    ensures ListsById(t, keys, items)
    decreases keys
  {
    if keys == {} {
      items := [];
    } else {
      var k := SmallestKey(keys);
      var rest := ListsByIdExists(t, keys - {k});
      items := [Item(k, t[k])] + rest;
      forall k' | k' in keys
        ensures exists i :: 0 <= i < |items| && items[i].id == k'
      {
        if k' == k {
          assert items[0].id == k';
        } else {
          assert k' in keys - {k};
          var i :| 0 <= i < |rest| && rest[i].id == k';
          assert items[i + 1].id == k';
        }
      }
    }
  }

  /** The head of a listing is the smallest key, and its tail lists the remaining keys. */
  lemma ListingHead(t: map<int, Materiel>, keys: set<int>, items: seq<Item>)
    requires ListsById(t, keys, items)
    ensures items == [] <==> keys == {}
    ensures items != [] ==> items[0].id in keys && forall k :: k in keys ==> items[0].id <= k
    ensures items != [] ==> ListsById(t, keys - {items[0].id}, items[1..])
  {
    if items == [] {
      assert forall k :: k !in keys;
    } else {
      var h := items[0].id;
      forall k | k in keys ensures h <= k {
        var i :| 0 <= i < |items| && items[i].id == k;
        assert i == 0 || items[0].id < items[i].id;
      }
      var tail := items[1..];
      forall k | k in keys - {h}
        ensures exists i :: 0 <= i < |tail| && tail[i].id == k
      {
        var i :| 0 <= i < |items| && items[i].id == k;
        assert tail[i - 1].id == k;
      }
    }
  }

  /** Two listings of the same keys are the same list: the ascending select is deterministic. */
  lemma {:induction false} ListsByIdUnique(t: map<int, Materiel>, keys: set<int>, a: seq<Item>, b: seq<Item>)
    requires ListsById(t, keys, a) && ListsById(t, keys, b)
    ensures a == b
    decreases |a|
  {
    ListingHead(t, keys, a);
    ListingHead(t, keys, b);
    if keys != {} {
      assert a[0].id == b[0].id;
      ListsByIdUnique(t, keys - {a[0].id}, a[1..], b[1..]);
      assert a == [a[0]] + a[1..];
      assert b == [b[0]] + b[1..];
    }
  }

  /** The ascending select always has exactly one answer. */
  lemma IdListingExists(t: map<int, Materiel>)
    ensures exists items :: IdListing(t, items)
    ensures forall a: seq<Item>, b: seq<Item> :: IdListing(t, a) && IdListing(t, b) ==> a == b
  {
    var items := ListsByIdExists(t, t.Keys);
    assert IdListing(t, items);
    forall a: seq<Item>, b: seq<Item> | IdListing(t, a) && IdListing(t, b) ensures a == b {
      ListsByIdUnique(t, t.Keys, a, b);
    }
  }

  /** The remote tables, shared by the material order page and the master-data page. */
  class Tables {
    var orders: map<int, Order>
    var materiels: map<int, Materiel>

    constructor (orders: map<int, Order>, materiels: map<int, Materiel>)
      ensures this.orders == orders && this.materiels == materiels
    {
      this.orders := orders;
      this.materiels := materiels;
    }

    function Snapshot(): Db
      reads this
    {
      Db(orders, materiels)
    }
  }
}

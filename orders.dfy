/**
 * Order records shared by the medication and the material order pages: the
 * order states, the messages the reconciliation handlers raise, the failure
 * oracle of the remote calls, the resolved identity, and the contract of the
 * pending-orders query (`etat = 'en attente'`, newest `date_commande` first).
 */
module Orders {
  import opened Outcomes

  /** The values of the `etat` column. */
  const Pending: string := "en attente"
  const Accepted: string := "acceptée"
  const Rejected: string := "refusée"

  /** The role string that makes an identity an administrator. */
  const AdminRole: string := "administrateur"

  /** Messages of the reconciliation handlers (the alert shows "Erreur: " before them). */
  const MissingOrderId: string := "ID de commande manquant"
  const OrderReadFailed: string := "Erreur lors de la récupération de la commande"
  const MissingItemId: string := "ID du matériel manquant ou invalide"
  const StateWriteFailed: string := "Erreur lors de la mise à jour de l'état: "
  const StockReadFailed: string := "Erreur lors de la récupération du stock"
  const InsufficientStock: string := "Stock insuffisant pour cette commande"
  const StockWriteFailed: string := "Erreur lors de la mise à jour du stock"

  /**
   * One row of an order table, without its key. `itemId` is
   * `id_stock_medicament` for medication orders and `id_materiel` for material
   * orders; `date` stands for `date_commande` as an abstract ordered key.
   */
  datatype Order = Order(etat: string, itemId: int, quantite: int, date: int)

  /** An order row together with its key `id_commande`, as a fetched list holds it. */
  datatype Row = Row(id: int, order: Order)

  /**
   * Which remote call of one reconciliation fails: the order read, the state
   * write (with the backend's error message), the stock read, the stock write.
   */
  datatype Faults = Faults(orderRead: bool, stateWrite: Option<string>, stockRead: bool, stockWrite: bool)

  const NoFaults: Faults := Faults(false, None, false, false)

  /**
   * What the session lookup yields: no session, a session whose e-mail has no
   * `User` record, or a user whose role lookup returned `role`.
   */
  datatype Identity = NoSession | NoUserRecord | SignedIn(role: string)

  /** JavaScript truthiness of a numeric identifier: only 0 is falsy here. */
  predicate Falsy(id: int) {
    id == 0
  }

  /** The keys of the orders still waiting for a decision. */
  function PendingKeys(t: map<int, Order>): set<int> {
    set k | k in t && t[k].etat == Pending
  }

  /** No two rows share a key. */
  predicate DistinctIds(rows: seq<Row>) {
    forall i, j :: 0 <= i < j < |rows| ==> rows[i].id != rows[j].id
  }

  /** Rows ordered by `date_commande`, newest first (ties in any order). */
  predicate NewestFirst(rows: seq<Row>) {
    forall i, j :: 0 <= i < j < |rows| ==> rows[i].order.date >= rows[j].order.date
  }

  /** `rows` lists exactly the orders of `t` whose keys are in `keys`, each once, newest first. */
  predicate Listing(t: map<int, Order>, keys: set<int>, rows: seq<Row>) {
    && (forall i :: 0 <= i < |rows| ==> rows[i].id in keys && rows[i].id in t && rows[i].order == t[rows[i].id])
    && (forall k :: k in keys ==> exists i :: 0 <= i < |rows| && rows[i].id == k)
    && DistinctIds(rows)
    && NewestFirst(rows)
  }

  /** The result of `select('*').eq('etat', 'en attente').order('date_commande', {ascending: false})`. */
  predicate PendingListing(t: map<int, Order>, rows: seq<Row>) {
    Listing(t, PendingKeys(t), rows)
  }

  /** Every non-empty set of keys has an order that is at least as recent as all the others. */
  lemma {:induction false} LatestKey(t: map<int, Order>, keys: set<int>) returns (k: int)
    requires keys != {}
    requires keys <= t.Keys
    ensures k in keys
    ensures forall k' :: k' in keys ==> t[k'].date <= t[k].date
    decreases keys
  {
    if forall y :: y !in keys {
      assert false;
    }
    var x :| x in keys;
    if keys == {x} {
      k := x;
    } else {
      var m := LatestKey(t, keys - {x});
      k := if t[x].date >= t[m].date then x else m;
    }
  }

  /** Any set of keys of the table can be listed newest first. */
  lemma {:induction false} ListingExists(t: map<int, Order>, keys: set<int>) returns (rows: seq<Row>)
    requires keys <= t.Keys
    ensures Listing(t, keys, rows)
    decreases keys
  {
    if keys == {} {
      rows := [];
    } else {
      var k := LatestKey(t, keys);
      var rest := ListingExists(t, keys - {k});
      rows := [Row(k, t[k])] + rest;
      forall k' | k' in keys
        ensures exists i :: 0 <= i < |rows| && rows[i].id == k'
      {
        if k' == k {
          assert rows[0].id == k';
        } else {
          assert k' in keys - {k};
          var i :| 0 <= i < |rest| && rest[i].id == k';
          assert rows[i + 1].id == k';
        }
      }
    }
  }

  /**
   * The pending query always has an answer, and every answer holds only
   * pending orders, each as the table stores it.
   */
  lemma PendingListingExists(t: map<int, Order>)
    ensures exists rows :: PendingListing(t, rows)
    ensures forall rows: seq<Row> :: PendingListing(t, rows) ==>
      forall i :: 0 <= i < |rows| ==> rows[i].order.etat == Pending && rows[i].id in t && t[rows[i].id] == rows[i].order
  {
    var rows := ListingExists(t, PendingKeys(t));
    assert PendingListing(t, rows);
  }
}

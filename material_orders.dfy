/**
 * The material order page (`pages/commande_en_cour2.tsx`): the role check,
 * the pending-orders fetch that surfaces its error, and the accept/reject
 * handler that checks the item id, writes the order's `etat`, then moves the
 * item's `quantite` down on acceptance (with no floor) and up on rejection.
 */
module MaterialOrders {
  import opened Outcomes
  import opened Orders
  import opened Material

  /** The tables after one reconciliation, and what it reported. */
  datatype Result = Result(db: Db, outcome: Outcome)

  /** `after` is `before` with nothing changed but the quantity of row `item`, now `value`. */
  ghost predicate Restocked(before: map<int, Materiel>, after: map<int, Materiel>, item: int, value: int) {
    item in before && after == before[item := before[item].(quantite := Some(value))]
  }

  /**
   * The inner `adjustStock(adjustment)`: read the item's quantity, add
   * `adjustment`, write it back; a failed read or write changes nothing.
   */
  function Adjusted(materiels: map<int, Materiel>, item: int, adjustment: int, f: Faults): (r: (map<int, Materiel>, Outcome))
    ensures r.1 == Ok <==> !f.stockRead && !f.stockWrite && item in materiels
    ensures r.1 == Ok ==> Restocked(materiels, r.0, item, QuantityOf(materiels[item]) + adjustment)
    ensures r.1 != Ok ==> r.0 == materiels
    // A failed read, or no such row, reports the read failure.
    ensures f.stockRead || item !in materiels ==> r.1 == Err(StockReadFailed)
    // A failed write after a successful read reports the write failure.
    ensures !f.stockRead && item in materiels && f.stockWrite ==> r.1 == Err(StockWriteFailed)
  {
    if f.stockRead || item !in materiels then (materiels, Err(StockReadFailed))
    else
      var newQuantity := QuantityOf(materiels[item]) + adjustment;
      if f.stockWrite then (materiels, Err(StockWriteFailed))
      else (materiels[item := materiels[item].(quantite := Some(newQuantity))], Ok)
  }

  /** The order `id` exists with a truthy item id, and its read and state write succeed. */
  ghost predicate StateWritten(db: Db, id: int, f: Faults) {
    !Falsy(id) && id in db.orders && !f.orderRead && !Falsy(db.orders[id].itemId) && f.stateWrite.None?
  }

  /**
   * `handleUpdateState(id_commande, nouvelEtat)` on the remote tables: the
   * checks and writes in the order the handler issues them, each remote call
   * failing as `f` says; a failure leaves every earlier write in place.
   */
  function Reconcile(db: Db, id: int, target: string, f: Faults): (r: Result)
    // A falsy id is refused before any remote call.
    ensures Falsy(id) ==> r == Result(db, Err(MissingOrderId))
    // A failed read or a missing order row aborts before any write.
    ensures !Falsy(id) && (f.orderRead || id !in db.orders) ==> r == Result(db, Err(OrderReadFailed))
    // A falsy item id aborts before the state write.
    ensures !Falsy(id) && id in db.orders && !f.orderRead && Falsy(db.orders[id].itemId) ==>
      r == Result(db, Err(MissingItemId))
    // A failed state write writes nothing and reports the backend's message.
    ensures !Falsy(id) && id in db.orders && !f.orderRead && !Falsy(db.orders[id].itemId) && f.stateWrite.Some? ==>
      r == Result(db, Err(StateWriteFailed + f.stateWrite.value))
    // Once the state write went through it stays, whatever happens afterwards.
    ensures StateWritten(db, id, f) ==> r.db.orders == db.orders[id := db.orders[id].(etat := target)]
    // The order table changes in no other way.
    ensures r.db.orders == db.orders || (id in db.orders && r.db.orders == db.orders[id := db.orders[id].(etat := target)])
    // Stock changes only on success.
    ensures r.outcome != Ok ==> r.db.materiels == db.materiels
    // Acceptance lowers the linked quantity by the order's, with no lower bound ...
    ensures r.outcome == Ok && target == Accepted ==>
      id in db.orders && var o := db.orders[id];
      o.itemId in db.materiels && Restocked(db.materiels, r.db.materiels, o.itemId, QuantityOf(db.materiels[o.itemId]) - o.quantite)
    // ... rejection raises it by the same amount ...
    ensures r.outcome == Ok && target == Rejected ==>
      id in db.orders && var o := db.orders[id];
      o.itemId in db.materiels && Restocked(db.materiels, r.db.materiels, o.itemId, QuantityOf(db.materiels[o.itemId]) + o.quantite)
    // ... and any other target leaves stock alone.
    ensures target != Accepted && target != Rejected ==> r.db.materiels == db.materiels
    // Success exactly when every step goes through.
    ensures r.outcome == Ok <==>
      StateWritten(db, id, f) &&
      (target == Accepted || target == Rejected ==>
        !f.stockRead && !f.stockWrite && db.orders[id].itemId in db.materiels)
  {
    if Falsy(id) then Result(db, Err(MissingOrderId))
    else if f.orderRead || id !in db.orders then Result(db, Err(OrderReadFailed))
    else
      var order := db.orders[id];
      if Falsy(order.itemId) then Result(db, Err(MissingItemId))
      else if f.stateWrite.Some? then Result(db, Err(StateWriteFailed + f.stateWrite.value))
      else
        var orders' := db.orders[id := order.(etat := target)];
        if target == Accepted then
          var (materiels', outcome) := Adjusted(db.materiels, order.itemId, -order.quantite, f);
          Result(Db(orders', materiels'), outcome)
        else if target == Rejected then
          var (materiels', outcome) := Adjusted(db.materiels, order.itemId, order.quantite, f);
          Result(Db(orders', materiels'), outcome)
        else Result(db.(orders := orders'), Ok)
  }

  /** The order `id` is present with a truthy item id whose row is present. */
  ghost predicate Reconcilable(db: Db, id: int) {
    !Falsy(id) && id in db.orders && !Falsy(db.orders[id].itemId) && db.orders[id].itemId in db.materiels
  }

  /**
   * Accepting and then rejecting the same order puts the item back: its
   * quantity returns to what it was (a null quantity comes back as 0).
   */
  lemma AcceptThenRejectRestores(db: Db, id: int)
    requires Reconcilable(db, id)
    ensures var item := db.orders[id].itemId;
            var m := db.materiels[item];
            var first := Reconcile(db, id, Accepted, NoFaults);
            var second := Reconcile(first.db, id, Rejected, NoFaults);
            && first.outcome == Ok && second.outcome == Ok
            && second.db.materiels == db.materiels[item := m.(quantite := Some(QuantityOf(m)))]
            && (m.quantite.Some? ==> second.db.materiels == db.materiels)
            && second.db.orders[id].etat == Rejected
  {
    var item := db.orders[id].itemId;
    var m := db.materiels[item];
    assert m.quantite.Some? ==> m.(quantite := Some(QuantityOf(m))) == m;
  }

  /** The current `etat` is never consulted: each repeated acceptance subtracts the quantity again. */
  lemma RepeatedAcceptance(db: Db, id: int)
    requires Reconcilable(db, id)
    ensures var o := db.orders[id];
            var s := QuantityOf(db.materiels[o.itemId]);
            var first := Reconcile(db, id, Accepted, NoFaults);
            var second := Reconcile(first.db, id, Accepted, NoFaults);
            && second.outcome == Ok
            && second.db.materiels[o.itemId].quantite == Some(s - 2 * o.quantite)
  {
  }

  /** With no floor, accepting 5 units of an item that holds 1 leaves it at -4. */
  lemma AcceptanceMayGoNegative()
    ensures var m := Materiel("câble", None, Some(1), "2024-01-01", None, "neuf", None);
            var db := Db(map[50 := Order(Pending, 9, 5, 0)], map[9 := m]);
            var r := Reconcile(db, 50, Accepted, NoFaults);
            r.outcome == Ok && r.db.materiels[9].quantite == Some(-4)
  {
  }

  /** Rejecting order 50 (3 units of item 9) raises item 9 by 3, whatever it held. */
  lemma RejectScenario(m: Materiel)
    ensures var db := Db(map[50 := Order(Pending, 9, 3, 0)], map[9 := m]);
            var r := Reconcile(db, 50, Rejected, NoFaults);
            r.outcome == Ok && r.db.materiels[9].quantite == Some(QuantityOf(m) + 3)
  {
  }

  /** The component state of the page, over the remote tables. */
  class OrdersPage {
    const tables: Tables
    var commandes: seq<Row>
    var error: Option<string>
    var userRole: Option<string>
    var isAdmin: bool

    constructor (tables: Tables)
      ensures this.tables == tables
      ensures commandes == [] && error == None && userRole == None && !isAdmin
    {
      this.tables := tables;
      commandes := [];
      error := None;
      userRole := None;
      isAdmin := false;
    }

    /** `checkSession`: records the role of a signed-in user; otherwise leaves the state as it is. */
    method CheckSession(who: Identity)
      modifies this
      ensures who.SignedIn? ==> userRole == Some(who.role) && (isAdmin <==> who.role == AdminRole)
      ensures !who.SignedIn? ==> userRole == old(userRole) && isAdmin == old(isAdmin)
      ensures commandes == old(commandes) && error == old(error)
    {
      if who.SignedIn? {
        userRole := Some(who.role);
        isAdmin := who.role == AdminRole;
      }
    }

    /**
     * `fetchCommandes`: without a session it does nothing; a failed query
     * stores its message and keeps the list; otherwise the list becomes the
     * pending orders, newest first (an earlier error message stays).
     */
    method FetchCommandes(session: bool, queryError: Option<string>)
      modifies this
      ensures session && queryError.None? ==> PendingListing(tables.orders, commandes)
      ensures session && queryError.None? ==> forall i :: 0 <= i < |commandes| ==> commandes[i].order.etat == Pending
      ensures !session || queryError.Some? ==> commandes == old(commandes)
      ensures error == if session && queryError.Some? then queryError else old(error)
      ensures userRole == old(userRole) && isAdmin == old(isAdmin)
    {
      if !session {
        return;
      }
      if queryError.Some? {
        error := queryError;
        return;
      }
      PendingListingExists(tables.orders);
      var rows :| PendingListing(tables.orders, rows);
      commandes := rows;
    }

    /** The inner `adjustStock`: a read-modify-write of one item's `quantite`. */
    method AdjustStock(item: int, adjustment: int, f: Faults) returns (outcome: Outcome)
      modifies tables
      ensures (tables.materiels, outcome) == Adjusted(old(tables.materiels), item, adjustment, f)
      ensures tables.orders == old(tables.orders)
    {
      if f.stockRead || item !in tables.materiels {
        return Err(StockReadFailed);
      }
      var newQuantity := QuantityOf(tables.materiels[item]) + adjustment;
      if f.stockWrite {
        return Err(StockWriteFailed);
      }
      tables.materiels := tables.materiels[item := tables.materiels[item].(quantite := Some(newQuantity))];
      return Ok;
    }

    /**
     * `handleUpdateState`: the remote tables end as `Reconcile` says, and the
     * pending list is refetched only when no step failed.
     */
    method HandleUpdateState(id: int, target: string, f: Faults, session: bool, queryError: Option<string>)
      returns (outcome: Outcome, refreshed: bool)
      modifies this, tables
      ensures tables.Snapshot() == Reconcile(old(tables.Snapshot()), id, target, f).db
      ensures outcome == Reconcile(old(tables.Snapshot()), id, target, f).outcome
      ensures refreshed <==> outcome == Ok
      ensures refreshed && session && queryError.None? ==> PendingListing(tables.orders, commandes)
      ensures !(refreshed && session && queryError.None?) ==> commandes == old(commandes)
      ensures refreshed && session && queryError.None? && target != Pending ==>
        forall i :: 0 <= i < |commandes| ==> commandes[i].id != id
      ensures error == if refreshed && session && queryError.Some? then queryError else old(error)
      ensures userRole == old(userRole) && isAdmin == old(isAdmin)
    {
      if Falsy(id) {
        return Err(MissingOrderId), false;
      }
      if f.orderRead || id !in tables.orders {
        return Err(OrderReadFailed), false;
      }
      var order := tables.orders[id];
      if Falsy(order.itemId) {
        return Err(MissingItemId), false;
      }
      if f.stateWrite.Some? {
        return Err(StateWriteFailed + f.stateWrite.value), false;
      }
      tables.orders := tables.orders[id := order.(etat := target)];
      if target == Accepted {
        outcome := AdjustStock(order.itemId, -order.quantite, f);
        if outcome != Ok {
          return outcome, false;
        }
      } else if target == Rejected {
        outcome := AdjustStock(order.itemId, order.quantite, f);
        if outcome != Ok {
          return outcome, false;
        }
      }
      FetchCommandes(session, queryError);
      return Ok, true;
    }
  }
}

/**
 * The medication order page (`pages/commande-en-cour.tsx`): the role check,
 * the pending-orders fetch and the accept/reject handler that writes the
 * order's `etat` and, on acceptance, debits `stock_medicaments` with a
 * no-negative guard that runs only after the state write has committed.
 */
module Medication {
  import opened Outcomes
  import opened Orders

  /**
   * The two tables the handler touches: `commande_médicaments` by
   * `id_commande`, and the `quantite` column of `stock_medicaments` by `id_stock`.
   */
  datatype Db = Db(orders: map<int, Order>, stock: map<int, int>)

  /** The tables after one reconciliation, and what it reported. */
  datatype Result = Result(db: Db, outcome: Outcome)

  /** `after` is `before` with row `item` lowered by `q`, to a value that is not negative. */
  ghost predicate Debited(before: map<int, int>, after: map<int, int>, item: int, q: int) {
    item in before && before[item] - q >= 0 && after == before[item := before[item] - q]
  }

  /** The order `id` exists and the read and state write of a reconciliation succeed. */
  ghost predicate StateWritten(db: Db, id: int, f: Faults) {
    !Falsy(id) && id in db.orders && !f.orderRead && f.stateWrite.None?
  }

  /**
   * `handleUpdateState(id_commande, nouvelEtat)` on the remote tables: the
   * checks and writes in the order the handler issues them, each remote call
   * failing as `f` says; a failure leaves every earlier write in place.
   */
  function Reconcile(db: Db, id: int, target: string, f: Faults): (r: Result)
    // A falsy id is refused before any remote call.
    ensures Falsy(id) ==> r == Result(db, Err(MissingOrderId))
    // A failed or empty order read aborts before any write.
    ensures !Falsy(id) && (f.orderRead || id !in db.orders) ==> r == Result(db, Err(OrderReadFailed))
    // A failed state write writes nothing and reports the backend's message.
    ensures !Falsy(id) && id in db.orders && !f.orderRead && f.stateWrite.Some? ==>
      r == Result(db, Err(StateWriteFailed + f.stateWrite.value))
    // Once the state write went through it stays, whatever happens afterwards.
    ensures StateWritten(db, id, f) ==> r.db.orders == db.orders[id := db.orders[id].(etat := target)]
    // The order table changes in no other way.
    ensures r.db.orders == db.orders || (id in db.orders && r.db.orders == db.orders[id := db.orders[id].(etat := target)])
    // Stock changes only when an acceptance succeeds ...
    ensures r.db.stock != db.stock ==> r.outcome == Ok && target == Accepted
    // ... and a successful acceptance debits exactly the linked row by the order's quantity.
    ensures r.outcome == Ok && target == Accepted ==>
      id in db.orders && Debited(db.stock, r.db.stock, db.orders[id].itemId, db.orders[id].quantite)
    // Any other target changes only the order's state.
    ensures target != Accepted ==> r.db.stock == db.stock
    // Insufficient stock is refused after the state write: the order stays accepted, stock stays put.
    ensures StateWritten(db, id, f) && target == Accepted && !f.stockRead && db.orders[id].itemId in db.stock &&
            db.stock[db.orders[id].itemId] - db.orders[id].quantite < 0 ==>
      r.outcome == Err(InsufficientStock) && r.db.stock == db.stock && r.db.orders[id].etat == Accepted
    // A failed or empty stock read, after the state write, reports the read failure and leaves stock alone.
    ensures StateWritten(db, id, f) && target == Accepted && (f.stockRead || db.orders[id].itemId !in db.stock) ==>
      r.outcome == Err(StockReadFailed) && r.db.stock == db.stock
    // A failed stock write of a sufficient quantity reports the write failure and leaves stock alone.
    ensures StateWritten(db, id, f) && target == Accepted && !f.stockRead && db.orders[id].itemId in db.stock &&
            db.stock[db.orders[id].itemId] - db.orders[id].quantite >= 0 && f.stockWrite ==>
      r.outcome == Err(StockWriteFailed) && r.db.stock == db.stock
    // Success exactly when every step goes through.
    ensures r.outcome == Ok <==>
      StateWritten(db, id, f) &&
      (target == Accepted ==>
        !f.stockRead && !f.stockWrite && db.orders[id].itemId in db.stock &&
        db.stock[db.orders[id].itemId] - db.orders[id].quantite >= 0)
  {
    if Falsy(id) then Result(db, Err(MissingOrderId))
    else if f.orderRead || id !in db.orders then Result(db, Err(OrderReadFailed))
    else if f.stateWrite.Some? then Result(db, Err(StateWriteFailed + f.stateWrite.value))
    else
      var order := db.orders[id];
      var written := db.(orders := db.orders[id := order.(etat := target)]);
      if target != Accepted then Result(written, Ok)
      else if f.stockRead || order.itemId !in db.stock then Result(written, Err(StockReadFailed))
      else
        var newQuantity := db.stock[order.itemId] - order.quantite;
        if newQuantity < 0 then Result(written, Err(InsufficientStock))
        else if f.stockWrite then Result(written, Err(StockWriteFailed))
        else Result(written.(stock := db.stock[order.itemId := newQuantity]), Ok)
  }

  /**
   * The current `etat` is never consulted: a second acceptance of the same
   * order debits the stock a second time while it suffices, and once it does
   * not, fails with the order still accepted.
   */
  lemma RepeatedAcceptance(db: Db, id: int)
    requires !Falsy(id) && id in db.orders && db.orders[id].itemId in db.stock
    requires db.stock[db.orders[id].itemId] - db.orders[id].quantite >= 0
    ensures var o := db.orders[id];
            var s := db.stock[o.itemId];
            var first := Reconcile(db, id, Accepted, NoFaults);
            var second := Reconcile(first.db, id, Accepted, NoFaults);
            && first.outcome == Ok
            && (s - 2 * o.quantite >= 0 ==> second.outcome == Ok && second.db.stock == db.stock[o.itemId := s - 2 * o.quantite])
            && (s - 2 * o.quantite < 0 ==> second == Result(first.db, Err(InsufficientStock)))
  {
  }

  /** Rejecting after an acceptance gives nothing back: the debit stays. */
  lemma RejectAfterAcceptKeepsDebit(db: Db, id: int)
    requires !Falsy(id) && id in db.orders && db.orders[id].itemId in db.stock
    requires db.stock[db.orders[id].itemId] - db.orders[id].quantite >= 0
    ensures var o := db.orders[id];
            var first := Reconcile(db, id, Accepted, NoFaults);
            var second := Reconcile(first.db, id, Rejected, NoFaults);
            && second.outcome == Ok
            && second.db.stock == db.stock[o.itemId := db.stock[o.itemId] - o.quantite]
            && second.db.orders[id].etat == Rejected
  {
  }

  /** Accepting order 42 (5 units of item 7, which holds 10) leaves 5 in stock. */
  lemma AcceptScenario()
    ensures var db := Db(map[42 := Order(Pending, 7, 5, 0)], map[7 := 10]);
            var r := Reconcile(db, 42, Accepted, NoFaults);
            r.outcome == Ok && r.db.stock[7] == 5 && r.db.orders[42].etat == Accepted
  {
  }

  /** Accepting order 43 (20 units of item 7, which holds 5) fails; item 7 keeps 5. */
  lemma InsufficientScenario()
    ensures var db := Db(map[43 := Order(Pending, 7, 20, 0)], map[7 := 5]);
            var r := Reconcile(db, 43, Accepted, NoFaults);
            r.outcome == Err(InsufficientStock) && r.db.stock[7] == 5 && r.db.orders[43].etat == Accepted
  {
  }

  /** The remote tables, shared by every page that reads or writes them. */
  class Tables {
    var orders: map<int, Order>
    var stock: map<int, int>

    constructor (orders: map<int, Order>, stock: map<int, int>)
      ensures this.orders == orders && this.stock == stock
    {
      this.orders := orders;
      this.stock := stock;
    }

    function Snapshot(): Db
      reads this
    {
      Db(orders, stock)
    }
  }

  /** The component state of the page, over the remote tables. */
  class OrdersPage {
    const tables: Tables
    var commandes: seq<Row>
    var userRole: Option<string>
    var isAdmin: bool

    constructor (tables: Tables)
      ensures this.tables == tables
      ensures commandes == [] && userRole == None && !isAdmin
    {
      this.tables := tables;
      commandes := [];
      userRole := None;
      isAdmin := false;
    }

    /** `checkSession`: records the role of a signed-in user; otherwise leaves the state as it is. */
    method CheckSession(who: Identity)
      modifies this
      ensures who.SignedIn? ==> userRole == Some(who.role) && (isAdmin <==> who.role == AdminRole)
      ensures !who.SignedIn? ==> userRole == old(userRole) && isAdmin == old(isAdmin)
      ensures commandes == old(commandes)
    {
      if who.SignedIn? {
        userRole := Some(who.role);
        isAdmin := who.role == AdminRole;
      }
    }

    /**
     * `fetchCommandes`: without a session it does nothing; a failed query is
     * only logged; otherwise the list becomes the pending orders, newest first.
     */
    method FetchCommandes(session: bool, queryFails: bool)
      modifies this
      ensures session && !queryFails ==> PendingListing(tables.orders, commandes)
      ensures session && !queryFails ==> forall i :: 0 <= i < |commandes| ==> commandes[i].order.etat == Pending
      ensures !session || queryFails ==> commandes == old(commandes)
      ensures userRole == old(userRole) && isAdmin == old(isAdmin)
    {
      if !session {
        return;
      }
      if queryFails {
        return;
      }
      PendingListingExists(tables.orders);
      var rows :| PendingListing(tables.orders, rows);
      commandes := rows;
    }

    /**
     * `handleUpdateState`: the remote tables end as `Reconcile` says, and the
     * pending list is refetched only when no step failed.
     */
    method HandleUpdateState(id: int, target: string, f: Faults, session: bool, queryFails: bool)
      returns (outcome: Outcome, refreshed: bool)
      modifies this, tables
      ensures tables.Snapshot() == Reconcile(old(tables.Snapshot()), id, target, f).db
      ensures outcome == Reconcile(old(tables.Snapshot()), id, target, f).outcome
      ensures refreshed <==> outcome == Ok
      ensures refreshed && session && !queryFails ==> PendingListing(tables.orders, commandes)
      ensures !(refreshed && session && !queryFails) ==> commandes == old(commandes)
      ensures refreshed && session && !queryFails && target != Pending ==>
        forall i :: 0 <= i < |commandes| ==> commandes[i].id != id
      ensures userRole == old(userRole) && isAdmin == old(isAdmin)
    {
      if Falsy(id) {
        return Err(MissingOrderId), false;
      }
      if f.orderRead || id !in tables.orders {
        return Err(OrderReadFailed), false;
      }
      var order := tables.orders[id];
      if f.stateWrite.Some? {
        return Err(StateWriteFailed + f.stateWrite.value), false;
      }
      tables.orders := tables.orders[id := order.(etat := target)];
      if target == Accepted {
        if f.stockRead || order.itemId !in tables.stock {
          return Err(StockReadFailed), false;
        }
        var newQuantity := tables.stock[order.itemId] - order.quantite;
        if newQuantity < 0 {
          return Err(InsufficientStock), false;
        }
        if f.stockWrite {
          return Err(StockWriteFailed), false;
        }
        tables.stock := tables.stock[order.itemId := newQuantity];
      }
      FetchCommandes(session, queryFails);
      return Ok, true;
    }
  }
}

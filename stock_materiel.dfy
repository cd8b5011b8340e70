/**
 * The material master-data page (`pages/stock_materiel.tsx`): the role
 * check, the id-ordered fetch, the delete that is refused while an order
 * references the item, and the edit-or-insert submit that always closes the
 * form.
 */
module StockMateriel {
  import opened Outcomes
  import opened Orders
  import opened Material

  /** The alert shown when the delete guard fires. */
  const CommandedRefusal: string := "Ce matériel a été commandé et ne peut pas être supprimé."

  /** The editable columns of a `materiels` row: everything but `id_materiel` and `date_ajout`. */
  datatype Form = Form(
    nom: string,
    description: Option<string>,
    quantite: Option<int>,
    numeroSerie: Option<string>,
    etat: string,
    dateExpiration: Option<string>)

  /** The form the page starts with. */
  const InitialForm: Form := Form("", Some(""), None, Some(""), "neuf", None)

  /** What `handleDelete` ends with: refused by the guard (with its alert), failed remotely (logged), or done. */
  datatype Deletion = Refused(alert: string) | DeleteFailed(message: string) | Deleted

  /** The form filled from a row, as `handleEdit` does. */
  function FormOf(m: Materiel): Form {
    Form(m.nom, m.description, m.quantite, m.numeroSerie, m.etat, m.dateExpiration)
  }

  /** The row a submitted form describes, with the `date_ajout` the table keeps or assigns. */
  function FromForm(form: Form, dateAjout: string): (m: Materiel)
    ensures FormOf(m) == form && m.dateAjout == dateAjout
  {
    Materiel(form.nom, form.description, form.quantite, dateAjout, form.numeroSerie, form.etat, form.dateExpiration)
  }

  /** Filling the form from a row and submitting it unchanged gives the row back. */
  lemma FormRoundTrip(m: Materiel)
    ensures FromForm(FormOf(m), m.dateAjout) == m
  {
  }

  /**
   * `.update(dataToSubmit).eq('id_materiel', id)`: the row's six editable
   * columns take the form's values, its `date_ajout` stays; no row, no change.
   */
  function UpdatedTable(t: map<int, Materiel>, id: int, form: Form): (r: map<int, Materiel>)
    ensures r.Keys == t.Keys
    ensures forall k :: k in t && k != id ==> r[k] == t[k]
    ensures id in t ==> FormOf(r[id]) == form && r[id].dateAjout == t[id].dateAjout
  {
    if id in t then t[id := FromForm(form, t[id].dateAjout)] else t
  }

  /** `items.filter(m => m.id_materiel !== id)`. */
  function WithoutId(items: seq<Item>, id: int): (r: seq<Item>)
    ensures forall x :: x in r <==> x in items && x.id != id
    ensures |r| <= |items|
  {
    if items == [] then []
    else (if items[0].id == id then [] else [items[0]]) + WithoutId(items[1..], id)
  }

  /** Filtering distributes over concatenation, so the rows that remain keep their relative order. */
  lemma {:induction false} WithoutIdAppend(a: seq<Item>, b: seq<Item>, id: int)
    ensures WithoutId(a + b, id) == WithoutId(a, id) + WithoutId(b, id)
  {
    if a == [] {
      assert a + b == b;
    } else {
      assert (a + b)[0] == a[0];
      assert (a + b)[1..] == a[1..] + b;
      WithoutIdAppend(a[1..], b, id);
    }
  }

  /** A list that holds no row of that id is left exactly as it is. */
  lemma {:induction false} WithoutIdAbsent(items: seq<Item>, id: int)
    requires forall i :: 0 <= i < |items| ==> items[i].id != id
    ensures WithoutId(items, id) == items
  {
    if items != [] {
      WithoutIdAbsent(items[1..], id);
    }
  }

  /** Filtering twice by the same id removes nothing more. */
  lemma WithoutIdIdempotent(items: seq<Item>, id: int)
    ensures WithoutId(WithoutId(items, id), id) == WithoutId(items, id)
  {
    var r := WithoutId(items, id);
    assert forall i :: 0 <= i < |r| ==> r[i] in r;
    WithoutIdAbsent(r, id);
  }

  /** The component state of the page, over the remote tables. */
  class MaterielsPage {
    const tables: Tables
    var materiels: seq<Item>
    var loading: bool
    var selected: Option<Item>
    var isEditing: bool
    var form: Form
    var showModal: bool
    var isAdmin: bool

    constructor (tables: Tables)
      ensures this.tables == tables
      ensures materiels == [] && loading && selected == None && !isEditing
      ensures form == InitialForm && !showModal && !isAdmin
    {
      this.tables := tables;
      materiels := [];
      loading := true;
      selected := None;
      isEditing := false;
      form := InitialForm;
      showModal := false;
      isAdmin := false;
    }

    /** `checkSession`: admin exactly for the administrator role; signed out means not admin. */
    method CheckSession(who: Identity)
      modifies this
      ensures who.SignedIn? ==> (isAdmin <==> who.role == AdminRole)
      ensures who.NoSession? ==> !isAdmin
      ensures who.NoUserRecord? ==> isAdmin == old(isAdmin)
      ensures materiels == old(materiels) && loading == old(loading) && selected == old(selected)
      ensures isEditing == old(isEditing) && form == old(form) && showModal == old(showModal)
    {
      match who
      case SignedIn(role) =>
        isAdmin := role == AdminRole;
      case NoUserRecord =>
      case NoSession =>
        isAdmin := false;
    }

    /**
     * `fetchMateriels`: on success the list becomes every row by ascending
     * `id_materiel`; a failed query is only logged; loading always ends false.
     */
    method FetchMateriels(fails: bool)
      modifies this
      ensures !loading
      ensures !fails ==> IdListing(tables.materiels, materiels)
      ensures fails ==> materiels == old(materiels)
      ensures selected == old(selected) && isEditing == old(isEditing) && form == old(form)
      ensures showModal == old(showModal) && isAdmin == old(isAdmin)
    {
      loading := true;
      if !fails {
        IdListingExists(tables.materiels);
        var items :| IdListing(tables.materiels, items);
        materiels := items;
      }
      loading := false;
    }

    /** `handleEdit`: select the row, fill the form from it, open the modal in edit mode. */
    method HandleEdit(item: Item)
      modifies this
      ensures selected == Some(item) && form == FormOf(item.materiel) && isEditing && showModal
      ensures materiels == old(materiels) && loading == old(loading) && isAdmin == old(isAdmin)
    {
      selected := Some(item);
      form := FormOf(item.materiel);
      isEditing := true;
      showModal := true;
    }

    /**
     * `isMaterielCommanded`: whether the order lookup by `id_materiel` found
     * any row; a failed lookup answers "not commanded".
     */
    method IsMaterielCommanded(id: int, lookupFails: bool) returns (commanded: bool)
      ensures commanded <==> !lookupFails && Referenced(tables.orders, id)
    {
      if lookupFails {
        return false;
      }
      var data := set k | k in tables.orders && tables.orders[k].itemId == id;
      if data == {} {
        assert forall k :: k in tables.orders ==> k !in data;
      } else {
        if forall k :: k !in data {
          assert false;
        }
        var k :| k in data;
        assert k in tables.orders && tables.orders[k].itemId == id;
      }
      commanded := |data| > 0;
    }

    /**
     * `handleDelete`: refused while an order references the item; otherwise
     * the row is deleted and, only if that succeeded, dropped from the list.
     */
    method HandleDelete(id: int, lookupFails: bool, deleteError: Option<string>) returns (outcome: Deletion)
      modifies this, tables
      ensures outcome.Refused? <==> !lookupFails && Referenced(tables.orders, id)
      ensures outcome.Refused? ==> outcome.alert == CommandedRefusal
      ensures outcome.DeleteFailed? <==> !outcome.Refused? && deleteError.Some?
      ensures outcome.DeleteFailed? ==> outcome.message == deleteError.value
      ensures outcome != Deleted ==> tables.materiels == old(tables.materiels) && materiels == old(materiels)
      ensures outcome == Deleted ==> tables.materiels == old(tables.materiels) - {id}
      ensures outcome == Deleted ==> materiels == WithoutId(old(materiels), id)
      ensures tables.orders == old(tables.orders)
      ensures loading == old(loading) && selected == old(selected) && isEditing == old(isEditing)
      ensures form == old(form) && showModal == old(showModal) && isAdmin == old(isAdmin)
    {
      var commanded := IsMaterielCommanded(id, lookupFails);
      if commanded {
        return Refused(CommandedRefusal);
      }
      if deleteError.Some? {
        return DeleteFailed(deleteError.value);
      }
      tables.materiels := tables.materiels - {id};
      materiels := WithoutId(materiels, id);
      return Deleted;
    }

    /**
     * `handleSubmit`: updates the selected row when editing one, inserts a
     * new row otherwise, refetches on success, and whatever happened closes
     * the modal and clears the selection and edit mode (the form itself is
     * kept). The backend's generated key `newId` is fresh; `today` is the
     * `date_ajout` it assigns.
     */
    method HandleSubmit(writeError: Option<string>, newId: int, today: string, fetchFails: bool)
      returns (outcome: Outcome)
      requires newId !in tables.materiels
      modifies this, tables
      ensures old(isEditing && selected.Some?) ==>
        tables.materiels == if writeError.None? then UpdatedTable(old(tables.materiels), old(selected).value.id, form)
                            else old(tables.materiels)
      ensures !old(isEditing && selected.Some?) ==>
        tables.materiels == if writeError.None? then old(tables.materiels)[newId := FromForm(form, today)]
                            else old(tables.materiels)
      ensures outcome == if writeError.None? then Ok else Err(writeError.value)
      ensures outcome == Ok && !fetchFails ==> IdListing(tables.materiels, materiels)
      ensures outcome == Ok ==> !loading
      ensures !(outcome == Ok && !fetchFails) ==> materiels == old(materiels)
      ensures outcome != Ok ==> loading == old(loading)
      ensures !isEditing && selected == None && !showModal
      ensures form == old(form) && isAdmin == old(isAdmin) && tables.orders == old(tables.orders)
    {
      if isEditing && selected.Some? {
        if writeError.None? {
          tables.materiels := UpdatedTable(tables.materiels, selected.value.id, form);
          FetchMateriels(fetchFails);
          outcome := Ok;
        } else {
          outcome := Err(writeError.value);
        }
      } else {
        if writeError.None? {
          tables.materiels := tables.materiels[newId := FromForm(form, today)];
          FetchMateriels(fetchFails);
          outcome := Ok;
        } else {
          outcome := Err(writeError.value);
        }
      }
      isEditing := false;
      selected := None;
      showModal := false;
    }
  }
}

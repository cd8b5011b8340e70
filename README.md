# Order-to-stock reconciliation — a Dafny model

This project models the order-to-stock reconciliation of a small inventory front-end that talks to a hosted backend. When an administrator accepts or rejects a pending order, the page writes the order's `etat` and then adjusts the `quantite` of the item the order references. The repository has two deliberately different variants:

- **Medication orders** (`pages/commande-en-cour.tsx`). Only `'acceptée'` touches stock. The new quantity `s - q` is refused when negative, but that check runs after the order's state write has already committed.
- **Material orders** (`pages/commande_en_cour2.tsx`). The order's `id_materiel` is checked first. `'acceptée'` subtracts with no floor and `'refusée'` adds the quantity back.

The model also covers the pending-orders query of both pages (`etat = 'en attente'`, newest `date_commande` first) and the material master-data page (`pages/stock_materiel.tsx`). That page has a delete guarded by "no order references this item", an edit-or-insert submit that always closes the form, an id-ordered fetch, and a role check.

Layout:

- `outcomes.dfy`: module `Outcomes`, with `Option` and `Outcome` (`Ok` or `Err(message)`).
- `orders.dfy`: module `Orders`. It holds the order states, handler messages and record types. It also holds the failure oracle `Faults`, the session result `Identity`, and the pending query's contract `PendingListing` with the lemma that the query always has an answer.
- `medication.dfy`: module `Medication`. It holds the specification function `Reconcile` over the two tables, the remote `Tables` object, and the page (`OrdersPage`) whose methods change them step by step.
- `material.dfy`: module `Material`. It holds the `materiels` rows, the shared material `Tables` object, and the ascending-id query's contract `IdListing`, shown to exist and to be unique.
- `material_orders.dfy`: module `MaterialOrders`. It holds `Adjusted` (the inner `adjustStock`), `Reconcile`, lemmas about repeated calls, and the page.
- `stock_materiel.dfy`: module `StockMateriel`. It holds the list filter `WithoutId` and its lemmas, the form, and the page `MaterielsPage`.

How things are represented:

- **Tables** are maps: `id_commande → Order(etat, itemId, quantite, date)`, `id_stock → quantite` for medication stock, and `id_materiel → Materiel` for material rows.
- **Remote failures** are oracle inputs.
  - A `Faults` value passed to the two `HandleUpdateState` handlers and to `AdjustStock` says which of the order read, the state write (with the backend's message), the stock read and the stock write fails. A missing row makes a `.single()` read fail, as the backend does.
  - The master-data handlers take their own failure inputs. `IsMaterielCommanded` takes a lookup-failure flag. `HandleDelete` takes that flag and the delete's error message, if any. `HandleSubmit` takes the write's error message, if any, and a failure flag for the refetch.
- **Sessions and role lookups** are oracle inputs. An `Identity` is no session, no `User` record, or a role string.
- **Refresh queries** are oracle inputs. The two order pages' `FetchCommandes` take a session flag and a query-failure flag or message. The master-data `FetchMateriels` never reads the session, so it takes only a failure flag.
- **Handlers** are methods on a page object that holds a reference to the shared `Tables` object.
  - The two `HandleUpdateState` handlers return their `Outcome` and whether the list refresh ran. Their alert shows `"Erreur: "` followed by the message. Their `ensures` ties the tables to `Reconcile` applied to the old tables.
  - `HandleDelete` returns a `Deletion`. It is either the refusal, carrying the alert text, or a failed delete, whose message is only logged to the console (`pages/stock_materiel.tsx:133`), or done.
  - `HandleSubmit` returns an `Outcome`. An error is only logged to the console (`pages/stock_materiel.tsx:162`).
- **Ordered selects** are computed by the backend, so no loop models them. The result is any list that meets the select's contract. Ties on `date_commande` are left in any order, and the ascending-id listing is proved unique.

## Model

| member | source | states |
|---|---|---|
| `Orders.ListingExists` | pages/commande-en-cour.tsx:77-81 | any set of order keys can be listed once each, newest `date_commande` first |
| `Orders.PendingListingExists` | pages/commande-en-cour.tsx:77-83 | the pending query always has an answer, and every answer holds only `'en attente'` rows exactly as the table stores them |
| `Medication.Reconcile` | pages/commande-en-cour.tsx:96-155 | falsy id (0): error "ID de commande manquant", nothing written; failed or empty order read: nothing written; failed state write: nothing written, backend message reported; once the state write commits it stays; stock changes only on a successful acceptance, and then only the linked `id_stock` row, to exactly `s - q >= 0`; `s - q < 0`: "Stock insuffisant pour cette commande", stock unchanged but order already `'acceptée'`; after the state write, a failed or empty stock read reports "Erreur lors de la récupération du stock" and a failed stock write "Erreur lors de la mise à jour du stock", stock unchanged in both; any other target never touches stock; success iff every step goes through |
| `Medication.RepeatedAcceptance` | pages/commande-en-cour.tsx:105-154 | the current `etat` is never checked: a second acceptance debits again while stock suffices, and otherwise fails with the order still accepted |
| `Medication.RejectAfterAcceptKeepsDebit` | pages/commande-en-cour.tsx:127-154 | rejecting an accepted medication order restores nothing |
| `Medication.AcceptScenario` | pages/commande-en-cour.tsx:127-154 | order 42 (5 of item 7, stock 10) accepted leaves 5 |
| `Medication.InsufficientScenario` | pages/commande-en-cour.tsx:140-144 | order 43 (20 of item 7, stock 5) fails with insufficient stock; stock stays 5, order is accepted |
| `Medication.OrdersPage.constructor` | pages/commande-en-cour.tsx:21-24 | the page starts with no orders, no role, not admin |
| `Medication.OrdersPage.CheckSession` | pages/commande-en-cour.tsx:56-72 | a signed-in user's role is recorded and `isAdmin` is true exactly for `'administrateur'`; without a session or `User` record nothing changes |
| `Medication.OrdersPage.FetchCommandes` | pages/commande-en-cour.tsx:73-92 | without a session nothing changes; a query error leaves the list unchanged; otherwise the list is exactly the pending orders, newest first |
| `Medication.OrdersPage.HandleUpdateState` | pages/commande-en-cour.tsx:96-169 | the tables end as `Reconcile` says; the list refresh runs iff the outcome is `Ok`; on any error the list is unchanged; a refreshed list no longer holds the decided order |
| `Material.ListsByIdExists` | pages/stock_materiel.tsx:56-59 | any set of item keys can be listed by ascending `id_materiel` |
| `Material.ListingHead` | pages/stock_materiel.tsx:56-59 | an ascending listing starts with the smallest key and its tail lists the rest |
| `Material.ListsByIdUnique` | pages/stock_materiel.tsx:56-59 | two ascending listings of the same keys are equal |
| `Material.IdListingExists` | pages/stock_materiel.tsx:56-61 | the ascending `materiels` select has exactly one answer |
| `MaterialOrders.Adjusted` | pages/commande_en_cour2.tsx:133-157 | `adjustStock` succeeds iff the read and write succeed and the row exists, and then rewrites only that row's `quantite` to the old quantity (null read as 0) plus the adjustment; on failure nothing changes; a failed read or missing row reports "Erreur lors de la récupération du stock", a failed write after a good read "Erreur lors de la mise à jour du stock" |
| `MaterialOrders.Reconcile` | pages/commande_en_cour2.tsx:97-165 | falsy order id: nothing written; failed read or missing row: nothing written; falsy `id_materiel`: "ID du matériel manquant ou invalide" before the state write; failed state write: nothing written; a committed state write stays; `'acceptée'` sets the item to `s - q` with no lower bound; `'refusée'` sets it to `s + q`; other targets leave stock alone; stock changes only on success; success iff every step goes through |
| `MaterialOrders.AcceptThenRejectRestores` | pages/commande_en_cour2.tsx:106-165 | accepting then rejecting the same order returns the item's quantity to `s` (a null quantity becomes 0) and leaves the order `'refusée'` |
| `MaterialOrders.RepeatedAcceptance` | pages/commande_en_cour2.tsx:106-161 | a second acceptance succeeds again and leaves `s - 2q` |
| `MaterialOrders.AcceptanceMayGoNegative` | pages/commande_en_cour2.tsx:146-161 | accepting 5 units of an item holding 1 leaves -4 |
| `MaterialOrders.RejectScenario` | pages/commande_en_cour2.tsx:162-165 | rejecting order 50 (3 of item 9) raises item 9 by 3 whatever it held |
| `MaterialOrders.OrdersPage.constructor` | pages/commande_en_cour2.tsx:23-27 | the page starts with no orders, no error, no role, not admin |
| `MaterialOrders.OrdersPage.CheckSession` | pages/commande_en_cour2.tsx:59-75 | a signed-in user's role is recorded and `isAdmin` is true exactly for `'administrateur'`; otherwise nothing changes |
| `MaterialOrders.OrdersPage.FetchCommandes` | pages/commande_en_cour2.tsx:77-95 | without a session nothing changes; a query error stores its message and keeps the list; otherwise the list is exactly the pending orders, newest first, and an earlier error message is not cleared |
| `MaterialOrders.OrdersPage.AdjustStock` | pages/commande_en_cour2.tsx:133-157 | the `materiels` table and the outcome are as `Adjusted` says; orders untouched |
| `MaterialOrders.OrdersPage.HandleUpdateState` | pages/commande_en_cour2.tsx:97-179 | the tables end as `Reconcile` says; the refresh runs iff the outcome is `Ok`; on any error the list and error message are unchanged |
| `StockMateriel.FromForm` | pages/stock_materiel.tsx:140-147 | the submitted row carries exactly the six form fields and the given `date_ajout` |
| `StockMateriel.FormRoundTrip` | pages/stock_materiel.tsx:95-104 | filling the form from a row and submitting it unchanged gives the row back |
| `StockMateriel.UpdatedTable` | pages/stock_materiel.tsx:149-153 | the update by `id_materiel` rewrites only that row's six editable columns, keeps its `date_ajout`, and changes nothing when the row is absent |
| `StockMateriel.WithoutId` | pages/stock_materiel.tsx:131 | the filtered list holds exactly the old rows whose id differs |
| `StockMateriel.WithoutIdAppend` | pages/stock_materiel.tsx:131 | filtering distributes over concatenation, so relative order is kept |
| `StockMateriel.WithoutIdAbsent` | pages/stock_materiel.tsx:131 | a list with no row of that id is unchanged |
| `StockMateriel.WithoutIdIdempotent` | pages/stock_materiel.tsx:131 | filtering twice equals filtering once |
| `StockMateriel.MaterielsPage.constructor` | pages/stock_materiel.tsx:19-32 | the page starts loading, with an empty list, no selection, the initial form, modal closed, not admin |
| `StockMateriel.MaterielsPage.CheckSession` | pages/stock_materiel.tsx:34-51 | `isAdmin` is true exactly for role `'administrateur'`, false with no session, unchanged when no `User` record is found |
| `StockMateriel.MaterielsPage.FetchMateriels` | pages/stock_materiel.tsx:53-67 | on success the list is every row by ascending `id_materiel`; on error it is unchanged; `loading` always ends false |
| `StockMateriel.MaterielsPage.HandleEdit` | pages/stock_materiel.tsx:95-107 | selects the row, fills the form from it, and opens the modal in edit mode |
| `StockMateriel.MaterielsPage.IsMaterielCommanded` | pages/stock_materiel.tsx:109-119 | true iff the lookup succeeds and some `commande_materiel` row has that `id_materiel`; a failed lookup says "not commanded" |
| `StockMateriel.MaterielsPage.HandleDelete` | pages/stock_materiel.tsx:121-135 | refused, with the alert 'Ce matériel a été commandé et ne peut pas être supprimé.' and no table or list change, iff an order references the item and the lookup succeeded; a failed delete changes nothing; a successful delete removes exactly that key and filters exactly that id out of the local list |
| `StockMateriel.MaterielsPage.HandleSubmit` | pages/stock_materiel.tsx:137-168 | when editing with a selection it updates that row, otherwise it inserts a new row; it refetches only on success; whatever the outcome it ends with `isEditing = false`, no selection and the modal closed, and keeps the form |

## Left out

- The backend client and `getSession` are oracle inputs. The `onAuthStateChange` callbacks are not modelled. They differ from page to page:
  - On the two order pages (`pages/commande-en-cour.tsx:33-49`, `pages/commande_en_cour2.tsx:36-52`), the callback sets the role and refetches the orders, but only when a `User` record is found.
  - On the master-data page (`pages/stock_materiel.tsx:75-89`), the callback sets `isAdmin` from the role, or to false without a session. It never refetches.
- `getUserRole` is an opaque role string inside `Identity`. The `User` lookup by e-mail is the `NoUserRecord` case.
- Concurrency is out of scope: lost updates between admins and interleaving of asynchronous calls. Repeated invocations are modelled one after another.
- The PDF export `handleDownloadPDF` and all date formatting are out of scope. `date_commande` is an abstract integer key, and `date_ajout` and `date_expiration` are opaque strings.
- JSX rendering, CSS, console logging and the `alert` calls are out of scope. The message a handler would show or log is its `Outcome`.
- The `user` state object (`setUser`) and the order columns `id_user` and `id_fournisseur` are not modelled, since no logic here reads them.
- Only 0 is a falsy id. `NaN`, `null` and `undefined` ids, and a null `id_materiel`, are not modelled separately, and a null `id_materiel` behaves like 0.
- The medication stock `quantite` is a plain integer, since the schema of `stock_medicaments` is not shown. `data || []` with null data is not modelled.
- A remote write that reports an error is taken to have written nothing.
- `StockMateriel.MaterielsPage.HandleSubmit`: the backend's generated key `newId` must be fresh (`requires newId !in tables.materiels`). This is an assumption about the serial key, not a demand the page makes on its callers.
- The form's `onChange` handlers and the `parseInt` of the quantity input are not modelled. The form is a value.
- The intermediate `loading = true` of `fetchMateriels` is not observable in a sequential model. Only its final `false` is stated.
- `pages/fournisseur.tsx`, `pages/materiel.tsx`, `components/ui/app-sidebar.tsx`, `src/services/commande/commande.ts`, `src/services/sidebar/useUser.ts` and `next.config.ts` are not part of this model.

Behaviour of the code worth knowing:

- **Any target string.** The handlers accept any target, not only accepted or rejected. Another target writes `etat` and leaves stock alone.
- **No role reset on the order pages.** Without a session, the two order pages leave the previous role state in place. Only the master-data page resets `isAdmin` to false.
- **Decided orders are not immutable.** An order that is no longer pending can be decided again (`RepeatedAcceptance`).

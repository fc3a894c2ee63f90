# WastePlate waste-log core in Dafny

WastePlate is a single-page front end where kitchen staff log wasted inventory.
Its only logic is a small client-side state machine in `src/App.jsx`:

- **The waste-log form** (`LogForm`). Typing an item name looks it up by exact,
  case-sensitive match in the fixed `INVENTORY_ITEMS` catalog. The form then
  snapshots that item's unit cost, or 0 when there is no match. The quantity
  input stores `parseFloat` of its text, and the reason select stores its
  option. Submitting rejects the form if the cost is 0, the reason is unset or
  the name is empty. Otherwise it builds an entry with
  `totalLoss = quantity * unitCost` and resets the form.
- **The ledger** (`WastePlateApp.wasteLogs`). `addLogEntry` puts each new entry
  in front of the list, so the ledger is newest-first. `Dashboard` derives
  `cumulativeLoss` (a reduce over the entries' losses) and `itemsLogged` (the
  length).
- **Session and navigation.** Logging in sets `isLoggedIn` and goes to the
  dashboard. Logging out clears the flag and goes to the login page.
  `renderPage` chooses the page from the flag and the `activePage` id.

Modules:

- `Inventory`: the catalog and the `find` lookup.
- `WasteLog`: the form data, its pure transitions and the submit decision.
- `Ledger`: prepending and the dashboard figures.
- `Routing`: page selection.
- `App`: the two stateful components, as classes whose methods are proved
  against the functions above.
- `JsNumbers`: the JavaScript number arithmetic the ledger uses.
- `Wrappers`: `Option`.

Representation choices:

- Money is integer cents. Every catalog cost has two decimals.
- The quantity is `Blank` (the initial and reset `""`) or a parsed number.
- A parsed number is `NaN` or an exact finite value. `"" * cost` is 0 in
  JavaScript, so a blank quantity gives a zero loss, and NaN stays NaN.
- The reason is one of Prep Error, Expiration and Spillage, or unset. Unset is
  the select's disabled `""` placeholder.
- Entry `id` (`Date.now()`) and `timestamp` (locale time) are parameters of the
  submit.

Behaviour of the code that the model keeps as it is:

- An unknown name gets cost 0 and falls into the same rejection as a missing
  field. Because every catalog cost is non-zero, unknown items are never
  logged.
- The quantity is never validated. An untouched field logs a zero-loss entry.
  A cleared field logs a NaN loss, which makes the total NaN from then on.
- The only reasons are the three above, and the dashboard derives only
  `cumulativeLoss` and `itemsLogged`.

## Model

| member | source | states |
|---|---|---|
| `Inventory.InventoryItems` | src/App.jsx:26-34 | the catalog has seven items, every cost is non-zero, no name is empty and no two names are equal |
| `Inventory.Find` | src/App.jsx:227 | the lookup misses exactly when no item has that exact name; a hit is the first item with that name |
| `Inventory.CostOf` | src/App.jsx:227-228 | the snapshot cost is the cost of the first item named exactly so, and 0 when no item has the name |
| `Inventory.CostZeroIffUnknown` | src/App.jsx:26-34 | over `INVENTORY_ITEMS`, the snapshot cost is 0 if and only if the name is not in the catalog |
| `WasteLog.EmptyFormConsistent` | src/App.jsx:209-214 | the initial and reset form (`""`, `""`, `""`, 0) satisfies the form invariant that the cost is the catalog cost of the name |
| `WasteLog.Search` | src/App.jsx:224-229 | after a search the name is the typed text, the cost is its catalog cost (0 if unknown), and quantity and reason are unchanged |
| `WasteLog.Change` | src/App.jsx:216-222 | a change sets only the quantity (to the parsed value) or only the reason, never the name or the cost, so the form invariant is kept |
| `WasteLog.LossOf` | src/App.jsx:239 | the loss is NaN exactly for a NaN quantity, 0 for a blank one, and the quantity times the cost for a finite one; with a non-zero cost it has the sign of the quantity |
| `WasteLog.Submit` | src/App.jsx:231-244 | for a consistent form, submit is accepted if and only if the name is in the catalog and a reason is chosen; the quantity plays no part |
| `WasteLog.UnknownItemNeverLogged` | src/App.jsx:227-234 | a name absent from the catalog never produces an entry |
| `WasteLog.LoggedEntrySnapshotsCatalogCost` | src/App.jsx:236-244 | an accepted entry carries the given id and timestamp and the form's name, quantity, reason and cost; that cost is the non-zero catalog cost of the name, and the loss is quantity times cost |
| `WasteLog.UnvalidatedQuantity` | src/App.jsx:231-239 | an accepted submit with an untouched quantity logs a zero loss, and one with a cleared quantity (NaN) logs a NaN loss |
| `Ledger.Prepend` | src/App.jsx:845 | the new entry is first and the previous entries follow unchanged; the length grows by one |
| `Ledger.AddAllNewestFirst` | src/App.jsx:845 | after successive additions the ledger is the submitted entries in reverse order, followed by the earlier ledger |
| `Ledger.ReduceIsSum` | src/App.jsx:398 | the left-fold reduce from any start equals the start plus the sum of the entries' losses |
| `Ledger.CumulativeLoss` | src/App.jsx:398 | the reduce started at 0 equals the sum of the entries' losses, 0 for an empty ledger |
| `Ledger.LossSumReversed` | src/App.jsx:398 | in exact arithmetic, the total loss does not depend on the order of the entries |
| `Ledger.LossSumNaN` | src/App.jsx:398 | the total is NaN if and only if some entry's loss is NaN |
| `Ledger.LossSumNonNegative` | src/App.jsx:398 | when every entry's loss is finite and non-negative, the total is finite and non-negative |
| `Ledger.DashboardMetrics` | src/App.jsx:398-399 | `cumulativeLoss` is the sum of the entries' losses (0 for none) and `itemsLogged` is the number of entries |
| `Ledger.MetricsAfterSubmissions` | src/App.jsx:845 | after entries are added one by one, the count grows by their number and the total grows by the sum of their losses |
| `Routing.RenderPage` | src/App.jsx:847-890 | logged out, only FAQs, Contact, Signup and Login can appear, and Login appears exactly for the other ids; logged in, Login and Signup never appear, and Dashboard appears exactly for the ids other than reports, inventory, faqs and contact |
| `Routing.RenderPageId` | src/App.jsx:847-890 | setting a page's own id shows that page whenever the session may see it |
| `App.WastePlateApp.constructor` | src/App.jsx:832-835 | a new session is logged out, on the login page, with an empty ledger |
| `App.WastePlateApp.HandleLoginSuccess` | src/App.jsx:837-840 | login sets the flag and the dashboard page, which is then rendered; the ledger is unchanged |
| `App.WastePlateApp.HandleLogout` | src/App.jsx:841-844 | logout clears the flag and sets the login page, which is then rendered; the ledger is unchanged |
| `App.WastePlateApp.SetActivePage` | src/App.jsx:47-49 | navigation sets only the page id |
| `App.WastePlateApp.AddLogEntry` | src/App.jsx:845 | the ledger becomes the new entry followed by the old ledger; the count grows by one and the total by the entry's loss |
| `App.LogForm.constructor` | src/App.jsx:209-214 | the form starts empty with cost 0 and satisfies its invariant |
| `App.LogForm.HandleChange` | src/App.jsx:216-222 | the form becomes `Change` of the old form and keeps its invariant |
| `App.LogForm.HandleSearch` | src/App.jsx:224-229 | the two successive updates produce `Search` of the old form and keep the invariant |
| `App.LogForm.HandleSubmit` | src/App.jsx:231-246 | a rejected submit changes neither form nor ledger; an accepted one prepends the entry and resets the form; the ledger grows exactly when the name is in the catalog and a reason was chosen |

## Left out

- Floating point: money is exact integer cents and quantities are exact reals, so IEEE rounding is not modelled. Infinity cannot be typed into a number input and is not modelled.
- `Date.now()`, `toLocaleTimeString` and `toLocaleDateString` are clock and locale calls. The entry id and timestamp are parameters of the submit, so their uniqueness and order are not modelled.
- `alert` is a browser call. It is modelled only as "rejected, nothing changes".
- `parseFloat` of the quantity text is taken as given: `HandleChange` receives the parsed value.
- The browser's constraint validation of `min="1"` on the quantity input is not modelled. The model admits any parsed number, as the handler code itself does.
- `toFixed` formatting is display only.
- React mounting is not modelled: leaving the dashboard unmounts the form and discards its state.
- JSX layout, styling, icons and the logo are presentation only, and so are the mobile drawer flag, the fixed trend and "On Track" figures, and the Sidebar's conditional links.
- `ReportsPage`, `InventorySetupPage`, `FAQsPage` and `ContactPage` are static placeholders with no behaviour.
- The `LoginPage` and `SignupPage` forms have no validation. Their submit only calls `handleLoginSuccess`, which is modelled.
- The catalog's stock level is carried but only used for display.

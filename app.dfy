/**
 * The stateful parts of the app: `WastePlateApp`'s session, page and ledger
 * state, and `LogForm`'s form state, with the handlers that update them.
 */
module App {
  import opened Wrappers
  import opened JsNumbers
  import opened Inventory
  import opened WasteLog
  import opened Ledger
  import opened Routing

  class WastePlateApp {
    var activePage: string
    var wasteLogs: seq<LogEntry>
    var isLoggedIn: bool

    /** A fresh session: logged out, on the login page, with an empty ledger. */
    constructor ()
      ensures activePage == "login" && wasteLogs == [] && !isLoggedIn
      ensures RenderPage(isLoggedIn, activePage) == Login
      ensures DashboardMetrics(wasteLogs) == Metrics(Zero, 0)
    {
      activePage := "login";
      wasteLogs := [];
      isLoggedIn := false;
    }

    /** `handleLoginSuccess`, also what a signup calls: log in and go to the dashboard. */
    method HandleLoginSuccess()
      modifies this
      ensures isLoggedIn && activePage == "dashboard"
      ensures wasteLogs == old(wasteLogs)
      ensures RenderPage(isLoggedIn, activePage) == Dashboard
    {
      isLoggedIn := true;
      activePage := "dashboard";
    }

    /** `handleLogout`: log out and go to the login page; the ledger stays. */
    method HandleLogout()
      modifies this
      ensures !isLoggedIn && activePage == "login"
      ensures wasteLogs == old(wasteLogs)
      ensures RenderPage(isLoggedIn, activePage) == Login
    {
      isLoggedIn := false;
      activePage := "login";
    }

    /** `setActivePage`, as the navigation items and the login/signup switches call it. */
    method SetActivePage(id: string)
      modifies this
      ensures activePage == id
      ensures isLoggedIn == old(isLoggedIn) && wasteLogs == old(wasteLogs)
    {
      activePage := id;
    }

    /**
     * `addLogEntry`: prepend the new entry. The count grows by one and the
     * total loss grows by the entry's loss.
     */
    method AddLogEntry(newLog: LogEntry)
      modifies this
      ensures wasteLogs == Prepend(old(wasteLogs), newLog)
      ensures isLoggedIn == old(isLoggedIn) && activePage == old(activePage)
      ensures DashboardMetrics(wasteLogs)
           == Metrics(Add(newLog.totalLoss, DashboardMetrics(old(wasteLogs)).cumulativeLoss),
                      DashboardMetrics(old(wasteLogs)).itemsLogged + 1)
    {
      wasteLogs := [newLog] + wasteLogs;
      assert wasteLogs[1..] == old(wasteLogs);
    }
  }

  /** The waste-log form; the `inventoryItems` it is given is always `INVENTORY_ITEMS`. */
  class LogForm {
    var formData: FormData

    ghost predicate Valid()
      reads this
    {
      Consistent(formData)
    }

    constructor ()
      ensures formData == EmptyForm && Valid()
    {
      formData := EmptyForm;
      EmptyFormConsistent();
    }

    /** `handleChange` for the quantity field or the reason select. */
    method HandleChange(e: ChangeEvent)
      requires Valid()
      modifies this
      ensures Valid()
      ensures formData == Change(old(formData), e)
    {
      match e
      case QuantityInput(parsed) =>
        formData := formData.(quantity := Parsed(parsed));
      case ReasonInput(choice) =>
        formData := formData.(reason := Some(choice));
    }

    /** `handleSearch`: two successive updates, the typed name and then its catalog cost. */
    method HandleSearch(val: string)
      requires Valid()
      modifies this
      ensures Valid()
      ensures formData == Search(old(formData), val)
    {
      formData := formData.(itemName := val);
      var found := Find(InventoryItems(), val);
      formData := formData.(unitCost := if found.Some? then found.value.cost else 0);
    }

    /**
     * `handleSubmit`: an incomplete form is rejected with nothing changed;
     * otherwise the entry goes to `app.AddLogEntry` and the form is reset.
     * The ledger grows exactly when the item is in the catalog and a reason
     * was chosen.
     */
    method HandleSubmit(app: WastePlateApp, id: int, timestamp: string)
      requires Valid()
      modifies this, app
      ensures Valid()
      ensures app.isLoggedIn == old(app.isLoggedIn) && app.activePage == old(app.activePage)
      ensures Submit(old(formData), id, timestamp).None? ==>
                formData == old(formData) && app.wasteLogs == old(app.wasteLogs)
      ensures Submit(old(formData), id, timestamp).Some? ==>
                formData == EmptyForm &&
                app.wasteLogs == Prepend(old(app.wasteLogs), Submit(old(formData), id, timestamp).value)
      ensures |app.wasteLogs| == |old(app.wasteLogs)| + 1 <==>
                Find(InventoryItems(), old(formData).itemName).Some? && old(formData).reason.Some?
    {
      if formData.unitCost == 0 || formData.reason.None? || formData.itemName == "" {
        return;
      }
      var entry := LogEntry(id, formData.itemName, formData.quantity, formData.reason.value,
                            formData.unitCost, LossOf(formData.quantity, formData.unitCost), timestamp);
      app.AddLogEntry(entry);
      formData := EmptyForm;
      EmptyFormConsistent();
    }
  }
}

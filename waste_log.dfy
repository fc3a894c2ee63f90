/**
 * The waste-log form's data and its pure transitions: the item search, the
 * quantity and reason inputs, the submit decision and the reset.
 */
module WasteLog {
  import opened Wrappers
  import opened JsNumbers
  import opened Inventory

  /** The three options of the reason select; its disabled "" placeholder is `None` in the form. */
  datatype Reason = PrepError | Expiration | Spillage

  /** The form's quantity: the initial "" string, or what `parseFloat` made of the input. */
  datatype Quantity = Blank | Parsed(n: JsNumber)

  /** `formData`; `unitCost` in cents. */
  datatype FormData = FormData(itemName: string, quantity: Quantity, reason: Option<Reason>, unitCost: nat)

  /** A waste-log entry as `handleSubmit` builds it; `id` and `timestamp` come from the clock. */
  datatype LogEntry = LogEntry(
    id: int,
    itemName: string,
    quantity: Quantity,
    reason: Reason,
    unitCost: nat,
    totalLoss: JsNumber,
    timestamp: string)

  /** The two inputs wired to `handleChange`: the quantity field (already parsed) and the reason select. */
  datatype ChangeEvent = QuantityInput(parsed: JsNumber) | ReasonInput(choice: Reason)

  /** The initial and reset value of `formData`. */
  const EmptyForm: FormData := FormData("", Blank, None, 0)

  /** The form invariant: `unitCost` is the catalog cost of `itemName`, or 0 when the catalog has no such name. */
  predicate Consistent(f: FormData)
  {
    f.unitCost == CostOf(InventoryItems(), f.itemName)
  }

  lemma EmptyFormConsistent()
    ensures Consistent(EmptyForm)
  {
  }

  /**
   * `handleSearch`: store the typed name, then snapshot the cost of the catalog
   * item with exactly that name (0 if none). Quantity and reason are untouched.
   */
  function Search(f: FormData, val: string): (g: FormData)
    ensures Consistent(g)
    ensures g.itemName == val && g.quantity == f.quantity && g.reason == f.reason
    ensures Find(InventoryItems(), val).None? ==> g.unitCost == 0
  {
    var named := f.(itemName := val);
    named.(unitCost := CostOf(InventoryItems(), val))
  }

  /** `handleChange`: the quantity or the reason changes, the item name and its cost do not. */
  function Change(f: FormData, e: ChangeEvent): (g: FormData)
    ensures g.itemName == f.itemName && g.unitCost == f.unitCost
    ensures Consistent(f) ==> Consistent(g)
    ensures e.QuantityInput? ==> g.quantity == Parsed(e.parsed) && g.reason == f.reason
    ensures e.ReasonInput? ==> g.reason == Some(e.choice) && g.quantity == f.quantity
  {
    match e
    case QuantityInput(p) => f.(quantity := Parsed(p))
    case ReasonInput(r) => f.(reason := Some(r))
  }

  /**
   * `quantity * unitCost` in JavaScript: the blank string counts as 0, NaN
   * stays NaN, a finite quantity scales the cost.
   */
  function LossOf(q: Quantity, unitCost: nat): (r: JsNumber)
    ensures r.NaN? <==> q == Parsed(NaN)
    ensures q == Blank ==> r == Zero
    ensures q.Parsed? && q.n.Finite? ==> r == Finite(q.n.value * unitCost as real)
    ensures r.Finite? && q.Parsed? && unitCost > 0 ==>
              (r.value > 0.0 <==> q.n.value > 0.0) && (r.value == 0.0 <==> q.n.value == 0.0)
  {
    match q
    case Blank => Zero
    case Parsed(NaN) => NaN
    case Parsed(Finite(v)) => Finite(v * unitCost as real)
  }

  /** The guard of `handleSubmit`: a zero cost, an unchosen reason or an empty item name rejects. */
  predicate Complete(f: FormData)
  {
    f.unitCost != 0 && f.reason.Some? && f.itemName != ""
  }

  /**
   * `handleSubmit`'s outcome: `None` when it alerts, otherwise the entry passed
   * to `onLogSubmit`. For a form that keeps its invariant, a submit is accepted
   * exactly when the item name is in the catalog and a reason was chosen:
   * quantity plays no part.
   */
  function Submit(f: FormData, id: int, timestamp: string): (r: Option<LogEntry>)
    ensures Consistent(f) ==>
              (r.Some? <==> Find(InventoryItems(), f.itemName).Some? && f.reason.Some?)
  {
    CostZeroIffUnknown(f.itemName);
    KnownNameNonEmpty(f.itemName);
    if !Complete(f) then None
    else Some(LogEntry(id, f.itemName, f.quantity, f.reason.value, f.unitCost,
                       LossOf(f.quantity, f.unitCost), timestamp))
  }

  /** A name absent from `INVENTORY_ITEMS` never produces an entry, whatever the quantity and reason. */
  lemma UnknownItemNeverLogged(f: FormData, id: int, timestamp: string)
    requires Consistent(f)
    requires forall i :: 0 <= i < |InventoryItems()| ==> InventoryItems()[i].name != f.itemName
    ensures Submit(f, id, timestamp) == None
  {
  }

  /**
   * An accepted submit copies the form's name, quantity, reason and cost into
   * the entry; that cost is the non-zero catalog cost of the item, and the
   * entry's loss is quantity times cost.
   */
  lemma {:induction false} LoggedEntrySnapshotsCatalogCost(f: FormData, id: int, timestamp: string)
    requires Consistent(f)
    requires Submit(f, id, timestamp).Some?
    ensures var e := Submit(f, id, timestamp).value;
      && e.id == id && e.timestamp == timestamp
      && e.itemName == f.itemName && e.quantity == f.quantity
      && f.reason == Some(e.reason) && e.unitCost == f.unitCost
      && e.totalLoss == LossOf(e.quantity, e.unitCost)
      && e.unitCost > 0
      && exists k :: FirstMatch(InventoryItems(), e.itemName, k) && InventoryItems()[k].cost == e.unitCost
  {
    var items := InventoryItems();
    var k :| FirstMatch(items, f.itemName, k) && items[k] == Find(items, f.itemName).value;
    assert items[k].cost == f.unitCost;
  }

  /**
   * The quantity is never validated: an untouched quantity field logs an entry
   * with zero loss, and a cleared one (NaN) logs an entry whose loss is NaN.
   */
  lemma UnvalidatedQuantity(f: FormData, id: int, timestamp: string)
    requires Submit(f, id, timestamp).Some?
    ensures f.quantity == Blank ==> Submit(f, id, timestamp).value.totalLoss == Zero
    ensures f.quantity == Parsed(NaN) ==> Submit(f, id, timestamp).value.totalLoss == NaN
  {
  }
}

/**
  The shared page script: the dashboard's route table, and the inventory
  entry form with its live total and its submit handling.
*/
module Shell {
  import opened Values
  import Ledger

  /** The dashboard's section keys and their paths (the key `inventoryy` is spelled as in the page). */
  const Routes: map<string, string> := map[
    "sales" := "/sales",
    "salesChart" := "/salesChart",
    "advance_order" := "./advanceOrder",
    "inventoryy" := "/inventorySelect",
    "book_keeping" := "./templates/book_keeping.html",
    "bill" := "/bill"]

  datatype Navigation = Navigate(path: string) | UnderDevelopment

  /** `goTo`: a known key with a non-empty path navigates; anything else only alerts. */
  function GoTo(section: string): (n: Navigation)
    ensures n.Navigate? ==> section in Routes && n.path == Routes[section]
  {
    if section in Routes && Routes[section] != "" then Navigate(Routes[section]) else UnderDevelopment
  }

  /** Exactly the six listed keys navigate, each to its own path. */
  lemma GoToExactlySixKeys(section: string)
    ensures Routes.Keys == {"sales", "salesChart", "advance_order", "inventoryy", "book_keeping", "bill"}
    ensures GoTo(section).Navigate? <==> section in Routes
    ensures GoTo("inventory") == UnderDevelopment && GoTo("inventoryy") == Navigate("/inventorySelect")
  {
    assert "inventory" != "inventoryy" by {
      assert |"inventory"| != |"inventoryy"|;
    }
    if section in Routes {
      assert Routes[section] != "";
    }
  }

  // ------------------------------------------------------- inventory form

  /** The inventory form's inputs; `total` is what the total field shows, read back as a number. */
  datatype InventoryInputs = InventoryInputs(
    date: string, supplierName: string, supplierContact: string, fishType: string, kind: string,
    quantity: Text, unitPrice: Text, total: Num)

  /**
    The request body the submit handler posts: the text inputs as strings,
    the three numbers through `parseFloat` (NaN is sent as null).
  */
  function InventoryBody(inputs: InventoryInputs): (body: Ledger.Json)
    ensures forall f :: f in Ledger.InventoryFields ==> f in body
    ensures body["quantity"] == NumToJson(ParseFloat(inputs.quantity))
    ensures body["unitPrice"] == NumToJson(ParseFloat(inputs.unitPrice))
    ensures body["type"] == JStr(inputs.kind) && body["fishType"] == JStr(inputs.fishType)
  {
    map["date" := JStr(inputs.date), "supplierName" := JStr(inputs.supplierName),
        "supplierContact" := JStr(inputs.supplierContact), "fishType" := JStr(inputs.fishType),
        "type" := JStr(inputs.kind), "quantity" := NumToJson(ParseFloat(inputs.quantity)),
        "unitPrice" := NumToJson(ParseFloat(inputs.unitPrice)), "totalPrice" := NumToJson(inputs.total)]
  }

  /**
    With both numbers filled in, the server accepts the entry, stores the
    same total the form showed, and moves the stock by plus the quantity
    for "IN" and minus it for any other type.
  */
  lemma NumericEntryIsAccepted(inputs: InventoryInputs)
    requires inputs.quantity.Numeral? && inputs.unitPrice.Numeral?
    ensures var r := Ledger.CheckInventory(Some(InventoryBody(inputs)));
      && r.Ok?
      && Val(r.value.record.totalPrice) == Mul(ToNumber(inputs.quantity), ToNumber(inputs.unitPrice))
      && r.value.change == (if inputs.kind == "IN" then inputs.quantity.value else -inputs.quantity.value)
  {
    var body := InventoryBody(inputs);
    assert "date" in body;
    assert Ledger.FirstMissing(Ledger.InventoryFields, body).None?;
    assert JStr(inputs.kind) == JStr("IN") <==> inputs.kind == "IN";
    Ledger.InventoryTotalIsProduct(Some(body));
  }

  /**
    Recording an accepted "IN" entry from the page raises the summary's
    total purchases by quantity times price and lowers profit by the same.
  */
  lemma AcceptedPurchaseRaisesPurchases(
    sales: seq<Ledger.SaleRecord>, inventory: seq<Ledger.InventoryRecord>, inputs: InventoryInputs)
    requires inputs.quantity.Numeral? && inputs.unitPrice.Numeral? && inputs.kind == "IN"
    ensures
      var e := Ledger.CheckInventory(Some(InventoryBody(inputs)));
      && e.Ok?
      && var before, after := Ledger.Summarize(sales, inventory), Ledger.Summarize(sales, inventory + [e.value.record]);
      && after.totalPurchases == before.totalPurchases + inputs.quantity.value * inputs.unitPrice.value
      && after.profit == before.profit - inputs.quantity.value * inputs.unitPrice.value
      && after.totalSales == before.totalSales
  {
    var body := InventoryBody(inputs);
    NumericEntryIsAccepted(inputs);
    Ledger.InventoryTotalIsProduct(Some(body));
    var e := Ledger.CheckInventory(Some(body)).value;
    assert e.record.kind == JStr("IN");
    Ledger.SummaryAfterPurchase(sales, inventory, e.record);
  }

  /** A blank quantity is sent as null: the server answers 500 and the reply has no success flag. */
  lemma BlankQuantityIsRefused(inputs: InventoryInputs)
    requires inputs.quantity == Blank
    ensures Ledger.CheckInventory(Some(InventoryBody(inputs))) == Err(Ledger.ServerError)
    ensures !Truthy(Ledger.SuccessFlag(Ledger.Failure(Ledger.ServerError)))
  {
    var body := InventoryBody(inputs);
    assert "date" in body;
    assert Ledger.FirstMissing(Ledger.InventoryFields, body).None?;
  }

  /** The total field as `calculateTotal` fills it: `Number(quantity) * Number(unitPrice)`. */
  function LiveTotal(quantity: Text, unitPrice: Text): Num
  {
    Mul(ToNumber(quantity), ToNumber(unitPrice))
  }

  /** A blank input counts as 0, any junk makes the total NaN, and two numbers give their product. */
  lemma LiveTotalCases(quantity: Text, unitPrice: Text)
    ensures (quantity.Blank? && !unitPrice.Junk?) || (unitPrice.Blank? && !quantity.Junk?) ==>
              LiveTotal(quantity, unitPrice) == Val(0.0)
    ensures quantity.Junk? || unitPrice.Junk? ==> LiveTotal(quantity, unitPrice).NaN?
    ensures quantity.Numeral? && unitPrice.Numeral? ==>
              LiveTotal(quantity, unitPrice) == Val(quantity.value * unitPrice.value)
  {
  }

  /** The inventory page: the form's inputs, their reset values, and where the page has navigated. */
  class InventoryForm {
    var inputs: InventoryInputs
    const defaults: InventoryInputs
    var location: Option<string>

    constructor (initial: InventoryInputs)
      ensures inputs == initial && defaults == initial && location.None?
    {
      inputs, defaults, location := initial, initial, None;
    }

    /** The quantity or unit price input event: store it and recompute the total as quantity x price. */
    method EditAmounts(quantity: Text, unitPrice: Text)
      modifies this`inputs
      ensures inputs == old(inputs).(quantity := quantity, unitPrice := unitPrice,
                                     total := LiveTotal(quantity, unitPrice))
    {
      var total := LiveTotal(quantity, unitPrice);
      inputs := inputs.(quantity := quantity, unitPrice := unitPrice, total := total);
    }

    /** Typing into the other inputs. */
    method EditDetails(date: string, supplierName: string, supplierContact: string, fishType: string, kind: string)
      modifies this`inputs
      ensures inputs == old(inputs).(date := date, supplierName := supplierName,
                                     supplierContact := supplierContact, fishType := fishType, kind := kind)
    {
      inputs := inputs.(date := date, supplierName := supplierName, supplierContact := supplierContact,
                        fishType := fishType, kind := kind);
    }

    /**
      The submit handler: post the body; only a truthy `success` in the
      reply resets the form and navigates to the inventory page.
    */
    method Submit(reply: Ledger.Reply) returns (sent: Ledger.Json)
      modifies this`inputs, this`location
      ensures sent == InventoryBody(old(inputs))
      ensures Truthy(Ledger.SuccessFlag(reply)) ==> inputs == defaults && location == Some("/inventory")
      ensures !Truthy(Ledger.SuccessFlag(reply)) ==> inputs == old(inputs) && location == old(location)
      ensures Truthy(Ledger.SuccessFlag(reply)) <==> reply.Saved? || reply.SaleRecorded? || reply.StockReset?
    {
      sent := InventoryBody(inputs);
      if Truthy(Ledger.SuccessFlag(reply)) {
        inputs := defaults;
        location := Some("/inventory");
      }
    }
  }
}

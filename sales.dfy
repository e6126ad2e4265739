/**
  The sales page: the current-stock table with its low-stock flag and unit
  default, the sale form's request body, and the two-step reset flow that
  moves the page between the stock view, the confirm view and the reset
  request.
*/
module Sales {
  import opened Values
  import Ledger

  /** One element of the stock list; the two optional members are never sent by the server. */
  datatype StockItem = StockItem(fishType: JsonValue, quantity: real, minStockLevel: Option<real>, unit: Option<string>)

  /** `item.min_stock_level || 10`: a missing or zero level means 10. */
  function Threshold(item: StockItem): (t: real)
    ensures item.minStockLevel.None? || item.minStockLevel.value == 0.0 ==> t == 10.0
    ensures item.minStockLevel.Some? && item.minStockLevel.value != 0.0 ==> t == item.minStockLevel.value
  {
    if item.minStockLevel.None? || item.minStockLevel.value == 0.0 then 10.0 else item.minStockLevel.value
  }

  /** The row is flagged when the quantity is at or below the threshold. */
  predicate LowStock(item: StockItem)
  {
    item.quantity <= Threshold(item)
  }

  /** `item.unit || 'kg'`. */
  function UnitOf(item: StockItem): (u: string)
    ensures u != ""
    ensures item.unit.None? || item.unit.value == "" ==> u == "kg"
    ensures item.unit.Some? && item.unit.value != "" ==> u == item.unit.value
  {
    if item.unit.None? || item.unit.value == "" then "kg" else item.unit.value
  }

  /** One rendered table row: fish type, quantity, unit and status. */
  datatype StockLine = StockLine(fishType: JsonValue, quantity: real, unit: string, low: bool)

  /** The table body: one line per item, in the order received. */
  function Lines(items: seq<StockItem>): (lines: seq<StockLine>)
    ensures |lines| == |items|
    ensures forall i :: 0 <= i < |items| ==>
      lines[i] == StockLine(items[i].fishType, items[i].quantity, UnitOf(items[i]), LowStock(items[i]))
  {
    seq(|items|, i requires 0 <= i < |items| =>
      StockLine(items[i].fishType, items[i].quantity, UnitOf(items[i]), LowStock(items[i])))
  }

  /** An element as `GET /api/stock` builds it: only the fish type and quantity. */
  function ServerItem(fishType: JsonValue, quantity: real): StockItem
  {
    StockItem(fishType, quantity, None, None)
  }

  /** For what the server sends, the threshold is 10 (inclusive) and the unit is kg. */
  lemma ServerItemsUseDefaults(fishType: JsonValue, quantity: real)
    ensures LowStock(ServerItem(fishType, quantity)) <==> quantity <= 10.0
    ensures UnitOf(ServerItem(fishType, quantity)) == "kg"
  {
  }

  /** The boundary: exactly 10 is low stock, anything above is not. */
  lemma LowStockBoundary()
    ensures LowStock(ServerItem(JStr("Rohu"), 10.0))
    ensures !LowStock(ServerItem(JStr("Rohu"), 10.01))
    ensures LowStock(StockItem(JStr("Rohu"), 5.0, Some(0.0), None))
    ensures !LowStock(StockItem(JStr("Rohu"), 5.0, Some(4.0), None))
  {
  }

  /** After the reset every row the server sends is flagged low. */
  lemma ResetFlagsEveryRow(stock: Ledger.Stock)
    ensures forall ft :: ft in Ledger.Zeroed(stock) ==> LowStock(ServerItem(ft, Ledger.Zeroed(stock)[ft]))
  {
    forall ft | ft in Ledger.Zeroed(stock)
      ensures LowStock(ServerItem(ft, Ledger.Zeroed(stock)[ft]))
    {
      ServerItemsUseDefaults(ft, Ledger.Zeroed(stock)[ft]);
    }
  }

  // ---------------------------------------------------------------- sale

  /** The sale form's inputs. */
  datatype SaleForm = SaleForm(
    date: string, purchaserName: string, purchaserContact: string, fishType: string,
    quantity: Text, unitPrice: Text)

  /**
    `recordNewSale`'s body: the text inputs as strings, the two numbers
    through `parseFloat` (NaN is sent as null) and the type always "OUT".
  */
  function SaleBody(form: SaleForm): (body: Ledger.Json)
    ensures forall f :: f in Ledger.SaleFields ==> f in body
    ensures "type" in body && body["type"] == JStr("OUT")
    ensures body["quantity"] == NumToJson(ParseFloat(form.quantity))
    ensures body["unitPrice"] == NumToJson(ParseFloat(form.unitPrice))
    ensures body["fishType"] == JStr(form.fishType)
  {
    map["date" := JStr(form.date), "purchaserName" := JStr(form.purchaserName),
        "purchaserContact" := JStr(form.purchaserContact), "fishType" := JStr(form.fishType),
        "quantity" := NumToJson(ParseFloat(form.quantity)),
        "unitPrice" := NumToJson(ParseFloat(form.unitPrice)), "type" := JStr("OUT")]
  }

  /** The body always carries every field the server requires. */
  lemma SaleBodyIsComplete(form: SaleForm)
    ensures Ledger.FirstMissing(Ledger.SaleFields, SaleBody(form)).None?
  {
  }

  /** A blank quantity is sent as null, which the server answers with 500, not a 400. */
  lemma BlankQuantityIsServerError(stock: Ledger.Stock, form: SaleForm)
    requires form.quantity == Blank
    ensures Ledger.CheckSale(stock, Some(SaleBody(form))) == Err(Ledger.ServerError)
  {
    var body := SaleBody(form);
    assert "date" in body;
    assert body != map[];
    SaleBodyIsComplete(form);
  }

  /** A sale the server accepts deducts the parsed quantity of the chosen fish type. */
  lemma AcceptedSaleDeductsFormQuantity(stock: Ledger.Stock, form: SaleForm)
    requires Ledger.CheckSale(stock, Some(SaleBody(form))).Ok?
    ensures form.quantity.Numeral?
    ensures
      var e := Ledger.CheckSale(stock, Some(SaleBody(form))).value;
      e.quantity == form.quantity.value && e.record.fishType == JStr(form.fishType)
  {
  }

  /**
    Recording an accepted page sale raises the summary's total sales and
    profit by the form's quantity times its price, and nothing else but the
    count.
  */
  lemma AcceptedSaleRaisesTotalSales(
    stock: Ledger.Stock, sales: seq<Ledger.SaleRecord>, inventory: seq<Ledger.InventoryRecord>, form: SaleForm)
    requires Ledger.CheckSale(stock, Some(SaleBody(form))).Ok?
    ensures form.quantity.Numeral? && form.unitPrice.Numeral?
    ensures
      var e := Ledger.CheckSale(stock, Some(SaleBody(form))).value;
      var before, after := Ledger.Summarize(sales, inventory), Ledger.Summarize(sales + [e.record], inventory);
      && after.totalSales == before.totalSales + form.quantity.value * form.unitPrice.value
      && after.profit == before.profit + form.quantity.value * form.unitPrice.value
      && after.totalPurchases == before.totalPurchases
  {
    var body := SaleBody(form);
    var e := Ledger.CheckSale(stock, Some(body)).value;
    Ledger.SaleTotalIsProduct(stock, Some(body));
    assert e.record.kind == JStr("OUT");
    Ledger.SummaryAfterSale(sales, inventory, e.record);
  }

  // ---------------------------------------------------------------- page

  /** What `salesContent` shows. */
  datatype View =
    | Welcome
    | StockTable(lines: seq<StockLine>)
    | StockError
    | ResetConfirm
    | SaleEntryForm

  /** The fetched stock list, or `None` when the request or its decoding failed. */
  function StockView(fetched: Option<seq<StockItem>>): View
  {
    if fetched.Some? then StockTable(Lines(fetched.value)) else StockError
  }

  /** The page's content area and the number of reset requests it has sent. */
  class SalesPage {
    var content: View
    var resetRequests: nat

    constructor ()
      ensures content == Welcome && resetRequests == 0
    {
      content := Welcome;
      resetRequests := 0;
    }

    /** `loadCurrentStock`: the stock table, or the error panel when the fetch fails. */
    method LoadCurrentStock(fetched: Option<seq<StockItem>>)
      modifies this`content
      ensures content == StockView(fetched)
      ensures fetched.Some? ==> content.lines == Lines(fetched.value)
    {
      if fetched.None? {
        content := StockError;
        return;
      }
      content := StockTable(Lines(fetched.value));
    }

    /** The Reset button: show the confirm view; nothing is sent. */
    method ConfirmResetStock()
      modifies this`content
      ensures content == ResetConfirm
    {
      content := ResetConfirm;
    }

    /** The confirm view's Cancel: reload the stock view without resetting. */
    method CancelReset(fetched: Option<seq<StockItem>>)
      requires content == ResetConfirm
      modifies this`content
      ensures content == StockView(fetched) && resetRequests == old(resetRequests)
    {
      LoadCurrentStock(fetched);
    }

    /**
      The confirm view's Confirm (`resetAllStock`): one reset request; on
      success reload the stock view, on failure leave the page as it is.
    */
    method ConfirmReset(ok: bool, fetched: Option<seq<StockItem>>)
      requires content == ResetConfirm
      modifies this
      ensures resetRequests == old(resetRequests) + 1
      ensures ok ==> content == StockView(fetched)
      ensures !ok ==> content == ResetConfirm
    {
      resetRequests := resetRequests + 1;
      if ok {
        LoadCurrentStock(fetched);
      }
    }

    /** The Add Sales button: show the sale form. */
    method LoadAddSalesForm()
      modifies this`content
      ensures content == SaleEntryForm
    {
      content := SaleEntryForm;
    }

    /**
      `recordNewSale`: post the form's body; when the server answers with
      success reload the stock view, otherwise keep the form.
    */
    method RecordNewSale(form: SaleForm, ok: bool, fetched: Option<seq<StockItem>>) returns (sent: Ledger.Json)
      requires content == SaleEntryForm
      modifies this`content
      ensures sent == SaleBody(form) && sent["type"] == JStr("OUT")
      ensures ok ==> content == StockView(fetched)
      ensures !ok ==> content == SaleEntryForm
      ensures resetRequests == old(resetRequests)
    {
      sent := SaleBody(form);
      if ok {
        LoadCurrentStock(fetched);
      }
    }
  }
}

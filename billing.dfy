/**
  The billing workbench: an ordered table of rows (fish name, quantity,
  price) that the user appends to, edits and removes from; the calculation
  of line totals, subtotal, tax, total and balance due; the preview; and the
  save, which posts the valid rows and resets the editor to one blank row.
*/
module Billing {
  import opened Values

  /** One table row: its button's counter value and its three inputs. */
  datatype Row = Row(id: nat, name: string, qty: Text, price: Text)

  /** A new row: empty name, quantity "0", price "0.00". */
  function BlankRow(id: nat): Row
  {
    Row(id, "", Numeral(0.0), Numeral(0.0))
  }

  /** `parseFloat(...) || 0` of the quantity input. */
  function Quantity(r: Row): real
  {
    OrZero(ParseFloat(r.qty))
  }

  /** `parseFloat(...) || 0` of the price input. */
  function Price(r: Row): real
  {
    OrZero(ParseFloat(r.price))
  }

  /** A row's line total, `(parseFloat(qty) || 0) * (parseFloat(price) || 0)`. */
  function LineTotal(r: Row): real
  {
    Quantity(r) * Price(r)
  }

  /** A blank or non-numeric input counts as 0; two numbers give their product. */
  lemma LineTotalIsProduct(r: Row)
    ensures r.qty.Numeral? && r.price.Numeral? ==> LineTotal(r) == r.qty.value * r.price.value
    ensures !r.qty.Numeral? || !r.price.Numeral? ==> LineTotal(r) == 0.0
  {
  }

  /** The sum of the line totals, accumulated in table order. */
  function Subtotal(rows: seq<Row>): real
  {
    if rows == [] then 0.0 else Subtotal(rows[..|rows| - 1]) + LineTotal(rows[|rows| - 1])
  }

  lemma {:induction false} SubtotalAppend(a: seq<Row>, b: seq<Row>)
    ensures Subtotal(a + b) == Subtotal(a) + Subtotal(b)
    decreases |b|
  {
    if b == [] {
      assert a + b == a;
    } else {
      assert (a + b)[..|a + b| - 1] == a + b[..|b| - 1];
      assert (a + b)[|a + b| - 1] == b[|b| - 1];
      SubtotalAppend(a, b[..|b| - 1]);
    }
  }

  lemma SubtotalSingle(r: Row)
    ensures Subtotal([r]) == LineTotal(r)
  {
    assert [r][..0] == [];
  }

  /** Removing a row takes exactly its line total off the subtotal. */
  lemma SubtotalRemove(rows: seq<Row>, i: nat)
    requires i < |rows|
    ensures Subtotal(rows) == Subtotal(rows[..i] + rows[i + 1..]) + LineTotal(rows[i])
  {
    var pre, r, post := rows[..i], rows[i], rows[i + 1..];
    SplitAround(rows, i);
    SubtotalAppend(pre + [r], post);
    SubtotalAppend(pre, [r]);
    SubtotalAppend(pre, post);
    SubtotalSingle(r);
  }

  lemma SplitAround(rows: seq<Row>, i: nat)
    requires i < |rows|
    ensures rows == (rows[..i] + [rows[i]]) + rows[i + 1..]
  {
  }

  /** The figures `calculateBill` writes. */
  datatype Totals = Totals(subtotal: real, taxPercent: real, taxAmount: real, totalAmount: real, balanceDue: real)

  /**
    Tax is a percentage of the subtotal, the total adds it, and the balance
    due adds the previous balance and takes off the amount paid; blank
    inputs count as 0.
  */
  function Compute(rows: seq<Row>, tax: Text, paid: Text, previous: Text): (t: Totals)
    ensures t.subtotal == Subtotal(rows) && t.taxPercent == OrZero(ParseFloat(tax))
    ensures t.taxAmount == t.subtotal * (t.taxPercent / 100.0) && t.totalAmount == t.subtotal + t.taxAmount
    ensures t.totalAmount == t.subtotal * (1.0 + t.taxPercent / 100.0)
    ensures t.balanceDue == t.subtotal * (1.0 + t.taxPercent / 100.0)
                            + OrZero(ParseFloat(previous)) - OrZero(ParseFloat(paid))
  {
    var subtotal := Subtotal(rows);
    var taxInput := OrZero(ParseFloat(tax));
    var taxAmt := subtotal * (taxInput / 100.0);
    var totalAmount := subtotal + taxAmt;
    var amountPaid := OrZero(ParseFloat(paid));
    var previousBalance := OrZero(ParseFloat(previous));
    Totals(subtotal, taxInput, taxAmt, totalAmount, totalAmount + previousBalance - amountPaid)
  }

  /** Two rows (2 x 150, 1.5 x 100), 5% tax, 50 brought forward, 200 paid. */
  lemma WorkedExample()
    ensures
      var rows := [Row(1, "Pomfret", Numeral(2.0), Numeral(150.0)), Row(2, "Tuna", Numeral(1.5), Numeral(100.0))];
      Compute(rows, Numeral(5.0), Numeral(200.0), Numeral(50.0))
        == Totals(450.0, 5.0, 22.5, 472.5, 322.5)
  {
    var rows := [Row(1, "Pomfret", Numeral(2.0), Numeral(150.0)), Row(2, "Tuna", Numeral(1.5), Numeral(100.0))];
    assert rows[..1] == [rows[0]] && rows[..1][..0] == [];
    LineTotalIsProduct(rows[0]);
    LineTotalIsProduct(rows[1]);
    assert Subtotal(rows[..1]) == 300.0;
    assert Subtotal(rows) == 450.0;
    assert 450.0 * (5.0 / 100.0) == 22.5;
  }

  /** The page's totals text, as `parseFloat` reads it back. */
  datatype Shown = Shown(subtotal: Num, tax: Num, total: Num, balanceDue: Num)

  /** What `calculateBill` writes: the tax field shows the percentage, not the amount. */
  function ShownOf(t: Totals): Shown
  {
    Shown(Val(t.subtotal), Val(t.taxPercent), Val(t.totalAmount), Val(t.balanceDue))
  }

  // ------------------------------------------------------------ validity

  /** The one validity test used by both the preview and the save. */
  predicate ValidRow(r: Row)
  {
    r.name != "" && Quantity(r) > 0.0 && Price(r) > 0.0
  }

  predicate HasValidRow(rows: seq<Row>)
  {
    exists i :: 0 <= i < |rows| && ValidRow(rows[i])
  }

  /** The valid rows, in table order. */
  function ValidRows(rows: seq<Row>): seq<Row>
  {
    if rows == [] then []
    else ValidRows(rows[..|rows| - 1]) + (if ValidRow(rows[|rows| - 1]) then [rows[|rows| - 1]] else [])
  }

  lemma {:induction false} ValidRowsMembers(rows: seq<Row>)
    ensures forall r :: r in ValidRows(rows) <==> r in rows && ValidRow(r)
  {
    if rows != [] {
      var init := rows[..|rows| - 1];
      ValidRowsMembers(init);
      assert rows == init + [rows[|rows| - 1]];
    }
  }

  /** The valid rows are empty exactly when no row is valid. */
  lemma ValidRowsEmpty(rows: seq<Row>)
    ensures ValidRows(rows) == [] <==> !HasValidRow(rows)
  {
    ValidRowsMembers(rows);
    if HasValidRow(rows) {
      var i :| 0 <= i < |rows| && ValidRow(rows[i]);
      assert rows[i] in ValidRows(rows);
    }
  }

  /** An entry of the shop's fish catalogue (`fishItems`). */
  datatype FishItem = FishItem(id: nat, name: string)

  /** `fishItems.find(item => item.name === name)`. */
  function FindFishItem(items: seq<FishItem>, name: string): (r: Option<FishItem>)
    ensures r.None? <==> forall k :: 0 <= k < |items| ==> items[k].name != name
    ensures r.Some? ==> r.value.name == name
    ensures r.Some? ==>
      exists k :: 0 <= k < |items| && items[k] == r.value && forall j :: 0 <= j < k ==> items[j].name != name
  {
    if items == [] then None
    else if items[0].name == name then Some(items[0])
    else
      var r := FindFishItem(items[1..], name);
      assert forall k :: 1 <= k < |items| ==> items[k] == items[1..][k - 1];
      r
  }

  /** One entry of the saved bill's `items`. */
  datatype Item = Item(fishItemId: Option<nat>, fishName: string, quantity: real, unitPrice: real, totalPrice: real)

  function ItemOf(r: Row, fishItems: seq<FishItem>): Item
  {
    var found := FindFishItem(fishItems, r.name);
    Item(if found.Some? then Some(found.value.id) else None, r.name, Quantity(r), Price(r), Quantity(r) * Price(r))
  }

  /** The save's `items`: one per valid row, in table order. */
  function Items(rows: seq<Row>, fishItems: seq<FishItem>): seq<Item>
  {
    if rows == [] then []
    else
      Items(rows[..|rows| - 1], fishItems)
      + (if ValidRow(rows[|rows| - 1]) then [ItemOf(rows[|rows| - 1], fishItems)] else [])
  }

  /** The payload items are exactly the valid rows, in order, each priced qty x price. */
  lemma {:induction false} ItemsAreValidRows(rows: seq<Row>, fishItems: seq<FishItem>)
    ensures |Items(rows, fishItems)| == |ValidRows(rows)|
    ensures forall k :: 0 <= k < |ValidRows(rows)| ==>
      Items(rows, fishItems)[k] == ItemOf(ValidRows(rows)[k], fishItems)
  {
    if rows != [] {
      ItemsAreValidRows(rows[..|rows| - 1], fishItems);
    }
  }

  /** `fishItems` is never filled, so every `fish_item_id` is null. */
  lemma {:induction false} NoFishItemIds(rows: seq<Row>)
    ensures forall k :: 0 <= k < |Items(rows, [])| ==> Items(rows, [])[k].fishItemId.None?
  {
    if rows != [] {
      NoFishItemIds(rows[..|rows| - 1]);
    }
  }

  // ------------------------------------------------------------- payload

  /** The JSON body `saveBillToBackend` posts. */
  datatype Payload = Payload(
    customerName: string, customerPhone: string, billDate: string, items: seq<Item>,
    subtotal: Num, tax: Num, totalAmount: Num, previousBalance: real, amountPaid: real,
    balanceDue: Num)

  /**
    Whether and what the save posts: nothing for a blank (trimmed) name, a
    NaN subtotal or total on the page, or no valid row. The totals are the
    ones on the page; the two amounts are read from their inputs again.
  */
  function BillPayload(
    name: string, phone: string, billDate: string, rows: seq<Row>, fishItems: seq<FishItem>,
    shown: Shown, paid: Text, previous: Text): (p: Option<Payload>)
    ensures p.Some? ==> Trim(name) != "" && shown.subtotal.Val? && shown.total.Val? && HasValidRow(rows)
    ensures (Trim(name) != "" && shown.subtotal.Val? && shown.total.Val? && HasValidRow(rows)) ==> p.Some?
    ensures p.Some? ==> p.value.items == Items(rows, fishItems) && p.value.tax == shown.tax
    ensures p.Some? ==>
      && p.value.customerName == Trim(name) && p.value.customerPhone == Trim(phone) && p.value.billDate == billDate
      && p.value.subtotal == shown.subtotal && p.value.totalAmount == shown.total
      && p.value.balanceDue == shown.balanceDue
      && p.value.previousBalance == OrZero(ParseFloat(previous)) && p.value.amountPaid == OrZero(ParseFloat(paid))
  {
    var customerName := Trim(name);
    if customerName == "" then None
    else if shown.subtotal.NaN? || shown.total.NaN? then None
    else
      var items := Items(rows, fishItems);
      ItemsAreValidRows(rows, fishItems);
      ValidRowsEmpty(rows);
      if items == [] then None
      else
        Some(Payload(customerName, Trim(phone), billDate, items, shown.subtotal, shown.tax, shown.total,
                     OrZero(ParseFloat(previous)), OrZero(ParseFloat(paid)), shown.balanceDue))
  }

  /**
    After a recalculation the posted `tax` is the percentage; it equals the
    tax amount only when the percentage is 0 or the subtotal is 100.
  */
  lemma TaxSentIsPercentage(
    name: string, phone: string, billDate: string, rows: seq<Row>, tax: Text, paid: Text, previous: Text)
    requires BillPayload(name, phone, billDate, rows, [], ShownOf(Compute(rows, tax, paid, previous)), paid, previous).Some?
    ensures
      var t := Compute(rows, tax, paid, previous);
      var p := BillPayload(name, phone, billDate, rows, [], ShownOf(t), paid, previous).value;
      && p.tax == Val(OrZero(ParseFloat(tax)))
      && (p.tax.value == t.taxAmount <==> t.taxPercent == 0.0 || t.subtotal == 100.0)
  {
    var t := Compute(rows, tax, paid, previous);
    var s, pct := t.subtotal, t.taxPercent;
    assert t.taxAmount == s * (pct / 100.0);
    assert pct - s * (pct / 100.0) == pct * (100.0 - s) / 100.0;
    if pct != 0.0 && s != 100.0 {
      assert pct * (100.0 - s) != 0.0;
    }
  }

  /** A white-space name passes the preview's check but not the save's. */
  lemma BlankNamePreviewsButIsNotSaved()
    ensures
      var rows := [Row(1, "Rohu", Numeral(1.0), Numeral(200.0))];
      && " " != "" && HasValidRow(rows)
      && BillPayload(" ", "", "2024-05-01", rows, [], ShownOf(Compute(rows, Blank, Blank, Blank)), Blank, Blank).None?
  {
    var rows := [Row(1, "Rohu", Numeral(1.0), Numeral(200.0))];
    assert ValidRow(rows[0]);
    TrimEmptyIff(" ");
  }

  /** The preview's content: the valid rows and the totals shown on the page. */
  datatype Preview = Preview(
    customerName: string, customerPhone: string, billDate: string, lines: seq<Row>,
    shown: Shown, previousBalance: Text, amountPaid: Text)

  /** The save's loop over the table: one item per valid row, in order. */
  method CollectItems(rows: seq<Row>, fishItems: seq<FishItem>) returns (items: seq<Item>)
    ensures items == Items(rows, fishItems)
    ensures |items| == |ValidRows(rows)|
    ensures forall k :: 0 <= k < |items| ==> items[k] == ItemOf(ValidRows(rows)[k], fishItems)
  {
    items := [];
    var i := 0;
    while i < |rows|
      invariant 0 <= i <= |rows|
      invariant items == Items(rows[..i], fishItems)
    {
      assert rows[..i + 1][..i] == rows[..i];
      if ValidRow(rows[i]) {
        items := items + [ItemOf(rows[i], fishItems)];
      }
      i := i + 1;
    }
    assert rows[..i] == rows;
    ItemsAreValidRows(rows, fishItems);
  }

  /** The server's answer to the save. */
  datatype SaveResult = Accepted(id: nat) | Refused

  // -------------------------------------------------------------- editor

  /** Row ids are the counter's past values: positive, at most the counter, increasing down the table. */
  predicate WellNumbered(rows: seq<Row>, counter: int)
  {
    && (forall i :: 0 <= i < |rows| ==> 0 < rows[i].id <= counter)
    && (forall i, j :: 0 <= i < j < |rows| ==> rows[i].id < rows[j].id)
  }

  /** Removing one row keeps the numbering. */
  lemma RemoveKeepsNumbering(rows: seq<Row>, counter: int, i: nat)
    requires WellNumbered(rows, counter) && i < |rows|
    ensures WellNumbered(rows[..i] + rows[i + 1..], counter)
  {
    var after := rows[..i] + rows[i + 1..];
    assert forall k :: 0 <= k < |after| ==> after[k] == if k < i then rows[k] else rows[k + 1];
  }

  /** The bill page's state: the row table, the form inputs and the page's totals text. */
  class Editor {
    var rows: seq<Row>
    var itemCounter: nat
    var fishItems: seq<FishItem>
    var billDate: string
    var customerName: string
    var customerPhone: string
    var taxField: Text
    var paidField: Text
    var previousField: Text
    var shown: Shown
    var preview: Option<Preview>
    var saveEnabled: bool
    var printEnabled: bool
    var printBillId: Option<nat>

    /** Nothing fills `fishItems`; row counters increase down the table. */
    ghost predicate Valid()
      reads this
    {
      && fishItems == []
      && WellNumbered(rows, itemCounter)
    }

    /**
      The page after loading: one blank row. The amount inputs and the totals
      text start as the page's markup has them; save and print start disabled.
    */
    constructor (tax0: Text, paid0: Text, previous0: Text, shown0: Shown)
      ensures Valid()
      ensures rows == [BlankRow(1)] && itemCounter == 1
      ensures customerName == "" && customerPhone == "" && preview.None?
      ensures taxField == tax0 && paidField == paid0 && previousField == previous0 && shown == shown0
      ensures !saveEnabled && !printEnabled
    {
      rows, itemCounter, fishItems := [], 0, [];
      billDate, customerName, customerPhone := "", "", "";
      taxField, paidField, previousField := tax0, paid0, previous0;
      shown, preview := shown0, None;
      saveEnabled, printEnabled, printBillId := false, false, None;
      new;
      AddRow();
    }

    /** `addFishItemRow`: bump the counter and append a blank row (no recalculation). */
    method AddRow()
      requires Valid()
      modifies this`rows, this`itemCounter
      ensures Valid()
      ensures itemCounter == old(itemCounter) + 1
      ensures rows == old(rows) + [BlankRow(itemCounter)]
    {
      itemCounter := itemCounter + 1;
      rows := rows + [BlankRow(itemCounter)];
    }

    /** `calculateBill`: walk the rows summing line totals, then write the totals text. */
    method Calculate()
      modifies this`shown
      ensures shown == ShownOf(Compute(rows, taxField, paidField, previousField))
    {
      var subtotal := 0.0;
      var i := 0;
      while i < |rows|
        invariant 0 <= i <= |rows|
        invariant subtotal == Subtotal(rows[..i])
      {
        assert rows[..i + 1][..i] == rows[..i];
        subtotal := subtotal + LineTotal(rows[i]);
        i := i + 1;
      }
      assert rows[..i] == rows;
      var taxInput := OrZero(ParseFloat(taxField));
      var taxAmt := subtotal * (taxInput / 100.0);
      var totalAmount := subtotal + taxAmt;
      var amountPaid := OrZero(ParseFloat(paidField));
      var previousBalance := OrZero(ParseFloat(previousField));
      var balanceDue := totalAmount + previousBalance - amountPaid;
      assert Compute(rows, taxField, paidField, previousField)
        == Totals(subtotal, taxInput, taxAmt, totalAmount, balanceDue);
      shown := Shown(Val(subtotal), Val(taxInput), Val(totalAmount), Val(balanceDue));
    }

    /** The row's remove button: drop that row only, then recalculate. */
    method RemoveRow(i: nat)
      requires Valid() && i < |rows|
      modifies this`rows, this`shown
      ensures Valid()
      ensures rows == old(rows[..i]) + old(rows[i + 1..])
      ensures shown == ShownOf(Compute(rows, taxField, paidField, previousField))
      ensures Subtotal(rows) == Subtotal(old(rows)) - LineTotal(old(rows[i]))
    {
      SubtotalRemove(rows, i);
      RemoveKeepsNumbering(rows, itemCounter, i);
      rows := rows[..i] + rows[i + 1..];
      Calculate();
    }

    /** Typing into a row's inputs, then the recalculation every input event runs. */
    method EditRow(i: nat, name: string, qty: Text, price: Text)
      requires Valid() && i < |rows|
      modifies this`rows, this`shown
      ensures Valid()
      ensures rows == old(rows)[i := Row(old(rows[i].id), name, qty, price)]
      ensures shown == ShownOf(Compute(rows, taxField, paidField, previousField))
    {
      rows := rows[i := Row(rows[i].id, name, qty, price)];
      Calculate();
    }

    /** Typing into the customer or date inputs, then the recalculation. */
    method EditCustomer(name: string, phone: string, date: string)
      modifies this`customerName, this`customerPhone, this`billDate, this`shown
      ensures customerName == name && customerPhone == phone && billDate == date
      ensures shown == ShownOf(Compute(rows, taxField, paidField, previousField))
    {
      customerName, customerPhone, billDate := name, phone, date;
      Calculate();
    }

    /** Typing into the tax, paid or previous-balance inputs, then the recalculation. */
    method EditCharges(tax: Text, paid: Text, previous: Text)
      modifies this`taxField, this`paidField, this`previousField, this`shown
      ensures taxField == tax && paidField == paid && previousField == previous
      ensures shown == ShownOf(Compute(rows, tax, paid, previous))
    {
      taxField, paidField, previousField := tax, paid, previous;
      Calculate();
    }

    /**
      `generateFinalBill`: with a customer name and at least one valid row,
      render the preview of the valid rows and enable save and print;
      otherwise change nothing.
    */
    method GenerateFinalBill()
      modifies this`preview, this`saveEnabled, this`printEnabled
      ensures customerName != "" && HasValidRow(rows) ==>
        && preview == Some(Preview(customerName, customerPhone, billDate, ValidRows(rows), shown, previousField, paidField))
        && saveEnabled && printEnabled
      ensures !(customerName != "" && HasValidRow(rows)) ==>
        preview == old(preview) && saveEnabled == old(saveEnabled) && printEnabled == old(printEnabled)
    {
      if customerName == "" {
        return;
      }
      var hasValidItems := false;
      var lines := [];
      var i := 0;
      while i < |rows|
        invariant 0 <= i <= |rows|
        invariant lines == ValidRows(rows[..i])
        invariant hasValidItems <==> HasValidRow(rows[..i])
      {
        ghost var prefix := rows[..i + 1];
        assert prefix[..i] == rows[..i] && prefix[i] == rows[i];
        if ValidRow(rows[i]) {
          hasValidItems := true;
          lines := lines + [rows[i]];
        }
        assert HasValidRow(rows[..i]) ==> HasValidRow(prefix) by {
          if HasValidRow(rows[..i]) {
            var k :| 0 <= k < i && ValidRow(rows[..i][k]);
            assert ValidRow(prefix[k]);
          }
        }
        assert HasValidRow(prefix) ==> HasValidRow(rows[..i]) || ValidRow(rows[i]) by {
          if HasValidRow(prefix) && !ValidRow(rows[i]) {
            var k :| 0 <= k < i + 1 && ValidRow(prefix[k]);
            assert ValidRow(rows[..i][k]);
          }
        }
        i := i + 1;
      }
      assert rows[..i] == rows;
      if !hasValidItems {
        return;
      }
      preview := Some(Preview(customerName, customerPhone, billDate, lines, shown, previousField, paidField));
      saveEnabled := true;
      printEnabled := true;
    }

    /**
      `saveBillToBackend`: post the bill unless the checks fail; when the
      server accepts it, remember the id, clear the customer and the amounts
      and leave exactly one new blank row. A refusal changes nothing.
    */
    method Save(result: SaveResult) returns (sent: Option<Payload>)
      requires Valid()
      modifies this`customerName, this`customerPhone, this`rows, this`itemCounter,
               this`paidField, this`previousField, this`shown, this`printEnabled, this`printBillId
      ensures Valid()
      ensures sent == BillPayload(old(customerName), old(customerPhone), old(billDate), old(rows),
                                  old(fishItems), old(shown), old(paidField), old(previousField))
      ensures (sent.None? || result.Refused?) ==>
        && rows == old(rows) && itemCounter == old(itemCounter) && customerName == old(customerName)
        && customerPhone == old(customerPhone) && paidField == old(paidField)
        && previousField == old(previousField) && shown == old(shown) && printBillId == old(printBillId)
        && printEnabled == old(printEnabled)
      ensures sent.Some? && result.Accepted? ==>
        && customerName == "" && customerPhone == ""
        && rows == [BlankRow(old(itemCounter) + 1)] && itemCounter == old(itemCounter) + 1
        && paidField == Blank && previousField == Numeral(0.0)
        && printEnabled && printBillId == Some(result.id)
        && shown == ShownOf(Compute(rows, taxField, paidField, previousField))
    {
      sent := PreparePayload();
      if sent.Some? && result.Accepted? {
        printEnabled := true;
        printBillId := Some(result.id);
        ClearAfterSave();
      }
    }

    /** The checks and the request body of `saveBillToBackend`, before anything is posted. */
    method PreparePayload() returns (sent: Option<Payload>)
      ensures sent == BillPayload(customerName, customerPhone, billDate, rows, fishItems, shown, paidField, previousField)
    {
      var name := Trim(customerName);
      if name == "" {
        return None;
      }
      if shown.subtotal.NaN? || shown.total.NaN? {
        return None;
      }
      var items := CollectItems(rows, fishItems);
      if |items| == 0 {
        return None;
      }
      sent := Some(Payload(name, Trim(customerPhone), billDate, items, shown.subtotal, shown.tax, shown.total,
                           OrZero(ParseFloat(previousField)), OrZero(ParseFloat(paidField)), shown.balanceDue));
    }

    /** The accepted save's reset: clear customer and amounts, one fresh blank row, recalculate. */
    method ClearAfterSave()
      requires Valid()
      modifies this`customerName, this`customerPhone, this`rows, this`itemCounter,
               this`paidField, this`previousField, this`shown
      ensures Valid()
      ensures customerName == "" && customerPhone == ""
      ensures rows == [BlankRow(old(itemCounter) + 1)] && itemCounter == old(itemCounter) + 1
      ensures paidField == Blank && previousField == Numeral(0.0)
      ensures shown == ShownOf(Compute(rows, taxField, paidField, previousField))
    {
      customerName, customerPhone := "", "";
      paidField, previousField := Blank, Numeral(0.0);
      itemCounter := itemCounter + 1;
      rows := [BlankRow(itemCounter)];
      Calculate();
    }
  }
}

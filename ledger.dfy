/**
  The Flask server's business logic: the stock ledger kept per fish type and
  changed by inventory entries, sales and the reset; the request validators
  around it; the receipt-file check and transaction validation; the
  bill-search filter; deleting an advance order; and the arithmetic of the
  sales summary. Database tables are fields of one `Store` object.
*/
module Ledger {
  import opened Values

  /** A decoded JSON request body. */
  type Json = map<string, JsonValue>

  /** The `stock` table: current quantity per fish type. */
  type Stock = map<JsonValue, real>

  const InventoryFields: seq<string> :=
    ["date", "supplierName", "supplierContact", "fishType", "type", "quantity", "unitPrice"]

  const SaleFields: seq<string> :=
    ["date", "purchaserName", "purchaserContact", "fishType", "quantity", "unitPrice"]

  datatype Reason =
    | NoData
    | MissingField(field: string)
    | InsufficientStock(available: real)
    | InvalidFileType
    | InvalidAmount
    | InvalidTransactionType
    | OrderNotFound
    | DatabaseError
    | ServerError

  /** The HTTP status each failure is answered with. */
  function StatusOf(reason: Reason): nat
  {
    match reason
    case OrderNotFound => 404
    case DatabaseError => 500
    case ServerError => 500
    case _ => 400
  }

  datatype Reply =
    | Saved
    | SaleRecorded(remaining: real)
    | StockReset
    | TransactionCreated(id: nat)
    | OrderDeleted
    | Failure(reason: Reason)

  /** The `success` member of the JSON reply, as the browser reads it. */
  function SuccessFlag(reply: Reply): JsValue
  {
    match reply
    case Saved => JsBool(true)
    case SaleRecorded(_) => JsBool(true)
    case StockReset => JsBool(true)
    case _ => Undefined
  }

  /** Python's `float(v)` on a JSON value; `None` is the TypeError or ValueError. */
  function Float(v: JsonValue): Option<real>
  {
    match v
    case JNull => None
    case JNum(r) => Some(r)
    case JStr(s) => PyFloat(s)
  }

  /** Every listed field is a key of the body. */
  predicate HasFields(fields: seq<string>, data: Json)
  {
    forall k :: 0 <= k < |fields| ==> fields[k] in data
  }

  /** The first required field, in the order listed, that the body lacks. */
  function FirstMissing(fields: seq<string>, data: Json): (r: Option<string>)
    ensures r.None? <==> HasFields(fields, data)
    ensures r.Some? ==> r.value in fields && r.value !in data
  {
    if fields == [] then None
    else if fields[0] !in data then Some(fields[0])
    else
      var r := FirstMissing(fields[1..], data);
      assert forall k :: 1 <= k < |fields| ==> fields[k] == fields[1..][k - 1];
      r
  }

  /** The field reported is the first absent one: every field listed before it is present. */
  lemma {:induction false} FirstMissingIsFirst(fields: seq<string>, data: Json)
    ensures FirstMissing(fields, data).Some? ==>
      exists k :: 0 <= k < |fields| && fields[k] == FirstMissing(fields, data).value &&
        forall j :: 0 <= j < k ==> fields[j] in data
  {
    if fields != [] && fields[0] in data {
      FirstMissingIsFirst(fields[1..], data);
      if FirstMissing(fields, data).Some? {
        var k :| 0 <= k < |fields[1..]| && fields[1..][k] == FirstMissing(fields[1..], data).value &&
          forall j :: 0 <= j < k ==> fields[1..][j] in data;
        assert forall j :: 0 <= j < k + 1 ==> fields[j] in data by {
          forall j | 0 <= j < k + 1
            ensures fields[j] in data
          {
            if j > 0 {
              assert fields[j] == fields[1..][j - 1];
            }
          }
        }
        assert fields[k + 1] == fields[1..][k];
      }
    } else if fields != [] {
      assert fields[0] == FirstMissing(fields, data).value;
    }
  }

  // ------------------------------------------------------------ inventory

  datatype InventoryRecord = InventoryRecord(
    date: JsonValue, supplierName: JsonValue, supplierContact: JsonValue,
    fishType: JsonValue, kind: JsonValue, quantity: JsonValue, unitPrice: JsonValue,
    totalPrice: real)

  /** An accepted inventory entry and the signed change it makes to its stock row. */
  datatype InventoryEntry = InventoryEntry(record: InventoryRecord, change: real)

  /** Every required inventory field is present and both numbers convert with `float()`. */
  predicate InventoryParses(data: Json)
  {
    && "date" in data && "supplierName" in data && "supplierContact" in data && "fishType" in data
    && "type" in data && "quantity" in data && "unitPrice" in data
    && Float(data["quantity"]).Some? && Float(data["unitPrice"]).Some?
  }

  /**
    What `save_inventory` decides before touching the stock table: the
    400 answers, the 500 answers (an unparsable number, a NULL in a NOT NULL
    column of `inventory`, negating a quantity sent as a string), or the
    record to store and the stock change.
  */
  function CheckInventory(body: Option<Json>): (r: Result<InventoryEntry, Reason>)
    ensures (body.None? || body.value == map[]) ==> r == Err(NoData)
    ensures r.Err? ==> StatusOf(r.error) == if r.error == ServerError then 500 else 400
    ensures body.Some? && body.value != map[] && FirstMissing(InventoryFields, body.value).Some? ==>
      r == Err(MissingField(FirstMissing(InventoryFields, body.value).value))
    ensures r.Ok? ==>
      body.Some? && HasFields(InventoryFields, body.value) &&
      "quantity" in body.value && "unitPrice" in body.value && "fishType" in body.value && "type" in body.value &&
      var data := body.value;
      var q := Float(data["quantity"]);
      && q.Some? && Float(data["unitPrice"]).Some?
      && r.value.record.fishType == data["fishType"] != JNull
      && data["date"] != JNull && data["type"] != JNull
      && r.value.change == (if data["type"] == JStr("IN") then q.value else -q.value)
    ensures r.Ok? ==>
      var data := body.value;
      && "date" in data && "supplierName" in data && "supplierContact" in data
      && "type" in data && "quantity" in data && "unitPrice" in data
      && r.value.record.date == data["date"] && r.value.record.supplierName == data["supplierName"]
      && r.value.record.supplierContact == data["supplierContact"] && r.value.record.kind == data["type"]
      && r.value.record.quantity == data["quantity"] && r.value.record.unitPrice == data["unitPrice"]
    ensures (body.Some? && InventoryParses(body.value)
             && var data := body.value;
                && data["date"] != JNull && data["fishType"] != JNull && data["type"] != JNull
                && (data["type"] == JStr("IN") || data["quantity"].JNum?)) ==>
      r.Ok?
    ensures (body.Some? && InventoryParses(body.value)
             && var data := body.value;
                && data["type"] != JStr("IN") && data["quantity"].JStr?) ==>
      r == Err(ServerError)
    ensures body.Some? && body.value != map[] && FirstMissing(InventoryFields, body.value).None? && r.Err? ==>
      r.error == ServerError
  {
    if body.None? || body.value == map[] then Err(NoData)
    else
      var data := body.value;
      match FirstMissing(InventoryFields, data)
      case Some(f) => Err(MissingField(f))
      case None =>
        assert InventoryFields[5] == "quantity" && InventoryFields[6] == "unitPrice";
        assert InventoryFields[0] == "date" && InventoryFields[3] == "fishType";
        assert InventoryFields[4] == "type";
        assert InventoryFields[1] == "supplierName" && InventoryFields[2] == "supplierContact";
        assert |InventoryFields| == 7;
        var q, p := Float(data["quantity"]), Float(data["unitPrice"]);
        if q.None? || p.None? then Err(ServerError)
        else if data["date"] == JNull || data["fishType"] == JNull || data["type"] == JNull then
          Err(ServerError)
        else
          var record := InventoryRecord(
            data["date"], data["supplierName"], data["supplierContact"], data["fishType"],
            data["type"], data["quantity"], data["unitPrice"], q.value * p.value);
          if data["type"] == JStr("IN") then Ok(InventoryEntry(record, q.value))
          else if data["quantity"].JNum? then Ok(InventoryEntry(record, -q.value))
          else Err(ServerError)
  }

  /** The stored total is the quantity times the unit price. */
  lemma InventoryTotalIsProduct(body: Option<Json>)
    requires CheckInventory(body).Ok?
    ensures var data := body.value;
      CheckInventory(body).value.record.totalPrice == Float(data["quantity"]).value * Float(data["unitPrice"]).value
  {
  }

  /** The quantity the stock table holds for a fish type (0 for a missing row). */
  function Current(stock: Stock, fishType: JsonValue): real
  {
    if fishType in stock then stock[fishType] else 0.0
  }

  /** A stock row created at 0 if absent, then moved by `change`. */
  function Adjust(stock: Stock, fishType: JsonValue, change: real): (s: Stock)
    ensures s.Keys == stock.Keys + {fishType}
    ensures s[fishType] == Current(stock, fishType) + change
    ensures forall k :: k in stock && k != fishType ==> s[k] == stock[k]
  {
    stock[fishType := Current(stock, fishType) + change]
  }

  /** Without a guard, an inventory `OUT` can drive a stock row negative. */
  lemma InventoryOutCanGoNegative()
    ensures
      var body := map["date" := JStr("2024-05-01"), "supplierName" := JStr("Ravi"),
                      "supplierContact" := JStr("99"), "fishType" := JStr("Pomfret"),
                      "type" := JStr("OUT"), "quantity" := JNum(5.0), "unitPrice" := JNum(300.0)];
      var r := CheckInventory(Some(body));
      r.Ok? && Adjust(map[JStr("Pomfret") := 2.0], JStr("Pomfret"), r.value.change)[JStr("Pomfret")] < 0.0
  {
    var body := map["date" := JStr("2024-05-01"), "supplierName" := JStr("Ravi"),
                    "supplierContact" := JStr("99"), "fishType" := JStr("Pomfret"),
                    "type" := JStr("OUT"), "quantity" := JNum(5.0), "unitPrice" := JNum(300.0)];
    assert HasFields(InventoryFields, body);
    assert body["type"] != JStr("IN");
    assert CheckInventory(Some(body)).value.change == -5.0;
  }

  // ---------------------------------------------------------------- sales

  datatype SaleRecord = SaleRecord(
    date: JsonValue, purchaserName: JsonValue, purchaserContact: JsonValue,
    fishType: JsonValue, kind: JsonValue, quantity: JsonValue, unitPrice: JsonValue,
    totalPrice: real)

  /** An accepted sale, the quantity it deducts and the stock it found. */
  datatype SaleEntry = SaleEntry(record: SaleRecord, quantity: real, available: real)

  /** Every required sale field is present and both numbers convert with `float()`. */
  predicate SaleParses(data: Json)
  {
    && "date" in data && "purchaserName" in data && "purchaserContact" in data
    && "fishType" in data && "quantity" in data && "unitPrice" in data
    && Float(data["quantity"]).Some? && Float(data["unitPrice"]).Some?
  }

  /**
    What `save_sales` decides before deducting: the 400 answers (no data, a
    missing field, no stock row or too little stock), the 500 answers (an
    unparsable number, a missing `type`, a NULL in a NOT NULL column of
    `sales`), or the sale to record.
  */
  function CheckSale(stock: Stock, body: Option<Json>): (r: Result<SaleEntry, Reason>)
    ensures (body.None? || body.value == map[]) ==> r == Err(NoData)
    ensures body.Some? && body.value != map[] && FirstMissing(SaleFields, body.value).Some? ==>
      r == Err(MissingField(FirstMissing(SaleFields, body.value).value))
    ensures r.Ok? ==>
      body.Some? && "fishType" in body.value && "quantity" in body.value &&
      var ft := body.value["fishType"];
      && r.value.record.fishType == ft
      && Float(body.value["quantity"]) == Some(r.value.quantity)
      && ft in stock && r.value.available == stock[ft] && stock[ft] >= r.value.quantity
    ensures r.Ok? ==>
      var data := body.value;
      && "date" in data && "purchaserName" in data && "purchaserContact" in data
      && "type" in data && "quantity" in data && "unitPrice" in data
      && r.value.record.date == data["date"] && r.value.record.purchaserName == data["purchaserName"]
      && r.value.record.purchaserContact == data["purchaserContact"] && r.value.record.kind == data["type"]
      && r.value.record.quantity == data["quantity"] && r.value.record.unitPrice == data["unitPrice"]
    ensures r.Err? && r.error.InsufficientStock? ==>
      body.Some? && "fishType" in body.value && "quantity" in body.value &&
      var ft := body.value["fishType"];
      && Float(body.value["quantity"]).Some?
      && (ft !in stock || stock[ft] < Float(body.value["quantity"]).value)
      && r.error.available == Current(stock, ft)
    ensures (body.Some? && body.value != map[] && SaleParses(body.value)
             && var ft := body.value["fishType"];
                ft !in stock || stock[ft] < Float(body.value["quantity"]).value) ==>
      r == Err(InsufficientStock(Current(stock, body.value["fishType"])))
    ensures (body.Some? && body.value != map[] && SaleParses(body.value)
             && var data := body.value; var ft := data["fishType"];
                && ft in stock && stock[ft] >= Float(data["quantity"]).value
                && "type" in data && data["type"] != JNull && data["date"] != JNull
                && data["purchaserName"] != JNull && data["purchaserContact"] != JNull) ==>
      r.Ok?
    ensures body.Some? && body.value != map[] && FirstMissing(SaleFields, body.value).None?
            && r.Err? && !r.error.InsufficientStock? ==>
      r.error == ServerError
    ensures r.Err? ==> StatusOf(r.error) == if r.error == ServerError then 500 else 400
  {
    if body.None? || body.value == map[] then Err(NoData)
    else
      var data := body.value;
      match FirstMissing(SaleFields, data)
      case Some(f) => Err(MissingField(f))
      case None =>
        assert SaleFields[4] == "quantity" && SaleFields[5] == "unitPrice";
        assert SaleFields[0] == "date" && SaleFields[3] == "fishType";
        assert SaleFields[1] == "purchaserName" && SaleFields[2] == "purchaserContact";
        assert |SaleFields| == 6;
        var q, p := Float(data["quantity"]), Float(data["unitPrice"]);
        var ft := data["fishType"];
        if q.None? || p.None? then Err(ServerError)
        else if ft !in stock || stock[ft] < q.value then Err(InsufficientStock(Current(stock, ft)))
        else if "type" !in data then Err(ServerError)
        else if data["date"] == JNull || data["purchaserName"] == JNull
             || data["purchaserContact"] == JNull || data["type"] == JNull then Err(ServerError)
        else
          var record := SaleRecord(
            data["date"], data["purchaserName"], data["purchaserContact"], ft,
            data["type"], data["quantity"], data["unitPrice"], q.value * p.value);
          Ok(SaleEntry(record, q.value, stock[ft]))
  }

  /** The stored `total_price` is the quantity times the unit price. */
  lemma SaleTotalIsProduct(stock: Stock, body: Option<Json>)
    requires CheckSale(stock, body).Ok?
    ensures var data := body.value;
      && CheckSale(stock, body).value.record.totalPrice
         == Float(data["quantity"]).value * Float(data["unitPrice"]).value
      && CheckSale(stock, body).value.quantity == Float(data["quantity"]).value
  {
  }

  /** Deducting an accepted sale keeps a non-negative stock table non-negative. */
  lemma SaleKeepsStockNonNegative(stock: Stock, body: Option<Json>)
    requires forall k :: k in stock ==> stock[k] >= 0.0
    requires CheckSale(stock, body).Ok?
    ensures
      var e := CheckSale(stock, body).value;
      && Adjust(stock, e.record.fishType, -e.quantity).Keys == stock.Keys
      && forall k :: k in stock ==> Adjust(stock, e.record.fishType, -e.quantity)[k] >= 0.0
  {
  }

  /** Every stock row set to zero; no fish type added or removed. */
  function Zeroed(stock: Stock): (s: Stock)
    ensures s.Keys == stock.Keys
    ensures forall k :: k in s ==> s[k] == 0.0
  {
    map k | k in stock :: 0.0
  }

  // ------------------------------------------------------- transactions

  /**
    An uploaded file part: its file name and werkzeug's `mimetype`, the
    normalised MIME type (lower-cased, parameters removed), not the raw header.
  */
  datatype Upload = Upload(filename: string, mimetype: string)

  const AllowedExtensions: set<string> := {"png", "jpg", "jpeg", "gif"}

  /** `allowed_file`: a named file with an image extension and an image MIME type. */
  predicate AllowedFile(file: Option<Upload>)
  {
    if file.None? || file.value.filename == "" then false
    else if '.' !in file.value.filename then false
    else
      Lower(AfterLast(file.value.filename, '.')) in AllowedExtensions &&
      StartsWith(file.value.mimetype, "image/")
  }

  /** `name` is `stem`, a dot, then `ext` with no further dot. */
  predicate SplitsAt(name: string, stem: string, ext: string)
  {
    name == stem + "." + ext && '.' !in ext
  }

  /**
    An independent reading of `allowed_file`: some split of the name at a
    dot leaves an allowed extension (in any letter case) with no dot after
    it, and the MIME type is an image type.
  */
  lemma AllowedFileIff(file: Option<Upload>)
    ensures AllowedFile(file) <==>
      file.Some? && StartsWith(file.value.mimetype, "image/") &&
      exists stem, ext :: SplitsAt(file.value.filename, stem, ext) && Lower(ext) in AllowedExtensions
  {
    if file.Some? {
      var name := file.value.filename;
      if AllowedFile(file) {
        var ext := AfterLast(name, '.');
        var stem := name[..|name| - |ext| - 1];
        assert SplitsAt(name, stem, ext);
      }
      if exists stem, ext :: SplitsAt(name, stem, ext) && Lower(ext) in AllowedExtensions {
        var stem, ext :| SplitsAt(name, stem, ext) && Lower(ext) in AllowedExtensions;
        AfterLastJoin(stem, '.', ext);
        assert name[|stem|] == '.';
      }
    }
  }

  /** A receipt as `create_transaction` stores it (the id is the store's). */
  datatype NewTransaction = NewTransaction(
    kind: string, paymentMethod: string, amount: real,
    clientName: Option<string>, clientPhone: Option<string>,
    image: Option<Upload>, notes: Option<string>)

  datatype TransactionRecord = TransactionRecord(id: nat, fields: NewTransaction)

  function Get(form: map<string, string>, key: string): Option<string>
  {
    if key in form then Some(form[key]) else None
  }

  /** No file part, a part with an empty file name, or an allowed file. */
  predicate FileAcceptable(file: Option<Upload>)
  {
    !(file.Some? && file.value.filename != "" && !AllowedFile(file))
  }

  /** The `amount` field is present, parses as a float and is positive. */
  predicate AmountAcceptable(form: map<string, string>)
  {
    "amount" in form && PyFloat(form["amount"]).Some? && PyFloat(form["amount"]).value > 0.0
  }

  /** `MAX_CONTENT_LENGTH`: the largest request body, in bytes, the server reads. */
  const MaxContentLength: nat := 2 * 1024 * 1024

  /**
    `create_transaction`'s checks in their order: a request body over the
    size limit (reading the form raises inside the handler's `try`, which
    answers 500), an attached file that is not allowed, then the amount
    (missing, unparsable or not positive), then the transaction type, then
    the payment method the table's CHECK constraint admits. `size` is the
    request body's length in bytes.
  */
  function CheckTransaction(size: nat, file: Option<Upload>, form: map<string, string>): (r: Result<NewTransaction, Reason>)
    ensures size > MaxContentLength ==> r == Err(ServerError)
    ensures size <= MaxContentLength && !FileAcceptable(file) ==> r == Err(InvalidFileType)
    ensures r.Ok? ==>
      && size <= MaxContentLength
      && "amount" in form && PyFloat(form["amount"]) == Some(r.value.amount) && r.value.amount > 0.0
      && Get(form, "transaction_type") == Some(r.value.kind) && r.value.kind in {"in", "out"}
      && r.value.paymentMethod in {"cash", "online"}
      && Get(form, "payment_method") == Some(r.value.paymentMethod)
      && r.value.clientName == Get(form, "client_name") && r.value.clientPhone == Get(form, "client_phone")
      && r.value.notes == Get(form, "notes")
      && (r.value.image.Some? ==> AllowedFile(r.value.image) && r.value.image == file)
      && (r.value.image.None? <==> file.None? || file.value.filename == "")
    ensures r == Err(InvalidAmount) ==>
      "amount" !in form || PyFloat(form["amount"]).None? || PyFloat(form["amount"]).value <= 0.0
    ensures r == Err(InvalidTransactionType) ==>
      Get(form, "transaction_type") !in {Some("in"), Some("out")}
    ensures size <= MaxContentLength && FileAcceptable(file) && !AmountAcceptable(form) ==> r == Err(InvalidAmount)
    ensures (size <= MaxContentLength && FileAcceptable(file) && AmountAcceptable(form)
             && Get(form, "transaction_type") !in {Some("in"), Some("out")}) ==> r == Err(InvalidTransactionType)
    ensures (size <= MaxContentLength && FileAcceptable(file) && AmountAcceptable(form)
             && Get(form, "transaction_type") in {Some("in"), Some("out")}
             && Get(form, "payment_method") in {Some("cash"), Some("online")}) ==> r.Ok?
    ensures r.Err? ==> StatusOf(r.error) == if r.error in {DatabaseError, ServerError} then 500 else 400
  {
    // A file part with an empty file name is falsy and counts as no file.
    var attached := file.Some? && file.value.filename != "";
    if size > MaxContentLength then Err(ServerError)
    else if attached && !AllowedFile(file) then Err(InvalidFileType)
    else if "amount" !in form || PyFloat(form["amount"]).None? || PyFloat(form["amount"]).value <= 0.0 then
      Err(InvalidAmount)
    else if Get(form, "transaction_type") !in {Some("in"), Some("out")} then Err(InvalidTransactionType)
    else if Get(form, "payment_method") !in {Some("cash"), Some("online")} then Err(DatabaseError)
    else
      Ok(NewTransaction(
        form["transaction_type"], form["payment_method"], PyFloat(form["amount"]).value,
        Get(form, "client_name"), Get(form, "client_phone"),
        if attached then file else None, Get(form, "notes")))
  }

  // ------------------------------------------------------- advance orders

  datatype AdvanceOrder = AdvanceOrder(
    date: JsonValue, amount: JsonValue, fishType: JsonValue,
    advance: JsonValue, name: JsonValue, contact: JsonValue)

  // ---------------------------------------------------------- bill search

  /** A row of `bills LEFT JOIN customers`: the customer part may be NULL. */
  datatype BillListing = BillListing(
    id: nat, billDate: string, customerName: Option<string>, customerPhone: Option<string>,
    totalAmount: real, balanceDue: real)

  /** `column LIKE '%needle%'`: ASCII-case-insensitive containment; NULL never matches. */
  predicate Like(column: Option<string>, needle: string)
  {
    column.Some? && Contains(Lower(column.value), Lower(needle))
  }

  /** An empty search term imposes no constraint. */
  predicate MatchesSearch(b: BillListing, name: string, phone: string)
  {
    (name == "" || Like(b.customerName, name)) && (phone == "" || Like(b.customerPhone, phone))
  }

  function SearchResults(listings: seq<BillListing>, name: string, phone: string): (r: seq<BillListing>)
  {
    if listings == [] then []
    else
      (if MatchesSearch(listings[0], name, phone) then [listings[0]] else [])
      + SearchResults(listings[1..], name, phone)
  }

  /** The search returns exactly the matching listings. */
  lemma {:induction false} SearchResultsExact(listings: seq<BillListing>, name: string, phone: string)
    ensures forall b :: b in SearchResults(listings, name, phone) <==> b in listings && MatchesSearch(b, name, phone)
  {
    if listings != [] {
      SearchResultsExact(listings[1..], name, phone);
      assert listings == [listings[0]] + listings[1..];
    }
  }

  /** With neither a name nor a phone, every bill is returned, in table order. */
  lemma {:induction false} SearchWithoutTermsReturnsAll(listings: seq<BillListing>)
    ensures SearchResults(listings, "", "") == listings
  {
    if listings != [] {
      SearchWithoutTermsReturnsAll(listings[1..]);
      assert listings == [listings[0]] + listings[1..];
    }
  }

  /**
    `search_bills`: strip both terms, add one `LIKE` pattern per non-empty
    term in the order name, phone, and return the listings that match.
  */
  method SearchBills(listings: seq<BillListing>, nameArg: Option<string>, phoneArg: Option<string>)
    returns (params: seq<string>, found: seq<BillListing>)
    ensures var name, phone := Trim(if nameArg.Some? then nameArg.value else ""),
                               Trim(if phoneArg.Some? then phoneArg.value else "");
      && |params| == (if name != "" then 1 else 0) + (if phone != "" then 1 else 0)
      && (name != "" ==> params[0] == "%" + name + "%")
      && (phone != "" ==> params[|params| - 1] == "%" + phone + "%")
      && forall b :: b in found <==> b in listings && MatchesSearch(b, name, phone)
  {
    var name := Trim(if nameArg.Some? then nameArg.value else "");
    var phone := Trim(if phoneArg.Some? then phoneArg.value else "");
    params := [];
    if name != "" {
      params := params + ["%" + name + "%"];
    }
    if phone != "" {
      params := params + ["%" + phone + "%"];
    }
    found := SearchResults(listings, name, phone);
    SearchResultsExact(listings, name, phone);
  }

  // -------------------------------------------------------- sales summary

  function OutSalesTotal(sales: seq<SaleRecord>): real
  {
    if sales == [] then 0.0
    else (if sales[0].kind == JStr("OUT") then sales[0].totalPrice else 0.0) + OutSalesTotal(sales[1..])
  }

  function InPurchasesTotal(inventory: seq<InventoryRecord>): real
  {
    if inventory == [] then 0.0
    else (if inventory[0].kind == JStr("IN") then inventory[0].totalPrice else 0.0) + InPurchasesTotal(inventory[1..])
  }

  datatype SalesSummary = SalesSummary(totalSales: real, totalPurchases: real, profit: real, totalTransactions: nat)

  /** The figures `sales_summary` answers with. */
  function Summarize(sales: seq<SaleRecord>, inventory: seq<InventoryRecord>): SalesSummary
  {
    var s, p := OutSalesTotal(sales), InPurchasesTotal(inventory);
    SalesSummary(s, p, s - p, |sales| + |inventory|)
  }

  lemma {:induction false} OutSalesAppend(sales: seq<SaleRecord>, r: SaleRecord)
    ensures OutSalesTotal(sales + [r]) == OutSalesTotal(sales) + (if r.kind == JStr("OUT") then r.totalPrice else 0.0)
  {
    if sales != [] {
      assert (sales + [r])[1..] == sales[1..] + [r];
      OutSalesAppend(sales[1..], r);
    }
  }

  lemma {:induction false} InPurchasesAppend(inventory: seq<InventoryRecord>, r: InventoryRecord)
    ensures InPurchasesTotal(inventory + [r]) == InPurchasesTotal(inventory) + (if r.kind == JStr("IN") then r.totalPrice else 0.0)
  {
    if inventory != [] {
      assert (inventory + [r])[1..] == inventory[1..] + [r];
      InPurchasesAppend(inventory[1..], r);
    }
  }

  /** Recording a sale of type `OUT` raises total sales and profit by its value. */
  lemma SummaryAfterSale(sales: seq<SaleRecord>, inventory: seq<InventoryRecord>, r: SaleRecord)
    ensures
      var before, after := Summarize(sales, inventory), Summarize(sales + [r], inventory);
      var gain := if r.kind == JStr("OUT") then r.totalPrice else 0.0;
      && after.totalSales == before.totalSales + gain
      && after.profit == before.profit + gain
      && after.totalPurchases == before.totalPurchases
      && after.totalTransactions == before.totalTransactions + 1
  {
    OutSalesAppend(sales, r);
  }

  /** Recording a purchase of type `IN` raises total purchases and lowers profit by its value. */
  lemma SummaryAfterPurchase(sales: seq<SaleRecord>, inventory: seq<InventoryRecord>, r: InventoryRecord)
    ensures
      var before, after := Summarize(sales, inventory), Summarize(sales, inventory + [r]);
      var cost := if r.kind == JStr("IN") then r.totalPrice else 0.0;
      && after.totalPurchases == before.totalPurchases + cost
      && after.profit == before.profit - cost
      && after.totalSales == before.totalSales
      && after.totalTransactions == before.totalTransactions + 1
  {
    InPurchasesAppend(inventory, r);
  }

  // ---------------------------------------------------------------- store

  /** Row ids come from the autoincrement counter: below its next value and increasing. */
  predicate Numbered(txs: seq<TransactionRecord>, next: nat)
  {
    && (forall i :: 0 <= i < |txs| ==> txs[i].id < next)
    && (forall i, j :: 0 <= i < j < |txs| ==> txs[i].id < txs[j].id)
  }

  /** Inserting a row under the counter's next value and advancing the counter keeps the numbering. */
  lemma InsertKeepsNumbered(txs: seq<TransactionRecord>, next: nat, fields: NewTransaction)
    requires Numbered(txs, next)
    ensures Numbered(txs + [TransactionRecord(next, fields)], next + 1)
  {
    var after := txs + [TransactionRecord(next, fields)];
    assert forall k :: 0 <= k < |txs| ==> after[k] == txs[k];
  }

  /** The database: the tables the handlers below read and change. */
  class Store {
    var stock: Stock
    var inventory: seq<InventoryRecord>
    var sales: seq<SaleRecord>
    var transactions: seq<TransactionRecord>
    var nextTransactionId: nat
    var orders: map<nat, AdvanceOrder>

    /** `fish_type` is NOT NULL; transaction ids increase and stay below the next id. */
    ghost predicate Valid()
      reads this
    {
      && JNull !in stock
      && Numbered(transactions, nextTransactionId)
    }

    /** A database holding the given stock rows and advance orders. */
    constructor (stock0: Stock, orders0: map<nat, AdvanceOrder>)
      requires JNull !in stock0
      ensures Valid()
      ensures stock == stock0 && orders == orders0
      ensures inventory == [] && sales == [] && transactions == [] && nextTransactionId == 1
    {
      stock, orders := stock0, orders0;
      inventory, sales, transactions := [], [], [];
      nextTransactionId := 1;
    }

    /** `save_inventory`: record the entry, create its stock row at 0 if needed, then move it. */
    method SaveInventory(body: Option<Json>) returns (reply: Reply)
      requires Valid()
      modifies this`stock, this`inventory
      ensures Valid()
      ensures match CheckInventory(body)
        case Err(reason) =>
          reply == Failure(reason) && stock == old(stock) && inventory == old(inventory)
        case Ok(entry) =>
          && reply == Saved
          && inventory == old(inventory) + [entry.record]
          && stock == Adjust(old(stock), entry.record.fishType, entry.change)
    {
      var checked := CheckInventory(body);
      if checked.Err? {
        return Failure(checked.error);
      }
      var entry := checked.value;
      var fishType := entry.record.fishType;
      inventory := inventory + [entry.record];
      // INSERT OR IGNORE INTO stock ... VALUES (?, 0)
      if fishType !in stock {
        stock := stock[fishType := 0.0];
      }
      // UPDATE stock SET current_quantity = current_quantity + ?
      stock := stock[fishType := stock[fishType] + entry.change];
      reply := Saved;
    }

    /** `save_sales`: refuse unless the stock covers the quantity, then record and deduct. */
    method SaveSale(body: Option<Json>) returns (reply: Reply)
      requires Valid()
      modifies this`stock, this`sales
      ensures Valid()
      ensures match CheckSale(old(stock), body)
        case Err(reason) =>
          reply == Failure(reason) && stock == old(stock) && sales == old(sales)
        case Ok(entry) =>
          && reply == SaleRecorded(entry.available - entry.quantity)
          && sales == old(sales) + [entry.record]
          && stock == old(stock)[entry.record.fishType := entry.available - entry.quantity]
    {
      var checked := CheckSale(stock, body);
      if checked.Err? {
        return Failure(checked.error);
      }
      var entry := checked.value;
      sales := sales + [entry.record];
      stock := stock[entry.record.fishType := stock[entry.record.fishType] - entry.quantity];
      reply := SaleRecorded(entry.available - entry.quantity);
    }

    /**
      `update_stock`: move an existing row, or insert a new row holding the
      change; a NULL fish type matches no row and violates NOT NULL.
    */
    method UpdateStock(fishType: JsonValue, change: real) returns (ok: bool)
      requires Valid()
      modifies this`stock
      ensures Valid()
      ensures ok <==> fishType != JNull
      ensures stock == if ok then Adjust(old(stock), fishType, change) else old(stock)
    {
      if fishType in stock {
        stock := stock[fishType := stock[fishType] + change];
        ok := true;
      } else if fishType == JNull {
        ok := false;
      } else {
        stock := stock[fishType := change];
        ok := true;
      }
    }

    /** `reset_stock`: every quantity becomes 0. */
    method ResetStock() returns (reply: Reply)
      requires Valid()
      modifies this`stock
      ensures Valid()
      ensures reply == StockReset
      ensures stock.Keys == old(stock).Keys
      ensures forall k :: k in stock ==> stock[k] == 0.0
    {
      stock := map k | k in stock :: 0.0;
      reply := StockReset;
    }

    /** `create_transaction`: store a validated transaction under the next id. */
    method CreateTransaction(size: nat, file: Option<Upload>, form: map<string, string>) returns (reply: Reply)
      requires Valid()
      modifies this`transactions, this`nextTransactionId
      ensures Valid()
      ensures match CheckTransaction(size, file, form)
        case Err(reason) =>
          && reply == Failure(reason) && transactions == old(transactions)
          && nextTransactionId == old(nextTransactionId)
        case Ok(fields) =>
          && reply == TransactionCreated(old(nextTransactionId))
          && transactions == old(transactions) + [TransactionRecord(old(nextTransactionId), fields)]
          && nextTransactionId == old(nextTransactionId) + 1
    {
      var checked := CheckTransaction(size, file, form);
      if checked.Err? {
        return Failure(checked.error);
      }
      var id := nextTransactionId;
      InsertKeepsNumbered(transactions, id, checked.value);
      transactions := transactions + [TransactionRecord(id, checked.value)];
      nextTransactionId := nextTransactionId + 1;
      reply := TransactionCreated(id);
    }

    /** `delete_order`: 404 for an unknown id, otherwise remove exactly that order. */
    method DeleteOrder(id: nat) returns (reply: Reply)
      requires Valid()
      modifies this`orders
      ensures Valid()
      ensures id !in old(orders) ==> reply == Failure(OrderNotFound) && orders == old(orders)
      ensures reply.Failure? ==> StatusOf(reply.reason) == 404
      ensures id in old(orders) ==> reply == OrderDeleted && orders == old(orders) - {id}
    {
      if id !in orders {
        return Failure(OrderNotFound);
      }
      orders := orders - {id};
      reply := OrderDeleted;
    }
  }
}

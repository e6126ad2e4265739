/**
  The finance page: the summary of money in and money out (over all
  transactions and over one selected date), the rule that turns the search
  dates into query parameters, and the transaction form with its single
  attached receipt, the camera stream state and the save gate.
*/
module Finance {
  import opened Values
  import Ledger

  /** A transaction as the list endpoint returns it. */
  datatype Tx = Tx(kind: string, amount: real, created: Date)

  predicate IsIn(tx: Tx)
  {
    tx.kind == "in"
  }

  /** Counts and sums of money in and money out. */
  datatype Tally = Tally(inCount: nat, outCount: nat, inTotal: real, outTotal: real)

  /** One transaction's contribution: "in" counts as in, every other type as out. */
  function Count(t: Tally, tx: Tx): Tally
  {
    if IsIn(tx) then t.(inCount := t.inCount + 1, inTotal := t.inTotal + tx.amount)
    else t.(outCount := t.outCount + 1, outTotal := t.outTotal + tx.amount)
  }

  /** The tally of a list, folded in list order. */
  function TallyOf(txs: seq<Tx>): Tally
  {
    if txs == [] then Tally(0, 0, 0.0, 0.0) else Count(TallyOf(txs[..|txs| - 1]), txs[|txs| - 1])
  }

  /** The transactions of a list that fall on the given day. */
  function OnDate(txs: seq<Tx>, d: Date): seq<Tx>
  {
    if txs == [] then []
    else OnDate(txs[..|txs| - 1], d) + (if txs[|txs| - 1].created == d then [txs[|txs| - 1]] else [])
  }

  /** The money-in transactions. */
  function Ins(txs: seq<Tx>): seq<Tx>
  {
    if txs == [] then [] else Ins(txs[..|txs| - 1]) + (if IsIn(txs[|txs| - 1]) then [txs[|txs| - 1]] else [])
  }

  /** The money-out transactions: every type other than "in". */
  function Outs(txs: seq<Tx>): seq<Tx>
  {
    if txs == [] then [] else Outs(txs[..|txs| - 1]) + (if IsIn(txs[|txs| - 1]) then [] else [txs[|txs| - 1]])
  }

  function Sum(txs: seq<Tx>): real
  {
    if txs == [] then 0.0 else Sum(txs[..|txs| - 1]) + txs[|txs| - 1].amount
  }

  /**
    The tally counts the in and the out transactions and sums their
    amounts; every transaction is in exactly one of the two.
  */
  lemma {:induction false} TallyIsPartition(txs: seq<Tx>)
    ensures TallyOf(txs) == Tally(|Ins(txs)|, |Outs(txs)|, Sum(Ins(txs)), Sum(Outs(txs)))
    ensures TallyOf(txs).inCount + TallyOf(txs).outCount == |txs|
  {
    if txs != [] {
      var init, last := txs[..|txs| - 1], txs[|txs| - 1];
      TallyIsPartition(init);
      if IsIn(last) {
        assert Ins(txs) == Ins(init) + [last];
        assert (Ins(init) + [last])[..|Ins(init)|] == Ins(init);
        assert Outs(txs) == Outs(init) + [] == Outs(init);
      } else {
        assert Outs(txs) == Outs(init) + [last];
        assert (Outs(init) + [last])[..|Outs(init)|] == Outs(init);
        assert Ins(txs) == Ins(init) + [] == Ins(init);
      }
    }
  }

  /** The date summary covers exactly the transactions on that day, in order. */
  lemma {:induction false} OnDateExact(txs: seq<Tx>, d: Date)
    ensures forall tx :: tx in OnDate(txs, d) <==> tx in txs && tx.created == d
    ensures |OnDate(txs, d)| <= |txs|
  {
    if txs != [] {
      OnDateExact(txs[..|txs| - 1], d);
      assert txs == txs[..|txs| - 1] + [txs[|txs| - 1]];
    }
  }

  /** Each date-scoped count is at most the matching overall count. */
  lemma {:induction false} DateCountsBounded(txs: seq<Tx>, d: Date)
    ensures TallyOf(OnDate(txs, d)).inCount <= TallyOf(txs).inCount
    ensures TallyOf(OnDate(txs, d)).outCount <= TallyOf(txs).outCount
  {
    if txs != [] {
      var init, last := txs[..|txs| - 1], txs[|txs| - 1];
      DateCountsBounded(init, d);
      OnDateStep(txs, d);
    }
  }

  /** The date scope of a list is that of its prefix, plus the last transaction when it is on the day. */
  lemma OnDateStep(txs: seq<Tx>, d: Date)
    requires txs != []
    ensures var init, last := txs[..|txs| - 1], txs[|txs| - 1];
      TallyOf(OnDate(txs, d)) == if last.created == d then Count(TallyOf(OnDate(init, d)), last)
                                 else TallyOf(OnDate(init, d))
  {
    var init, last := txs[..|txs| - 1], txs[|txs| - 1];
    if last.created == d {
      var scoped := OnDate(init, d) + [last];
      assert scoped[..|scoped| - 1] == OnDate(init, d);
    } else {
      assert OnDate(txs, d) == OnDate(init, d) + [] == OnDate(init, d);
    }
  }

  /** With no negative amounts, each date-scoped sum is at most the matching overall sum. */
  lemma {:induction false} DateSumsBounded(txs: seq<Tx>, d: Date)
    requires forall i :: 0 <= i < |txs| ==> txs[i].amount >= 0.0
    ensures TallyOf(OnDate(txs, d)).inTotal <= TallyOf(txs).inTotal
    ensures TallyOf(OnDate(txs, d)).outTotal <= TallyOf(txs).outTotal
  {
    if txs != [] {
      var init, last := txs[..|txs| - 1], txs[|txs| - 1];
      assert forall i :: 0 <= i < |init| ==> init[i] == txs[i];
      DateSumsBounded(init, d);
      OnDateStep(txs, d);
      assert last.amount >= 0.0;
    }
  }

  /**
    `calculateTransactionSummaries`: one pass over the list that updates the
    overall tally and, for transactions on the selected day (today when no
    date is given), the date tally.
  */
  method Summaries(txs: seq<Tx>, filterDate: Option<Date>, today: Date)
    returns (dateSummary: Tally, totalSummary: Tally)
    ensures totalSummary == TallyOf(txs)
    ensures dateSummary == TallyOf(OnDate(txs, if filterDate.Some? then filterDate.value else today))
    ensures totalSummary.inCount + totalSummary.outCount == |txs|
    ensures dateSummary.inCount <= totalSummary.inCount && dateSummary.outCount <= totalSummary.outCount
  {
    var selected := if filterDate.Some? then filterDate.value else today;
    dateSummary := Tally(0, 0, 0.0, 0.0);
    totalSummary := Tally(0, 0, 0.0, 0.0);
    var i := 0;
    while i < |txs|
      invariant 0 <= i <= |txs|
      invariant totalSummary == TallyOf(txs[..i])
      invariant dateSummary == TallyOf(OnDate(txs[..i], selected))
    {
      var tx := txs[i];
      ghost var prefix := txs[..i + 1];
      assert prefix[..i] == txs[..i] && prefix[i] == tx;
      totalSummary := Count(totalSummary, tx);
      if tx.created == selected {
        dateSummary := Count(dateSummary, tx);
      }
      OnDateStep(prefix, selected);
      i := i + 1;
    }
    assert txs[..i] == txs;
    TallyIsPartition(txs);
    DateCountsBounded(txs, selected);
  }

  // -------------------------------------------------------------- search

  /** One query parameter of the transaction search. */
  datatype Param = Param(key: string, value: Date)

  /**
    `searchTransactions`: no date at all is refused; otherwise exactly the
    dates given become parameters, the start date first.
  */
  function SearchParams(startDate: Option<Date>, endDate: Option<Date>): (r: Result<seq<Param>, string>)
    ensures r.Err? <==> startDate.None? && endDate.None?
    ensures r.Ok? ==>
      && |r.value| == (if startDate.Some? then 1 else 0) + (if endDate.Some? then 1 else 0)
      && (startDate.Some? ==> r.value[0] == Param("start_date", startDate.value))
      && (endDate.Some? ==> r.value[|r.value| - 1] == Param("end_date", endDate.value))
      && (endDate.Some? ==> Param("end_date", endDate.value) in r.value)
      && (forall p :: p in r.value ==>
           (p.key == "start_date" && startDate == Some(p.value)) || (p.key == "end_date" && endDate == Some(p.value)))
  {
    if startDate.None? && endDate.None? then Err("Please enter a start date or end date")
    else
      Ok((if startDate.Some? then [Param("start_date", startDate.value)] else [])
         + (if endDate.Some? then [Param("end_date", endDate.value)] else []))
  }

  // --------------------------------------------------------------- form

  /** A browser `File`: its name and MIME type. */
  datatype File = File(name: string, mimeType: string)

  /** The notification the page last showed. */
  datatype Notice =
    | InvalidAmount | NameRequired | ReceiptRequired | NotAnImage
    | CameraError | CaptureFailed | SaveFailed | TransactionSaved

  /** The multipart form the save posts. */
  datatype FormPayload = FormPayload(
    transactionType: string, paymentMethod: string, amount: real,
    clientName: string, clientPhone: string, notes: string, receipt: File)

  /**
    The first of the save's three checks that fails, in their order:
    the amount (0 or not a number), the trimmed client name, the receipt.
  */
  function SaveRefusal(amount: Text, clientName: string, receipt: Option<File>): (r: Option<Notice>)
    ensures r.None? <==> ParseFloat(amount).Val? && ParseFloat(amount).value != 0.0
                         && Trim(clientName) != "" && receipt.Some?
    ensures (ParseFloat(amount).NaN? || ParseFloat(amount).value == 0.0) ==> r == Some(InvalidAmount)
    ensures r == Some(NameRequired) ==> Trim(clientName) == ""
    ensures r == Some(ReceiptRequired) ==> receipt.None?
    ensures ParseFloat(amount).Val? && ParseFloat(amount).value != 0.0 && Trim(clientName) == "" ==>
              r == Some(NameRequired)
    ensures (ParseFloat(amount).Val? && ParseFloat(amount).value != 0.0 && Trim(clientName) != ""
             && receipt.None?) ==> r == Some(ReceiptRequired)
  {
    var n := ParseFloat(amount);
    if n.NaN? || n.value == 0.0 then Some(InvalidAmount)
    else if Trim(clientName) == "" then Some(NameRequired)
    else if receipt.None? then Some(ReceiptRequired)
    else None
  }

  /** The decimal digits of a natural number (the capture's timestamp). */
  function NatStr(n: nat): (s: string)
    ensures s != [] && AllDigits(s)
  {
    if n < 10 then [('0' as int + n) as char] else NatStr(n / 10) + [('0' as int + n % 10) as char]
  }

  /** The name a camera capture gets. */
  function CaptureName(now: nat): string
  {
    "receipt_" + NatStr(now) + ".jpg"
  }

  /** A camera capture always passes the server's upload check. */
  lemma CaptureIsAllowedUpload(now: nat)
    ensures Ledger.AllowedFile(Some(Ledger.Upload(CaptureName(now), "image/jpeg")))
  {
    var stem := "receipt_" + NatStr(now);
    assert CaptureName(now) == stem + ['.'] + "jpg";
    AfterLastJoin(stem, '.', "jpg");
    assert Lower("jpg") == "jpg";
    assert "image/jpeg"[..|"image/"|] == "image/";
  }

  /** The page's image test is looser than the server's: a WebP receipt is kept here and refused there. */
  lemma WebpPassesPageButNotServer()
    ensures Contains("image/webp", "image")
    ensures !Ledger.AllowedFile(Some(Ledger.Upload("r.webp", "image/webp")))
  {
    assert OccursAt("image/webp", "image", 0);
    AfterLastJoin("r", '.', "webp");
    assert "r.webp" == "r" + ['.'] + "webp";
    assert Lower("webp") == "webp";
  }

  /**
    The transaction form's state: its inputs, the checked radio buttons, the
    attached receipt, the camera stream (by id) and the streams stopped so
    far, whether the camera view is live, whether the save button is
    disabled, and the last notification.
  */
  class TransactionForm {
    var amountField: Text
    var clientName: string
    var clientPhone: string
    var notes: string
    var transactionType: Option<string>
    var paymentMethod: Option<string>
    var receipt: Option<File>
    var stream: Option<nat>
    var stopped: set<nat>
    var cameraLive: bool
    var saving: bool
    var notice: Option<Notice>

    constructor (kind: Option<string>, payment: Option<string>)
      ensures amountField == Blank && clientName == "" && clientPhone == "" && notes == ""
      ensures transactionType == kind && paymentMethod == payment
      ensures receipt.None? && stream.None? && stopped == {} && !cameraLive && !saving && notice.None?
    {
      amountField, clientName, clientPhone, notes := Blank, "", "", "";
      transactionType, paymentMethod := kind, payment;
      receipt, stream, stopped, cameraLive, saving, notice := None, None, {}, false, false, None;
    }

    /** `handleFileSelect`: an image file becomes the receipt; any other file leaves it alone. */
    method SelectFile(files: seq<File>)
      modifies this`receipt, this`notice
      ensures files == [] ==> receipt == old(receipt) && notice == old(notice)
      ensures files != [] && Contains(files[0].mimeType, "image") ==>
        receipt == Some(files[0]) && notice == old(notice)
      ensures files != [] && !Contains(files[0].mimeType, "image") ==>
        receipt == old(receipt) && notice == Some(NotAnImage)
    {
      if |files| > 0 {
        var file := files[0];
        if !Contains(file.mimeType, "image") {
          notice := Some(NotAnImage);
          return;
        }
        receipt := Some(file);
      }
    }

    /** The preview's Remove button. */
    method RemoveReceipt()
      modifies this`receipt
      ensures receipt.None?
    {
      receipt := None;
    }

    /** `closeCamera`: stop and forget the stream, if any; the view is gone. */
    method CloseCamera()
      modifies this`stream, this`stopped, this`cameraLive
      ensures stream.None? && !cameraLive
      ensures stopped == old(stopped) + (if old(stream).Some? then {old(stream).value} else {})
    {
      if stream.Some? {
        stopped := stopped + {stream.value};
        stream := None;
      }
      cameraLive := false;
    }

    /**
      `handleCameraCapture`: stop the current stream, then ask for a new one.
      When the camera is refused the stopped stream stays referenced and
      only a notice is shown. The receipt is never touched.
    */
    method OpenCamera(acquired: Option<nat>)
      modifies this`stream, this`stopped, this`cameraLive, this`notice
      ensures stopped == old(stopped) + (if old(stream).Some? then {old(stream).value} else {})
      ensures acquired.Some? ==> stream == acquired && cameraLive && notice == old(notice)
      ensures acquired.None? ==> stream == old(stream) && cameraLive == old(cameraLive) && notice == Some(CameraError)
    {
      if stream.Some? {
        stopped := stopped + {stream.value};
      }
      if acquired.None? {
        notice := Some(CameraError);
        return;
      }
      stream := acquired;
      cameraLive := true;
    }

    /**
      `capturePhoto`: with a live camera, a frame becomes the receipt
      `receipt_<now>.jpg` and the camera is closed. Without one only a notice
      is shown; a failed encoding changes nothing.
    */
    method Capture(encoded: bool, now: nat)
      modifies this`receipt, this`stream, this`stopped, this`cameraLive, this`notice
      ensures !(old(cameraLive) && old(stream).Some?) ==>
        notice == Some(CaptureFailed) && receipt == old(receipt) && stream == old(stream)
        && stopped == old(stopped) && cameraLive == old(cameraLive)
      ensures old(cameraLive) && old(stream).Some? && !encoded ==>
        notice == old(notice) && receipt == old(receipt) && stream == old(stream)
        && stopped == old(stopped) && cameraLive == old(cameraLive)
      ensures old(cameraLive) && old(stream).Some? && encoded ==>
        && receipt == Some(File(CaptureName(now), "image/jpeg"))
        && Ledger.AllowedFile(Some(Ledger.Upload(receipt.value.name, receipt.value.mimeType)))
        && stream.None? && !cameraLive && stopped == old(stopped) + {old(stream).value}
        && notice == old(notice)
    {
      if !cameraLive || stream.None? {
        notice := Some(CaptureFailed);
        return;
      }
      if !encoded {
        return;
      }
      receipt := Some(File(CaptureName(now), "image/jpeg"));
      CaptureIsAllowedUpload(now);
      CloseCamera();
    }

    /** `resetForm`: clear the inputs and the receipt; the radio buttons stay as they are. */
    method ResetForm()
      modifies this`amountField, this`clientName, this`clientPhone, this`notes, this`receipt
      ensures amountField == Blank && clientName == "" && clientPhone == "" && notes == "" && receipt.None?
    {
      amountField, clientName, clientPhone, notes := Blank, "", "", "";
      receipt := None;
    }

    /**
      The first half of `handleSaveTransaction`: run the three checks; if one
      fails show its notice and send nothing. Otherwise disable the button
      and build the form; an unchecked radio group throws, which re-enables
      the button with a failure notice and sends nothing.
    */
    method BeginSave() returns (sent: Option<FormPayload>)
      requires !saving
      modifies this`saving, this`notice
      ensures SaveRefusal(amountField, clientName, receipt).Some? ==>
        sent.None? && !saving && notice == SaveRefusal(amountField, clientName, receipt)
      ensures SaveRefusal(amountField, clientName, receipt).None? &&
              (transactionType.None? || paymentMethod.None?) ==>
        sent.None? && !saving && notice == Some(SaveFailed)
      ensures SaveRefusal(amountField, clientName, receipt).None? &&
              transactionType.Some? && paymentMethod.Some? ==>
        && saving && notice == old(notice)
        && sent == Some(FormPayload(transactionType.value, paymentMethod.value, ParseFloat(amountField).value,
                                    Trim(clientName), Trim(clientPhone), Trim(notes), receipt.value))
      ensures sent.Some? ==> SaveRefusal(amountField, clientName, receipt).None?
    {
      var amount := ParseFloat(amountField);
      var name := Trim(clientName);
      if amount.NaN? || amount.value == 0.0 {
        notice := Some(InvalidAmount);
        return None;
      }
      if name == "" {
        notice := Some(NameRequired);
        return None;
      }
      if receipt.None? {
        notice := Some(ReceiptRequired);
        return None;
      }
      saving := true;
      if transactionType.None? || paymentMethod.None? {
        notice := Some(SaveFailed);
        saving := false;
        return None;
      }
      sent := Some(FormPayload(transactionType.value, paymentMethod.value, amount.value,
                               name, Trim(clientPhone), Trim(notes), receipt.value));
    }

    /**
      The second half: the button is re-enabled on every outcome; success
      shows a notice and resets the form, failure only shows a notice.
    */
    method FinishSave(ok: bool)
      requires saving
      modifies this`saving, this`notice, this`amountField, this`clientName, this`clientPhone,
               this`notes, this`receipt
      ensures !saving
      ensures ok ==> notice == Some(TransactionSaved) && amountField == Blank && clientName == ""
                     && clientPhone == "" && notes == "" && receipt.None?
      ensures !ok ==> notice == Some(SaveFailed) && amountField == old(amountField)
                      && clientName == old(clientName) && clientPhone == old(clientPhone)
                      && notes == old(notes) && receipt == old(receipt)
    {
      if ok {
        notice := Some(TransactionSaved);
        ResetForm();
      } else {
        notice := Some(SaveFailed);
      }
      saving := false;
    }
  }
}

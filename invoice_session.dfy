/** The invoice form's session state: the line items, the client record and
    the invoice number, and the operations the form's buttons and fields
    perform on them. Widgets, reruns and messages are not modelled; what a
    widget returns is a parameter. */
module InvoiceApp {
  import opened Invoice
  import Text
  import StoreConstants
  import GeminiService
  import PdfGenerator

  /** The invoice number a new session starts from. */
  const FirstConsecutive: string := "A001197"

  /** The four keys the client form edits. */
  const FormKeys: set<string> := {"fullName", "address", "phone", "transportProvider"}

  /** The client record of a new session: the four form keys, all empty. */
  const EmptyClient: ClientData := map["fullName" := "", "address" := "", "phone" := "", "transportProvider" := ""]

  /** What the line-item table may hold: a catalog product, a quantity the
      number widget allows, a price that passed the guard, and the dollar
      price derived from it. */
  predicate ItemOk(item: LineItem) {
    && item.product in StoreConstants.ProductCatalog
    && item.quantity >= 1
    && item.priceCordobas > 0.0
    && item.priceDollars * StoreConstants.DefaultExchangeRate == item.priceCordobas
  }

  /** The line an accepted "add item" appends: the dollar price is the
      córdoba price at the default exchange rate. */
  function NewItem(product: Product, qty: int, priceC: real, image: Option<seq<byte>>): (it: LineItem)
    ensures it.product == product && it.quantity == qty && it.priceCordobas == priceC
    ensures it.priceDollars * StoreConstants.DefaultExchangeRate == priceC
    ensures it.customImageData == image
  {
    LineItem(product, qty, priceC, priceC / StoreConstants.DefaultExchangeRate, image)
  }

  /** `dict.update` with the four form fields: those keys take the form's
      values, every other key keeps its value, and no key is lost. */
  function ApplyForm(d: ClientData, name: string, addr: string, phone: string, trans: string): (r: ClientData)
    ensures r.Keys == d.Keys + FormKeys
    ensures r["fullName"] == name && r["address"] == addr && r["phone"] == phone && r["transportProvider"] == trans
    ensures forall k :: k in d && k !in FormKeys ==> r[k] == d[k]
  {
    d["fullName" := name]["address" := addr]["phone" := phone]["transportProvider" := trans]
  }

  const FilePrefix: string := "factura_"
  const FileSuffix: string := ".pdf"
  /** The name used when the client record has no `fullName`. */
  const DefaultFileName: string := "Cliente"

  /** The client's name as it goes into the file name: stripped, with each
      space turned into an underscore. */
  function SafeName(fullName: string): (r: string)
    ensures |r| == |Text.Strip(fullName)|
    ensures forall k :: 0 <= k < |r| ==> r[k] == if Text.Strip(fullName)[k] == ' ' then '_' else Text.Strip(fullName)[k]
    ensures ' ' !in r
  {
    var name := Text.Strip(fullName);
    Text.ReplaceCharPointwise(name, ' ', '_');
    Text.ReplaceAll(name, " ", "_")
  }

  /** `f"factura_{consecutive}_{safe_name}.pdf"`; `OutputFilenameShape`
      takes it apart. */
  function OutputFilename(consecutive: string, fullName: string): string {
    FilePrefix + consecutive + "_" + SafeName(fullName) + FileSuffix
  }

  /** The name the file is saved under: the client's full name, or "Cliente"
      when the record has none. */
  function FilenameFor(consecutive: string, client: ClientData): (f: string)
    ensures "fullName" in client ==> f == OutputFilename(consecutive, client["fullName"])
    ensures "fullName" !in client ==> f == OutputFilename(consecutive, DefaultFileName)
  {
    OutputFilename(consecutive, Get(client, "fullName", DefaultFileName))
  }

  /** The file name is "factura_", the number, "_", the safe name and
      ".pdf"; it holds a space only if the invoice number does. */
  lemma OutputFilenameShape(consecutive: string, fullName: string)
    ensures var f := OutputFilename(consecutive, fullName);
      && |f| == |consecutive| + |SafeName(fullName)| + 13
      && f[..8] == FilePrefix && f[|f| - 4..] == FileSuffix
      && f[8..8 + |consecutive|] == consecutive
      && f[9 + |consecutive|..|f| - 4] == SafeName(fullName)
      && (' ' in f <==> ' ' in consecutive)
  {
    var f := OutputFilename(consecutive, fullName);
    var safe := SafeName(fullName);
    assert f == FilePrefix + consecutive + "_" + safe + FileSuffix;
    assert ' ' !in FilePrefix && ' ' !in FileSuffix && ' ' !in safe;
  }

  /** What pressing "autocomplete" did. */
  datatype Outcome =
    | NotCalled
    | Applied
    | Rejected(error: Option<string>)

  /** What pressing "generate" produced: the file name and the page. */
  datatype Output = Output(filename: string, page: PdfGenerator.Page)

  class InvoiceSession {
    var items: seq<LineItem>
    var clientData: ClientData
    var consecutive: string

    predicate Valid()
      reads this
    {
      forall k :: 0 <= k < |items| ==> ItemOk(items[k])
    }

    /** The first run: no items, an empty client record, the first number. */
    constructor()
      ensures Valid()
      ensures items == [] && clientData == EmptyClient && consecutive == FirstConsecutive
    {
      items := [];
      clientData := EmptyClient;
      consecutive := FirstConsecutive;
    }

    /** The invoice-number field. */
    method SetConsecutive(number: string)
      modifies this
      ensures consecutive == number
      ensures items == old(items) && clientData == old(clientData)
    {
      consecutive := number;
    }

    /** The autocomplete button. The service is asked only when the pasted
        text is not blank; its result replaces the client record only when it
        is non-empty and has no "error" key, and is otherwise reported with its
        "error" value, if any. */
    method Autocomplete(rawText: string, apiKey: Option<string>, reply: string -> GeminiService.ModelReply,
                        decode: GeminiService.JsonDecoder)
      returns (outcome: Outcome)
      modifies this
      ensures outcome == NotCalled <==> Text.Strip(rawText) == []
      ensures var result := GeminiService.ParseClientInfo(apiKey, reply(rawText), decode);
        && (outcome == Applied <==> Text.Strip(rawText) != [] && result != map[] && "error" !in result)
        && (outcome.Rejected? ==> outcome.error == if "error" in result then Some(result["error"]) else None)
        && clientData == (if outcome == Applied then result else old(clientData))
      ensures items == old(items) && consecutive == old(consecutive)
    {
      outcome := NotCalled;
      if Text.Strip(rawText) != [] {
        var result := GeminiService.ParseClientInfo(apiKey, reply(rawText), decode);
        if result != map[] && "error" !in result {
          clientData := result;
          outcome := Applied;
        } else {
          outcome := Rejected(if "error" in result then Some(result["error"]) else None);
        }
      }
    }

    /** The four client fields, written back into the record on every run. */
    method UpdateClientFields(name: string, addr: string, phone: string, trans: string)
      modifies this
      ensures clientData == ApplyForm(old(clientData), name, addr, phone, trans)
      ensures items == old(items) && consecutive == old(consecutive)
    {
      clientData := clientData["fullName" := name]["address" := addr]["phone" := phone]["transportProvider" := trans];
    }

    /** The "add item" button, with the product from the catalog selector and
        a quantity of at least one from the number widget. A price of zero or
        less is refused; otherwise exactly one line is appended. */
    method AddItem(product: Product, qty: int, priceC: real, image: Option<seq<byte>>) returns (added: bool)
      requires Valid()
      requires product in StoreConstants.ProductCatalog && qty >= 1
      modifies this
      ensures Valid()
      ensures added <==> priceC > 0.0
      ensures items == if added then old(items) + [NewItem(product, qty, priceC, image)] else old(items)
      ensures clientData == old(clientData) && consecutive == old(consecutive)
    {
      if priceC <= 0.0 {
        added := false;
      } else {
        var item := LineItem(product, qty, priceC, priceC / StoreConstants.DefaultExchangeRate, image);
        items := items + [item];
        added := true;
      }
    }

    /** A row's delete button: removes exactly the line at `i`. */
    method DeleteItem(i: nat)
      requires Valid() && i < |items|
      modifies this
      ensures Valid()
      ensures items == old(items[..i] + items[i + 1..])
      ensures clientData == old(clientData) && consecutive == old(consecutive)
    {
      items := items[..i] + items[i + 1..];
    }

    /** The total shown beside the form: the items' subtotal plus shipping
        minus discount. For a valid non-empty invoice it is positive unless
        the discount is larger than the shipping. */
    function DisplayedTotal(shipping: real, discount: real): (r: real)
      reads this
      ensures r + discount == Subtotal(items) + shipping
      ensures Valid() && items != [] && discount <= shipping ==> r > 0.0
    {
      var total := GrandTotal(Subtotal(items), shipping, discount);
      if Valid() && items != [] then ValidSubtotalPositive(items); total else total
    }

    /** The record the "generate" button hands to the renderer: refused for
        an empty item list, otherwise the session's values unchanged. */
    function InvoiceData(date: string, shipping: real, discount: real, note: string): (r: Option<InvoiceRecord>)
      reads this
      ensures r.None? <==> items == []
      ensures r.Some? ==>
        && r.value.number == consecutive && r.value.date == date && r.value.client == clientData
        && r.value.items == items && r.value.shippingCost == shipping && r.value.discount == discount
        && r.value.note == note
    {
      if items == [] then None
      else Some(InvoiceRecord(consecutive, date, clientData, items, shipping, discount, note))
    }

    /** The "generate" button: nothing for an empty invoice; otherwise the
        page for the session's record under the session's file name, whose
        totals are the ones the form displays and which shows the session's
        number and the client's name in capitals. */
    method Generate(date: string, shipping: real, discount: real, note: string,
                    logo: Option<seq<byte>>, decode: PdfGenerator.Decoder, m: PdfGenerator.Measurements)
      returns (out: Option<Output>)
      ensures out.None? <==> items == []
      ensures out.Some? ==>
        && out.value.filename == FilenameFor(consecutive, clientData)
        && out.value.page.table == PdfGenerator.DrawTable(PdfGenerator.Margin, PdfGenerator.TableY(m),
             PdfGenerator.TableRows(items, decode), PdfGenerator.ColWidths)
        && out.value.page.subtotal == Subtotal(items)
        && out.value.page.grandTotal == DisplayedTotal(shipping, discount)
        && PdfGenerator.DrawString(PdfGenerator.Margin + 80.0, PdfGenerator.PageHeight - 80.0,
             PdfGenerator.Plain(consecutive)) in out.value.page.header
        && PdfGenerator.DrawString(PdfGenerator.RightBlockX + PdfGenerator.Padding, PdfGenerator.BlocksTop - 40.0,
             PdfGenerator.Plain(Text.Upper(Get(clientData, "fullName", PdfGenerator.DefaultClientName))))
           in out.value.page.blocks
    {
      var data := InvoiceData(date, shipping, discount, note);
      if data.None? {
        out := None;
      } else {
        var filename := FilenameFor(consecutive, clientData);
        var page := PdfGenerator.GeneratePdf(data.value, logo, decode, m);
        out := Some(Output(filename, page));
      }
    }
  }

  /** Deleting line `i` lowers the subtotal by that line's total and keeps
      the order of the others. */
  lemma DeleteAdjustsSubtotal(items: seq<LineItem>, i: nat)
    requires i < |items|
    ensures var rest := items[..i] + items[i + 1..];
      && |rest| == |items| - 1
      && (forall k :: 0 <= k < i ==> rest[k] == items[k])
      && (forall k :: i <= k < |rest| ==> rest[k] == items[k + 1])
      && Subtotal(rest) == Subtotal(items) - LineTotal(items[i])
  {
    SubtotalRemove(items, i);
  }

  /** Adding a line raises the subtotal by that line's total. */
  lemma AddAdjustsSubtotal(items: seq<LineItem>, item: LineItem)
    ensures Subtotal(items + [item]) == Subtotal(items) + LineTotal(item)
  {
    SubtotalAppend(items, [item]);
    assert [item][..0] == [];
  }

  /** A valid non-empty invoice has a positive subtotal: the only way to a
      negative total is a discount above subtotal plus shipping. */
  lemma ValidSubtotalPositive(items: seq<LineItem>)
    requires items != [] && forall k :: 0 <= k < |items| ==> ItemOk(items[k])
    ensures Subtotal(items) > 0.0
  {
    SubtotalPositive(items);
  }
}

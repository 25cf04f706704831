/** The one-page A4 invoice of `generate_pdf_file`: the drawing commands it
    issues section by section, the product table it builds and the totals it
    prints. What the typesetting library measures (paragraph and table heights,
    image decoding) comes in as input. */
module PdfGenerator {
  import opened Invoice
  import Text
  import StoreConstants

  // --- Page and grid (points) ---

  /** A4 is 210 mm by 297 mm at 72 points per inch. */
  const PageWidth: real := 75600.0 / 127.0
  const PageHeight: real := 106920.0 / 127.0
  const Margin: real := 40.0
  const ContentWidth: real := PageWidth - Margin * 2.0
  const Gap: real := 20.0
  /** Width of each of the two info blocks, of the note box. */
  const HalfWidth: real := (ContentWidth - Gap) / 2.0
  /** Inner padding of the blocks and the note box. */
  const Padding: real := 10.0

  const LogoWidth: real := 120.0
  const LogoHeight: real := 80.0
  const LogoX: real := PageWidth - Margin - LogoWidth
  const LogoY: real := PageHeight - 100.0

  const BlocksTop: real := PageHeight - 130.0
  const BlockHeight: real := 145.0
  const BlocksBottom: real := BlocksTop - BlockHeight
  const RightBlockX: real := Margin + HalfWidth + Gap

  const Headers: seq<string> := ["Artículo", "Cantidad", "Monto", "Dolares", "Total"]
  const ColWidths: seq<real> := [225.0, 50.0, 80.0, 70.0, 90.0]
  const ThumbHeight: real := 45.0
  /** Space between the info blocks and the table, and between the table and
      the notes-and-totals section. */
  const TableGap: real := 40.0
  const SectionGap: real := 20.0
  const NoteMinHeight: real := 60.0
  /** The name printed when the client record has no `fullName`. */
  const DefaultClientName: string := "Cliente General"
  const AddressPrefix: string := "Dirección: "
  const TransportCaption: string := "Proveedor de Transporte:"
  const ClientTitle: string := "Facturado a:"

  /** Right edge of the totals values and right edge of their labels. */
  const ValueX: real := PageWidth - Margin
  const LabelX: real := PageWidth - Margin - 100.0

  // --- What is drawn ---

  /** Text as drawn. `Amount(prefix, v)` stands for `prefix` followed by `v`
      with two decimals and thousands separators. */
  datatype Label = Plain(text: string) | Amount(prefix: string, value: real)

  /** The contents of the article cell: a paragraph, then an optional image
      scaled to `drawWidth` by `drawHeight`. */
  datatype Flowable = Para(markup: string) | Thumb(drawWidth: real, drawHeight: real)

  datatype Cell = TextCell(caption: Label) | ContentCell(content: seq<Flowable>)

  type Row = seq<Cell>

  /** One canvas call; `DrawParagraph` carries the height the paragraph was
      measured at, and is drawn from its bottom edge at `y`. */
  datatype Command =
    | DrawString(x: real, y: real, caption: Label)
    | DrawRightString(x: real, y: real, caption: Label)
    | DrawCentredString(x: real, y: real, caption: Label)
    | Rect(x: real, y: real, w: real, h: real)
    | RoundRect(x: real, y: real, w: real, h: real, radius: real)
    | Line(x1: real, y1: real, x2: real, y2: real)
    | DrawImage(x: real, y: real, w: real, h: real)
    | DrawParagraph(x: real, y: real, markup: string, h: real)
    | DrawTable(x: real, y: real, rows: seq<Row>, colWidths: seq<real>)

  /** The highest point a command reaches, as far as the command itself
      tells: for text its baseline, and for the table its bottom edge, since
      the table's height is measured apart (`Measurements.tableHeight`). */
  function TopEdge(c: Command): real {
    match c
    case Rect(_, y, _, h) => y + h
    case RoundRect(_, y, _, h, _) => y + h
    case DrawImage(_, y, _, h) => y + h
    case DrawParagraph(_, y, _, h) => y + h
    case Line(_, y1, _, y2) => if y1 < y2 then y2 else y1
    case DrawTable(_, y, _, _) => y
    case DrawString(_, y, _) => y
    case DrawRightString(_, y, _) => y
    case DrawCentredString(_, y, _) => y
  }

  /** What decoding an image blob yields: its pixel size, or failure. */
  datatype ImageInfo = Undecodable | Decoded(pixelWidth: nat, pixelHeight: nat)

  type Decoder = seq<byte> -> ImageInfo

  /** The heights the typesetting library measures: the wrapped client
      address, the whole table and the wrapped note. */
  datatype Measurements = Measurements(addressHeight: real, tableHeight: real, noteHeight: real)

  /** The page, section by section, with the totals it computed. */
  datatype Page = Page(
    header: seq<Command>,
    blocks: seq<Command>,
    table: Command,
    note: seq<Command>,
    totals: seq<Command>,
    subtotal: real,
    grandTotal: real)
  {
    /** Every command, in the order the canvas receives them. */
    function Commands(): seq<Command> {
      header + blocks + [table] + note + totals
    }
  }

  /** Python truthiness of an optional byte string. */
  predicate Present(data: Option<seq<byte>>) {
    data.Some? && data.value != []
  }

  predicate LogoDrawn(logo: Option<seq<byte>>, decode: Decoder) {
    Present(logo) && decode(logo.value).Decoded?
  }

  predicate HasImage(cmds: seq<Command>) {
    exists k :: 0 <= k < |cmds| && cmds[k].DrawImage?
  }

  predicate HasTag(cmds: seq<Command>) {
    exists k :: 0 <= k < |cmds| && cmds[k].RoundRect?
  }

  /** The transport tag is shown when the client has a non-empty transport
      provider; a missing key counts as empty. */
  predicate ShowsTransport(client: ClientData): (b: bool)
    ensures b <==> "transportProvider" in client && client["transportProvider"] != ""
  {
    Get(client, "transportProvider", "") != ""
  }

  /** Bottom edge of the table once it is `tableHeight` tall: its top is 40
      points under the blocks. */
  function TableY(m: Measurements): (y: real)
    ensures y + m.tableHeight == BlocksBottom - TableGap
  {
    BlocksBottom - TableGap - m.tableHeight
  }

  /** Where the notes and totals start: 20 points under the table. */
  function SectionTop(m: Measurements): (y: real)
    ensures y < TableY(m) && TableY(m) - y == SectionGap
  {
    TableY(m) - SectionGap
  }

  function Sum(s: seq<real>): real {
    if s == [] then 0.0 else s[0] + Sum(s[1..])
  }

  /** The grid: both blocks end at the right margin like the logo box and the
      totals, and the table columns fit between the margins. */
  lemma GridAlignment()
    ensures RightBlockX + HalfWidth == PageWidth - Margin
    ensures LogoX + LogoWidth == PageWidth - Margin
    ensures ValueX == PageWidth - Margin
    ensures |ColWidths| == |Headers| == 5
    ensures Sum(ColWidths) == 515.0 < ContentWidth
    ensures Margin + Sum(ColWidths) <= PageWidth - Margin
  {
    assert Sum(ColWidths) == 225.0 + Sum(ColWidths[1..]);
    assert Sum(ColWidths[1..]) == 50.0 + Sum(ColWidths[2..]);
    assert Sum(ColWidths[2..]) == 80.0 + Sum(ColWidths[3..]);
    assert Sum(ColWidths[3..]) == 70.0 + Sum(ColWidths[4..]);
    assert Sum(ColWidths[4..]) == 90.0 + Sum(ColWidths[5..]);
  }

  // --- The product table ---

  /** The image an article cell shows: only for present image bytes that
      decode to a non-zero height, 45 points tall with the image's aspect ratio. */
  function Thumbnail(data: Option<seq<byte>>, decode: Decoder): (t: Option<Flowable>)
    ensures t.Some? <==> Present(data) && decode(data.value).Decoded? && decode(data.value).pixelHeight > 0
    ensures t.Some? ==>
      && t.value.Thumb? && t.value.drawHeight == ThumbHeight
      && t.value.drawWidth * decode(data.value).pixelHeight as real == ThumbHeight * decode(data.value).pixelWidth as real
  {
    if !Present(data) then None
    else match decode(data.value)
      case Undecodable => None
      case Decoded(w, h) => if h == 0 then None else Some(Thumb(ThumbHeight * (w as real / h as real), ThumbHeight))
  }

  /** The article cell: the description in bold, followed by the thumbnail
      when there is one and by nothing otherwise. */
  function ArticleContent(item: LineItem, decode: Decoder): (c: seq<Flowable>)
    ensures |c| == if Thumbnail(item.customImageData, decode).Some? then 2 else 1
    ensures c[0] == Para("<b>" + item.product.description + "</b>")
    ensures |c| == 2 ==> c[1] == Thumbnail(item.customImageData, decode).value
  {
    [Para("<b>" + item.product.description + "</b>")] +
    match Thumbnail(item.customImageData, decode)
    case None => []
    case Some(t) => [t]
  }

  /** An item's row: the article cell, `str(quantity)`, the córdoba and
      dollar prices, and the line total in the last column; one cell per
      column width. */
  function ItemRow(item: LineItem, decode: Decoder): (row: Row)
    ensures |row| == |ColWidths|
    ensures LastColumnAmount(row) == LineTotal(item)
  {
    [ ContentCell(ArticleContent(item, decode)),
      TextCell(Plain(Text.IntToString(item.quantity))),
      TextCell(Amount("C$ ", item.priceCordobas)),
      TextCell(Amount("$ ", item.priceDollars)),
      TextCell(Amount("C$ ", LineTotal(item))) ]
  }

  const HeaderRow: Row := [TextCell(Plain(Headers[0])), TextCell(Plain(Headers[1])), TextCell(Plain(Headers[2])),
                           TextCell(Plain(Headers[3])), TextCell(Plain(Headers[4]))]

  function ItemRows(items: seq<LineItem>, decode: Decoder): seq<Row> {
    seq(|items|, k requires 0 <= k < |items| => ItemRow(items[k], decode))
  }

  /** The table: the header row, then one row per item in item order. */
  function TableRows(items: seq<LineItem>, decode: Decoder): seq<Row> {
    [HeaderRow] + ItemRows(items, decode)
  }

  /** The table has one header row with the five column titles and then one
      row per item, in item order; every row has one cell per column. */
  lemma TableShape(items: seq<LineItem>, decode: Decoder)
    ensures var rows := TableRows(items, decode);
      && |rows| == |items| + 1
      && rows[0] == HeaderRow
      && (forall k :: 0 <= k < |Headers| ==> rows[0][k] == TextCell(Plain(Headers[k])))
      && (forall k :: 0 <= k < |items| ==> rows[k + 1] == ItemRow(items[k], decode))
      && (forall k :: 0 <= k < |rows| ==> |rows[k]| == |ColWidths|)
  {
    var rows := TableRows(items, decode);
    assert |HeaderRow| == |ColWidths|;
    forall k | 0 <= k < |rows| ensures |rows[k]| == |ColWidths| {
      if k > 0 { assert rows[k] == ItemRow(items[k - 1], decode); }
    }
  }

  /** An item's row shows its description in bold, followed by its image
      exactly when it has one that decodes; its quantity as `str` prints it;
      and, in the last column, the same line total the subtotal adds up. */
  lemma ItemRowCells(item: LineItem, decode: Decoder)
    ensures var row := ItemRow(item, decode);
      && row[0].ContentCell?
      && row[0].content[0] == Para("<b>" + item.product.description + "</b>")
      && |row[0].content| == (if Thumbnail(item.customImageData, decode).Some? then 2 else 1)
      && (|row[0].content| == 2 ==> row[0].content[1] == Thumbnail(item.customImageData, decode).value)
      && row[1] == TextCell(Plain(Text.IntToString(item.quantity)))
      && LastColumnAmount(row) == LineTotal(item)
  {
  }

  /** The amount in a row's last column. */
  function LastColumnAmount(row: Row): real {
    if |row| == 5 && row[4].TextCell? && row[4].caption.Amount? then row[4].caption.value else 0.0
  }

  function ColumnTotal(rows: seq<Row>): real {
    if rows == [] then 0.0 else ColumnTotal(rows[..|rows| - 1]) + LastColumnAmount(rows[|rows| - 1])
  }

  /** The line totals printed in the table add up to the printed subtotal. */
  lemma {:induction false} LineTotalsAddUp(items: seq<LineItem>, decode: Decoder)
    ensures ColumnTotal(TableRows(items, decode)[1..]) == Subtotal(items)
    decreases |items|
  {
    var rows := TableRows(items, decode)[1..];
    assert rows == ItemRows(items, decode);
    if items != [] {
      var n := |items| - 1;
      assert rows[..n] == ItemRows(items[..n], decode);
      assert TableRows(items[..n], decode)[1..] == ItemRows(items[..n], decode);
      LineTotalsAddUp(items[..n], decode);
      assert rows[n] == ItemRow(items[n], decode);
    }
  }

  /** One pass of the table loop: the item's line total and its row. */
  method BuildRow(item: LineItem, decode: Decoder) returns (row: Row, sub: real)
    ensures row == ItemRow(item, decode)
    ensures sub == LineTotal(item) && LastColumnAmount(row) == sub
  {
    sub := item.priceCordobas * item.quantity as real;
    var content := [Para("<b>" + item.product.description + "</b>")];
    if Present(item.customImageData) {
      var info := decode(item.customImageData.value);
      if info.Decoded? && info.pixelHeight != 0 {
        var aspect := info.pixelWidth as real / info.pixelHeight as real;
        content := content + [Thumb(ThumbHeight * aspect, ThumbHeight)];
      }
    }
    assert content == ArticleContent(item, decode);
    row := [ ContentCell(content),
             TextCell(Plain(Text.IntToString(item.quantity))),
             TextCell(Amount("C$ ", item.priceCordobas)),
             TextCell(Amount("$ ", item.priceDollars)),
             TextCell(Amount("C$ ", sub)) ];
    assert sub == LineTotal(item);
  }

  /** Builds the table rows item by item and accumulates the subtotal. */
  method BuildTable(items: seq<LineItem>, decode: Decoder) returns (rows: seq<Row>, total: real)
    ensures rows == TableRows(items, decode)
    ensures total == Subtotal(items)
  {
    rows := [HeaderRow];
    total := 0.0;
    var i := 0;
    while i < |items|
      invariant 0 <= i <= |items|
      invariant |rows| == i + 1 && rows[0] == HeaderRow
      invariant forall k :: 0 <= k < i ==> rows[k + 1] == ItemRow(items[k], decode)
      invariant total == Subtotal(items[..i])
    {
      var row, sub := BuildRow(items[i], decode);
      total := total + sub;
      rows := rows + [row];
      assert items[..i + 1][..i] == items[..i];
      i := i + 1;
    }
    assert items[..i] == items;
    assert rows[1..] == ItemRows(items, decode);
    assert rows == [rows[0]] + rows[1..];
  }

  // --- Sections ---

  /** Title, invoice number and date on the left; the logo box on the right
      when the logo bytes are present and decode. */
  method DrawHeader(number: string, date: string, logo: Option<seq<byte>>, decode: Decoder)
    returns (cmds: seq<Command>)
    ensures DrawString(Margin, PageHeight - 50.0, Plain("Factura")) in cmds
    ensures DrawString(Margin + 80.0, PageHeight - 80.0, Plain(number)) in cmds
    ensures DrawString(Margin + 80.0, PageHeight - 95.0, Plain(date)) in cmds
    ensures HasImage(cmds) <==> LogoDrawn(logo, decode)
    ensures forall k :: 0 <= k < |cmds| && cmds[k].DrawImage? ==> var c := cmds[k];
      c.x + c.w == PageWidth - Margin && c.y + c.h == PageHeight - 20.0 && c.w == LogoWidth && c.h == LogoHeight
    ensures forall k :: 0 <= k < |cmds| ==> cmds[k].DrawString? || cmds[k].DrawImage?
  {
    cmds := [ DrawString(Margin, PageHeight - 50.0, Plain("Factura")),
              DrawString(Margin, PageHeight - 80.0, Plain("Factura No #")),
              DrawString(Margin, PageHeight - 95.0, Plain("Fecha:")),
              DrawString(Margin + 80.0, PageHeight - 80.0, Plain(number)),
              DrawString(Margin + 80.0, PageHeight - 95.0, Plain(date)) ];
    if Present(logo) {
      if decode(logo.value).Decoded? {
        var logoX := PageWidth - Margin - LogoWidth;
        cmds := cmds + [DrawImage(logoX, PageHeight - 100.0, LogoWidth, LogoHeight)];
        assert cmds[5].DrawImage?;
      }
    }
  }

  predicate InBox(x: real, y: real, boxX: real, boxY: real, boxW: real, boxH: real) {
    boxX <= x <= boxX + boxW && boxY <= y <= boxY + boxH
  }

  /** The left block: the shop's identity, one line under the other; every
      line starts inside the block. */
  method DrawStoreBlock() returns (cmds: seq<Command>)
    ensures |cmds| > 0 && cmds[0] == Rect(Margin, BlocksBottom, HalfWidth, BlockHeight)
    ensures DrawString(Margin + Padding, BlocksTop - 40.0, Plain(StoreConstants.StoreName)) in cmds
    ensures forall k :: 0 <= k < |StoreConstants.StoreAddress| ==>
      DrawString(Margin + Padding, BlocksTop - 55.0 - 12.0 * k as real, Plain(StoreConstants.StoreAddress[k])) in cmds
    ensures DrawString(Margin + Padding, BlocksTop - 91.0, Plain("Correo: " + StoreConstants.StoreEmail)) in cmds
    ensures DrawString(Margin + Padding, BlocksTop - 103.0, Plain("Telefono: " + StoreConstants.StorePhone)) in cmds
    ensures forall k :: 0 <= k < |cmds| && cmds[k].DrawString? ==> InBox(cmds[k].x, cmds[k].y, Margin, BlocksBottom, HalfWidth, BlockHeight)
    ensures forall k :: 0 <= k < |cmds| ==> cmds[k].Rect? || cmds[k].DrawString?
  {
    cmds := [Rect(Margin, BlocksTop - BlockHeight, HalfWidth, BlockHeight)];
    var x := Margin + Padding;
    var y := BlocksTop - 20.0;
    cmds := cmds + [DrawString(x, y, Plain("Facturado Por:"))];
    y := y - 20.0;
    cmds := cmds + [DrawString(x, y, Plain(StoreConstants.StoreName))];
    y := y - 15.0;
    var i := 0;
    while i < |StoreConstants.StoreAddress|
      invariant 0 <= i <= |StoreConstants.StoreAddress|
      invariant y == BlocksTop - 55.0 - 12.0 * i as real
      invariant |cmds| > 0 && cmds[0] == Rect(Margin, BlocksBottom, HalfWidth, BlockHeight)
      invariant DrawString(x, BlocksTop - 40.0, Plain(StoreConstants.StoreName)) in cmds
      invariant forall k :: 0 <= k < i ==>
        DrawString(x, BlocksTop - 55.0 - 12.0 * k as real, Plain(StoreConstants.StoreAddress[k])) in cmds
      invariant forall k :: 0 <= k < |cmds| && cmds[k].DrawString? ==> InBox(cmds[k].x, cmds[k].y, Margin, BlocksBottom, HalfWidth, BlockHeight)
      invariant forall k :: 0 <= k < |cmds| ==> cmds[k].Rect? || cmds[k].DrawString?
    {
      cmds := cmds + [DrawString(x, y, Plain(StoreConstants.StoreAddress[i]))];
      y := y - 12.0;
      i := i + 1;
    }
    cmds := cmds + [DrawString(x, y, Plain("Correo: " + StoreConstants.StoreEmail))];
    y := y - 12.0;
    cmds := cmds + [DrawString(x, y, Plain("Telefono: " + StoreConstants.StorePhone))];
  }

  /** The right block: the client's name in upper case, the wrapped address,
      the phone and, only for a non-empty transport provider, the tag that
      names it, centred in a box inside the block. */
  method DrawClientBlock(client: ClientData, addressHeight: real) returns (cmds: seq<Command>)
    ensures |cmds| == (if ShowsTransport(client) then 8 else 5)
    ensures cmds[0] == Rect(RightBlockX, BlocksBottom, HalfWidth, BlockHeight)
    ensures cmds[1] == DrawString(RightBlockX + Padding, BlocksTop - 20.0, Plain(ClientTitle))
    ensures cmds[2] == DrawString(RightBlockX + Padding, BlocksTop - 40.0,
      Plain(Text.Upper(Get(client, "fullName", DefaultClientName))))
    ensures cmds[3] == DrawParagraph(RightBlockX + Padding, BlocksTop - 53.0 - addressHeight,
      AddressPrefix + Get(client, "address", ""), addressHeight)
    ensures cmds[4] == DrawString(RightBlockX + Padding, BlocksTop - 63.0 - addressHeight, Plain(Get(client, "phone", "")))
    ensures ShowsTransport(client) ==> var tag := cmds[6];
      && cmds[5] == DrawString(RightBlockX + Padding, BlocksTop - 83.0 - addressHeight, Plain(TransportCaption))
      && tag.RoundRect? && RightBlockX <= tag.x && tag.x + tag.w <= RightBlockX + HalfWidth
      && tag.y == BlocksTop - 85.0 - addressHeight
      && cmds[7] == DrawCentredString(tag.x + tag.w / 2.0, tag.y + 3.0, Plain(Get(client, "transportProvider", "")))
    ensures HasTag(cmds) <==> ShowsTransport(client)
    ensures forall k :: 0 <= k < |cmds| ==> !cmds[k].DrawImage?
  {
    var name := Text.Upper(Get(client, "fullName", DefaultClientName));
    var addr := Get(client, "address", "");
    var phoneNo := Get(client, "phone", "");
    var transport := Get(client, "transportProvider", "");
    var x := RightBlockX + Padding;
    var y := BlocksTop - 20.0;
    var title := DrawString(x, y, Plain(ClientTitle));
    y := y - 20.0;
    var nm := DrawString(x, y, Plain(name));
    y := y - 15.0;
    var address := DrawParagraph(x, y - addressHeight + 2.0, AddressPrefix + addr, addressHeight);
    y := y - (addressHeight + 8.0);
    var phone := DrawString(x, y, Plain(phoneNo));
    y := y - 20.0;
    cmds := [Rect(RightBlockX, BlocksTop - BlockHeight, HalfWidth, BlockHeight), title, nm, address, phone];
    if transport != "" {
      var tag := RoundRect(x + 115.0, y - 2.0, 80.0, 13.0, 3.0);
      cmds := cmds + [DrawString(x, y, Plain(TransportCaption)), tag,
                      DrawCentredString(x + 155.0, y + 1.0, Plain(transport))];
      assert cmds[6].RoundRect?;
    }
  }

  /** Without a name the block shows the default in capitals. */
  lemma DefaultNameUpper()
    ensures Text.Upper(DefaultClientName) == "CLIENTE GENERAL"
  {
  }

  /** The note box, only for a non-empty note: at the left margin, as wide as a
      block, hanging from `top`, at least 60 points tall and tall enough for
      the text, which has each line break turned into `<br/>`. */
  method DrawNote(note: string, noteHeight: real, top: real) returns (cmds: seq<Command>)
    ensures cmds == [] <==> note == ""
    ensures note != "" ==> |cmds| == 3 && cmds[0].Rect? && cmds[2].DrawParagraph?
    ensures note != "" ==> var box := cmds[0];
      && box.x == Margin && box.w == HalfWidth && box.y + box.h == top
      && box.h >= NoteMinHeight && box.h >= noteHeight + 25.0
      && (box.h == NoteMinHeight || box.h == noteHeight + 25.0)
    ensures note != "" ==> var box, text := cmds[0], cmds[2];
      && text.markup == Text.ReplaceAll(note, "\n", "<br/>")
      && '\n' !in text.markup
      && text.x == Margin + Padding && box.y <= text.y && text.y + text.h <= box.y + box.h
    ensures forall k :: 0 <= k < |cmds| ==> TopEdge(cmds[k]) <= top
    ensures forall k :: 0 <= k < |cmds| ==> cmds[k].Rect? || cmds[k].DrawString? || cmds[k].DrawParagraph?
  {
    cmds := [];
    if note != "" {
      var content := Text.ReplaceAll(note, "\n", "<br/>");
      Text.ReplaceCharRemoves(note, '\n', "<br/>");
      var boxHeight := noteHeight + 25.0;
      if boxHeight < NoteMinHeight { boxHeight := NoteMinHeight; }
      var boxY := top - boxHeight;
      cmds := [ Rect(Margin, boxY, HalfWidth, boxHeight),
                DrawString(Margin + Padding, boxY + boxHeight - 12.0, Plain("Nota")),
                DrawParagraph(Margin + Padding, boxY + 8.0, content, noteHeight) ];
    }
  }

  /** The totals column, right-aligned at the right margin and stepping down
      from `top`: subtotal, shipping, discount, a rule, then the grand total. */
  method DrawTotals(subtotal: real, shipping: real, discount: real, grandTotal: real, top: real)
    returns (cmds: seq<Command>)
    ensures DrawRightString(ValueX, top - 10.0, Amount("C$ ", subtotal)) in cmds
    ensures DrawRightString(ValueX, top - 28.0, Amount("C$ ", shipping)) in cmds
    ensures DrawRightString(ValueX, top - 46.0, Amount("C$ ", discount)) in cmds
    ensures DrawRightString(ValueX, top - 71.0, Amount("C$ ", grandTotal)) in cmds
    ensures DrawRightString(LabelX, top - 10.0, Plain("Monto")) in cmds
    ensures DrawRightString(LabelX, top - 28.0, Plain("Delivery")) in cmds
    ensures DrawRightString(LabelX, top - 46.0, Plain("Descuentos")) in cmds
    ensures DrawRightString(LabelX, top - 71.0, Plain("Total (C$)")) in cmds
    ensures forall k :: 0 <= k < |cmds| && cmds[k].DrawRightString? ==> cmds[k].x == ValueX || cmds[k].x == LabelX
    ensures forall k :: 0 <= k < |cmds| && cmds[k].DrawRightString? && cmds[k].caption.Amount? ==> cmds[k].x == ValueX
    ensures forall k :: 0 <= k < |cmds| && cmds[k].DrawRightString? && cmds[k].caption.Plain? ==> cmds[k].x == LabelX
    ensures forall k :: 0 <= k < |cmds| ==> TopEdge(cmds[k]) < top
    ensures forall k :: 0 <= k < |cmds| ==> cmds[k].DrawRightString? || cmds[k].Line?
  {
    var xVal := PageWidth - Margin;
    var xLbl := PageWidth - Margin - 100.0;
    var y := top - 10.0;
    cmds := [DrawRightString(xLbl, y, Plain("Monto")), DrawRightString(xVal, y, Amount("C$ ", subtotal))];
    y := y - 18.0;
    cmds := cmds + [DrawRightString(xLbl, y, Plain("Delivery")), DrawRightString(xVal, y, Amount("C$ ", shipping))];
    y := y - 18.0;
    cmds := cmds + [DrawRightString(xLbl, y, Plain("Descuentos")), DrawRightString(xVal, y, Amount("C$ ", discount))];
    y := y - 25.0;
    cmds := cmds + [ Line(xLbl - 20.0, y + 15.0, xVal, y + 15.0),
                     DrawRightString(xLbl, y, Plain("Total (C$)")),
                     DrawRightString(xVal, y, Amount("C$ ", grandTotal)) ];
  }

  lemma HasImageConcat(a: seq<Command>, b: seq<Command>)
    ensures HasImage(a + b) <==> HasImage(a) || HasImage(b)
  {
    if HasImage(a + b) {
      var k :| 0 <= k < |a + b| && (a + b)[k].DrawImage?;
      if k >= |a| { assert b[k - |a|].DrawImage?; }
    }
    if HasImage(a) { var k :| 0 <= k < |a| && a[k].DrawImage?; assert (a + b)[k] == a[k]; }
    if HasImage(b) { var k :| 0 <= k < |b| && b[k].DrawImage?; assert (a + b)[|a| + k] == b[k]; }
  }

  lemma HasTagConcat(a: seq<Command>, b: seq<Command>)
    ensures HasTag(a + b) <==> HasTag(a) || HasTag(b)
  {
    if HasTag(a + b) {
      var k :| 0 <= k < |a + b| && (a + b)[k].RoundRect?;
      if k >= |a| { assert b[k - |a|].RoundRect?; }
    }
    if HasTag(a) { var k :| 0 <= k < |a| && a[k].RoundRect?; assert (a + b)[k] == a[k]; }
    if HasTag(b) { var k :| 0 <= k < |b| && b[k].RoundRect?; assert (a + b)[|a| + k] == b[k]; }
  }

  /** The page has an image exactly when the header has one, and a tag
      exactly when the client block has one. */
  lemma PageMarks(page: Page, left: seq<Command>, right: seq<Command>)
    requires page.blocks == left + right && page.table.DrawTable?
    requires !HasTag(page.header) && !HasTag(left) && !HasTag(page.note) && !HasTag(page.totals)
    requires !HasImage(left) && !HasImage(right) && !HasImage(page.note) && !HasImage(page.totals)
    ensures HasImage(page.Commands()) <==> HasImage(page.header)
    ensures HasTag(page.Commands()) <==> HasTag(right)
  {
    var header, table, note, totals := page.header, page.table, page.note, page.totals;
    assert page.Commands() == header + (left + right) + [table] + note + totals;
    assert !HasTag([table]) && !HasImage([table]);
    HasImageConcat(left, right);
    HasImageConcat(header, left + right);
    HasImageConcat(header + (left + right), [table]);
    HasImageConcat(header + (left + right) + [table], note);
    HasImageConcat(header + (left + right) + [table] + note, totals);
    HasTagConcat(left, right);
    HasTagConcat(header, left + right);
    HasTagConcat(header + (left + right), [table]);
    HasTagConcat(header + (left + right) + [table], note);
    HasTagConcat(header + (left + right) + [table] + note, totals);
  }

  /** Renders one invoice. The table is the header row plus one row per item
      and sits 40 points under the blocks; the subtotal is recomputed from the
      items and the grand total is subtotal + shipping - discount, unclamped;
      the logo, the transport tag and the note box appear exactly when their
      data is there; notes and totals lie below the table. */
  method GeneratePdf(inv: InvoiceRecord, logo: Option<seq<byte>>, decode: Decoder, m: Measurements)
    returns (page: Page)
    ensures page.table == DrawTable(Margin, TableY(m), TableRows(inv.items, decode), ColWidths)
    ensures page.subtotal == Subtotal(inv.items)
    ensures page.grandTotal == GrandTotal(page.subtotal, inv.shippingCost, inv.discount)
    ensures DrawString(Margin + 80.0, PageHeight - 80.0, Plain(inv.number)) in page.header
    ensures DrawString(Margin + 80.0, PageHeight - 95.0, Plain(inv.date)) in page.header
    ensures HasImage(page.Commands()) <==> LogoDrawn(logo, decode)
    ensures Rect(Margin, BlocksBottom, HalfWidth, BlockHeight) in page.blocks
    ensures Rect(RightBlockX, BlocksBottom, HalfWidth, BlockHeight) in page.blocks
    ensures DrawString(RightBlockX + Padding, BlocksTop - 40.0,
      Plain(Text.Upper(Get(inv.client, "fullName", DefaultClientName)))) in page.blocks
    ensures DrawParagraph(RightBlockX + Padding, BlocksTop - 53.0 - m.addressHeight,
      AddressPrefix + Get(inv.client, "address", ""), m.addressHeight) in page.blocks
    ensures DrawString(RightBlockX + Padding, BlocksTop - 63.0 - m.addressHeight,
      Plain(Get(inv.client, "phone", ""))) in page.blocks
    ensures HasTag(page.Commands()) <==> ShowsTransport(inv.client)
    ensures page.note == [] <==> inv.note == ""
    ensures DrawRightString(ValueX, SectionTop(m) - 10.0, Amount("C$ ", page.subtotal)) in page.totals
    ensures DrawRightString(ValueX, SectionTop(m) - 28.0, Amount("C$ ", inv.shippingCost)) in page.totals
    ensures DrawRightString(ValueX, SectionTop(m) - 46.0, Amount("C$ ", inv.discount)) in page.totals
    ensures DrawRightString(ValueX, SectionTop(m) - 71.0, Amount("C$ ", page.grandTotal)) in page.totals
    ensures forall k :: 0 <= k < |page.note| ==> TopEdge(page.note[k]) < TableY(m)
    ensures forall k :: 0 <= k < |page.totals| ==> TopEdge(page.totals[k]) < TableY(m)
  {
    var header := DrawHeader(inv.number, inv.date, logo, decode);
    var left := DrawStoreBlock();
    var right := DrawClientBlock(inv.client, m.addressHeight);
    var rows, totalAmount := BuildTable(inv.items, decode);
    var yTable := BlocksTop - BlockHeight - TableGap - m.tableHeight;
    var table := DrawTable(Margin, yTable, rows, ColWidths);
    var ySection := yTable - SectionGap;
    var note := DrawNote(inv.note, m.noteHeight, ySection);
    var grandTotal := totalAmount + inv.shippingCost - inv.discount;
    var totals := DrawTotals(totalAmount, inv.shippingCost, inv.discount, grandTotal, ySection);
    page := Page(header, left + right, table, note, totals, totalAmount, grandTotal);
    assert right[0] == (left + right)[|left|];
    assert right[2] == (left + right)[|left| + 2];
    assert right[3] == (left + right)[|left| + 3];
    assert right[4] == (left + right)[|left| + 4];
    assert !HasTag(header) && !HasTag(left) && !HasTag(note) && !HasTag(totals);
    assert !HasImage(left) && !HasImage(right) && !HasImage(note) && !HasImage(totals);
    PageMarks(page, left, right);
  }
}

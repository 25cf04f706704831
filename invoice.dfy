/** The invoice record handed from the form to the renderer, and the money
    arithmetic both of them share. */
module Invoice {

  datatype Option<T> = None | Some(value: T)

  newtype byte = x: int | 0 <= x < 256

  /** A catalog entry. */
  datatype Product = Product(id: string, description: string)

  /** One invoice line; `customImageData` holds the raw bytes of an optional photo. */
  datatype LineItem = LineItem(
    product: Product,
    quantity: int,
    priceCordobas: real,
    priceDollars: real,
    customImageData: Option<seq<byte>>)

  /** The client record is a string dictionary: the form writes four keys,
      the AI result may bring any keys. */
  type ClientData = map<string, string>

  datatype InvoiceRecord = InvoiceRecord(
    number: string,
    date: string,
    client: ClientData,
    items: seq<LineItem>,
    shippingCost: real,
    discount: real,
    note: string)

  /** Python `d.get(key, default)`. */
  function Get(d: ClientData, key: string, default: string): string {
    if key in d then d[key] else default
  }

  /** The amount of one line: unit price times quantity. A line of at least
      one unit costs at least its unit price. */
  function LineTotal(item: LineItem): (r: real)
    ensures item.quantity == 0 ==> r == 0.0
    ensures item.quantity >= 1 && item.priceCordobas >= 0.0 ==> r >= item.priceCordobas
  {
    item.priceCordobas * item.quantity as real
  }

  /** The sum of the line totals, accumulated in item order as the table
      loop does. */
  function Subtotal(items: seq<LineItem>): real {
    if items == [] then 0.0 else Subtotal(items[..|items| - 1]) + LineTotal(items[|items| - 1])
  }

  /** Subtotal plus shipping minus discount. Nothing clamps it: it is
      negative exactly when the discount exceeds subtotal plus shipping. */
  function GrandTotal(subtotal: real, shipping: real, discount: real): (r: real)
    ensures r < 0.0 <==> discount > subtotal + shipping
    ensures r - subtotal == shipping - discount
  {
    subtotal + shipping - discount
  }

  lemma {:induction false} SubtotalAppend(a: seq<LineItem>, b: seq<LineItem>)
    ensures Subtotal(a + b) == Subtotal(a) + Subtotal(b)
    decreases |b|
  {
    if b == [] {
      assert a + b == a;
    } else {
      assert (a + b)[..|a + b| - 1] == a + b[..|b| - 1];
      SubtotalAppend(a, b[..|b| - 1]);
    }
  }

  /** Removing the line at index `i` lowers the subtotal by exactly that line's amount. */
  lemma SubtotalRemove(items: seq<LineItem>, i: nat)
    requires i < |items|
    ensures Subtotal(items[..i] + items[i + 1..]) == Subtotal(items) - LineTotal(items[i])
  {
    var a, x, b := items[..i], items[i], items[i + 1..];
    assert items == a + ([x] + b);
    SubtotalAppend(a, [x] + b);
    SubtotalAppend([x], b);
    SubtotalAppend(a, b);
    SubtotalSingle(x);
  }

  lemma SubtotalSingle(x: LineItem)
    ensures Subtotal([x]) == LineTotal(x)
  {
    assert [x][..0] == [];
  }

  /** Lines with positive price and quantity add up to a positive subtotal. */
  lemma {:induction false} SubtotalPositive(items: seq<LineItem>)
    requires items != []
    requires forall k :: 0 <= k < |items| ==> items[k].quantity >= 1 && items[k].priceCordobas > 0.0
    ensures Subtotal(items) > 0.0
  {
    var last := items[|items| - 1];
    assert LineTotal(last) >= last.priceCordobas * 1.0;
    if |items| > 1 { SubtotalPositive(items[..|items| - 1]); }
  }

  /** One band bought twice at C$ 1000 with C$ 50 shipping comes to C$ 2050. */
  lemma ExampleInvoiceTotals()
    ensures var items := [LineItem(Product("1001", "Xiaomi Mi Band 8"), 2, 1000.0, 27.32, None)];
      Subtotal(items) == 2000.0 && GrandTotal(Subtotal(items), 50.0, 0.0) == 2050.0
  {
    var items := [LineItem(Product("1001", "Xiaomi Mi Band 8"), 2, 1000.0, 27.32, None)];
    assert items[..0] == [];
  }
}

/** The orders endpoint (app/api/orders/route.ts): the row an order becomes,
    the flat records the list endpoint makes of the stored rows, and what
    POST answers for each state of the Sheets gateway. */
module OrdersRoute {
  import opened Types
  import opened JsText
  import HomePage

  /** One stored order as the list endpoint returns it: eight strings. */
  datatype OrderRecord = OrderRecord(
    orderId: string,
    date: string,
    customerName: string,
    email: string,
    phone: string,
    address: string,
    items: string,
    total: string)

  // --------------------------------------------------------- list endpoint

  /** The `map` step of GET: each of the eight cells, or "" when missing. */
  function DecodeOrderRow(row: Row): (record: OrderRecord) {
    OrderRecord(Cell(row, 0), Cell(row, 1), Cell(row, 2), Cell(row, 3),
                Cell(row, 4), Cell(row, 5), Cell(row, 6), Cell(row, 7))
  }

  /** GET's decode: every row, in order, none filtered out. */
  function DecodeOrders(rows: seq<Row>): (orders: seq<OrderRecord>)
    ensures |orders| == |rows|
    ensures forall i :: 0 <= i < |rows| ==> orders[i] == DecodeOrderRow(rows[i])
  {
    if rows == [] then [] else [DecodeOrderRow(rows[0])] + DecodeOrders(rows[1..])
  }

  /** A short row decodes with "" for each missing cell. */
  lemma ShortOrderRowDefaults(row: Row)
    requires |row| < 8
    ensures var r := DecodeOrderRow(row);
      && (|row| <= 0 ==> r.orderId == "")
      && (|row| <= 1 ==> r.date == "")
      && (|row| <= 2 ==> r.customerName == "")
      && (|row| <= 3 ==> r.email == "")
      && (|row| <= 4 ==> r.phone == "")
      && (|row| <= 5 ==> r.address == "")
      && (|row| <= 6 ==> r.items == "")
      && r.total == ""
  {
  }

  /** The total of a listed order is the stored cell's text, not a number. */
  lemma ListedTotalIsStoredText(rows: seq<Row>, i: nat)
    requires i < |rows| && |rows[i]| >= 8
    ensures DecodeOrders(rows)[i].total == rows[i][7]
  {
  }

  datatype ListResponse = OrdersListed(orders: seq<OrderRecord>) | ListFailed

  /** GET: the decoded rows when the sheet can be read, a 500 otherwise. */
  function ListOrders(reachable: bool, rows: seq<Row>): (response: ListResponse)
    ensures reachable ==> response == OrdersListed(DecodeOrders(rows))
    ensures !reachable ==> response == ListFailed
  {
    if reachable then OrdersListed(DecodeOrders(rows)) else ListFailed
  }

  // -------------------------------------------------------------- encoding

  /** One cart line in the items cell:
      `${name} (${size}) x${quantity} - $${(price * quantity).toFixed(2)}`. */
  function LineSegment(item: CartItem): (segment: string) {
    item.product.name + " (" + item.selectedSize + ") x" + IntToString(item.quantity)
      + " - $" + FormatCents(LineTotal(item))
  }

  function Segments(items: seq<CartItem>): (segments: seq<string>)
    ensures |segments| == |items|
  {
    seq(|items|, i requires 0 <= i < |items| => LineSegment(items[i]))
  }

  /** The items cell: the segments joined with "; ". */
  function ItemsSummary(items: seq<CartItem>): (summary: string) {
    Join(Segments(items), "; ")
  }

  /** The total cell: `$${orderData.total.toFixed(2)}`. */
  function TotalCell(total: int): (cell: string) {
    "$" + FormatCents(total)
  }

  /** The eight cells POST appends; `localDate` is the client date as
      `toLocaleString()` renders it. */
  function EncodeOrderRow(order: OrderData, localDate: string): (row: Row)
    ensures |row| == 8
  {
    [order.orderId, localDate, order.customerName, order.email, order.phone, order.address,
     ItemsSummary(order.items), TotalCell(order.total)]
  }

  /** In the stored table, the list endpoint reads back every field POST
      wrote, in order. */
  lemma OrderRowRoundTrip(order: OrderData, localDate: string)
    ensures |EncodeOrderRow(order, localDate)| == 8
    ensures DecodeOrderRow(EncodeOrderRow(order, localDate))
         == OrderRecord(order.orderId, localDate, order.customerName, order.email, order.phone,
                        order.address, ItemsSummary(order.items), TotalCell(order.total))
  {
  }

  /** The total cell is the client's total to two decimals: it reads back as
      that amount. */
  lemma TotalCellReadsBack(total: int)
    ensures var cell := TotalCell(total);
      |cell| > 1 && cell[0] == '$' && ParseCents(cell[1..]) == Some(total)
  {
    CentsRoundTrip(total);
    assert TotalCell(total)[1..] == FormatCents(total);
  }

  /** The total cell depends on `order.total` alone: replacing the items
      changes the items cell and never the total cell. */
  lemma TotalCellIgnoresItems(order: OrderData, items: seq<CartItem>, localDate: string)
    ensures EncodeOrderRow(order.(items := items), localDate)[7] == EncodeOrderRow(order, localDate)[7]
    ensures EncodeOrderRow(order.(items := items), localDate)[6] == ItemsSummary(items)
  {
  }

  /** Nothing recomputes the total: an order claiming 5.00 for an empty
      cart is written with a total cell of "$5.00". */
  lemma TotalNotRecomputed(order: OrderData, localDate: string)
    requires order.items == [] && order.total == 500
    ensures HomePage.TotalPrice(order.items) == 0
    ensures EncodeOrderRow(order, localDate)[7] == "$5.00"
  {
    assert NatToString(5) == "5";
  }

  /** A segment ends with the line's price times quantity to two decimals. */
  lemma SegmentEndsWithLineTotal(item: CartItem)
    ensures var s, amount := LineSegment(item), FormatCents(LineTotal(item));
      && |amount| < |s| && s[|s| - |amount|..] == amount && s[|s| - |amount| - 1] == '$'
      && ParseCents(amount) == Some(LineTotal(item))
  {
    CentsRoundTrip(LineTotal(item));
    var s, amount := LineSegment(item), FormatCents(LineTotal(item));
    var front := item.product.name + " (" + item.selectedSize + ") x" + IntToString(item.quantity) + " - $";
    assert s == front + amount;
  }

  /** Appending a line appends "; " and its segment. */
  lemma SummaryAppend(items: seq<CartItem>, item: CartItem)
    requires items != []
    ensures ItemsSummary(items + [item]) == ItemsSummary(items) + "; " + LineSegment(item)
  {
    assert Segments(items + [item]) == Segments(items) + [LineSegment(item)];
    JoinAppend(Segments(items), LineSegment(item), "; ");
  }

  lemma NoSemicolonInDigits(s: string)
    requires AllDigits(s)
    ensures ';' !in s
  {
  }

  lemma NoSemicolonInAmount(c: int)
    ensures ';' !in FormatCents(c) && ';' !in IntToString(c)
  {
    var n := if c < 0 then -c else c;
    NoSemicolonInDigits(NatToString(n / 100));
    NoSemicolonInDigits(NatToString(n));
    var f := [DigitChar(n % 100 / 10), DigitChar(n % 10)];
    NoSemicolonInDigits(f);
    assert FormatUnsignedCents(n) == NatToString(n / 100) + "." + f;
  }

  lemma NoSemicolonInSegment(item: CartItem)
    requires ';' !in item.product.name && ';' !in item.selectedSize
    ensures ';' !in LineSegment(item)
  {
    NoSemicolonInAmount(item.quantity);
    NoSemicolonInAmount(LineTotal(item));
  }

  /** The items cell has one segment per cart line, in cart order: split on
      ';' it gives back each line's segment (after the first, behind the
      space of the "; " separator), provided no name or size holds a ';'. */
  lemma SummaryOneSegmentPerLine(items: seq<CartItem>)
    requires items != []
    requires forall i :: 0 <= i < |items| ==> ';' !in items[i].product.name && ';' !in items[i].selectedSize
    ensures var parts := Split(ItemsSummary(items), ';');
      && |parts| == |items|
      && parts[0] == LineSegment(items[0])
      && forall i :: 1 <= i < |items| ==> parts[i] == " " + LineSegment(items[i])
  {
    var segments := Segments(items);
    forall i | 0 <= i < |segments| ensures ';' !in segments[i] {
      NoSemicolonInSegment(items[i]);
    }
    assert "" + ItemsSummary(items) == ItemsSummary(items);
    SplitJoinSpaced("", segments, ';');
  }

  // ------------------------------------------------------------------ POST

  /** The state of the Sheets gateway when POST runs. */
  datatype Gateway =
    | Unconfigured  // credentials or spreadsheet id not set
    | Available     // configured, and the append succeeds
    | Failing       // configured, but parsing the credentials or the append throws

  datatype PostResponse =
    | OrderReceived(orderId: string)   // success, "Sheets not configured"
    | OrderSubmitted(orderId: string)  // success, row appended
    | SubmitFailed                     // status 500

  datatype PostOutcome = PostOutcome(response: PostResponse, appended: Option<Row>)

  /** POST: without credentials the order is acknowledged and not stored;
      with a working gateway its row is appended; a thrown error is a 500. */
  function PostOrder(order: OrderData, gateway: Gateway, localDate: string): (outcome: PostOutcome)
    ensures outcome.appended.Some? <==> gateway == Available
    ensures outcome.appended.Some? ==> outcome.appended.value == EncodeOrderRow(order, localDate)
    ensures outcome.response.SubmitFailed? <==> gateway == Failing
    ensures !outcome.response.SubmitFailed? ==> outcome.response.orderId == order.orderId
  {
    match gateway
    case Unconfigured => PostOutcome(OrderReceived(order.orderId), None)
    case Available => PostOutcome(OrderSubmitted(order.orderId), Some(EncodeOrderRow(order, localDate)))
    case Failing => PostOutcome(SubmitFailed, None)
  }
}

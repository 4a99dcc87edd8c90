/** The products endpoint (app/api/products/route.ts) over an in-memory
    Products sheet: a sequence of rows of text cells whose row 0 is the
    header. The Sheets client calls become reads and writes of that table. */
module ProductsRoute {
  import opened Types
  import opened JsText

  // ------------------------------------------------------------- decoding

  /** The active filter: the seventh cell is exactly "TRUE" or "true". */
  predicate IsActive(row: Row) {
    |row| > 6 && (row[6] == "TRUE" || row[6] == "true")
  }

  /** `parseFloat(row[2]) || 0`, in cents. */
  function DecodePrice(row: Row): (price: int) {
    match ParseCents(Cell(row, 2))
    case Some(c) => c
    case None => 0
  }

  /** `.map((s) => s.trim())` over the pieces of the split. */
  function TrimAll(parts: seq<string>): (r: seq<string>) {
    seq(|parts|, i requires 0 <= i < |parts| => Trim(parts[i]))
  }

  /** `row[5] ? row[5].split(",").map((s) => s.trim()) : []`. */
  function DecodeSizes(cell: string): (sizes: seq<string>)
    ensures sizes == [] <==> cell == ""
  {
    if cell == "" then [] else TrimAll(Split(cell, ','))
  }

  /** The `map` step of GET: one row to a product, with a default for every
      missing cell. */
  function DecodeProduct(row: Row): (product: Product) {
    Product(Cell(row, 0), Cell(row, 1), DecodePrice(row), Cell(row, 3), Cell(row, 4),
            DecodeSizes(Cell(row, 5)))
  }

  /** The GET pipeline: keep the active rows, then decode each. */
  function DecodeCatalog(rows: seq<Row>): (products: seq<Product>)
    ensures |products| <= |rows|
  {
    if rows == [] then []
    else (if IsActive(rows[0]) then [DecodeProduct(rows[0])] else []) + DecodeCatalog(rows[1..])
  }

  // ------------------------------------------------------------- encoding

  /** `product.sizes.join(", ")`. */
  function EncodeSizes(sizes: seq<string>): (cell: string) {
    Join(sizes, ", ")
  }

  /** The seven cells POST and PUT write: id, name, price, description,
      image, sizes and the active flag, always "TRUE". */
  function EncodeProductRow(id: string, product: Product): (row: Row)
    ensures |row| == 7 && row[0] == id && IsActive(row)
  {
    [id, product.name, FormatCents(product.price), product.description, product.image,
     EncodeSizes(product.sizes), "TRUE"]
  }

  /** The new-id rule of POST, from the number of rows the id column read
      returned (the header included). */
  function NewId(idColumnLength: nat): (id: string)
    ensures idColumnLength <= 1 ==> id == "1"
    ensures idColumnLength > 1 ==> AllDigits(id) && DigitsValue(id) == idColumnLength
    ensures idColumnLength > 1 ==> id == NatToString(idColumnLength)
  {
    if idColumnLength > 1 then
      NatToStringRoundTrip(idColumnLength);
      NatToString(idColumnLength)
    else
      "1"
  }

  // --------------------------------------------------- the id column, writes

  /** What the `Products!A:A` read shows of a row: its first cell, absent
      when the row has none or it is empty. */
  function IdCell(row: Row): (cell: Option<string>) {
    if |row| > 0 && row[0] != "" then Some(row[0]) else None
  }

  /** How many rows the `Products!A:A` read returns: up to the last row that
      has a first cell. */
  function IdColumnLength(rows: seq<Row>): (n: nat)
    ensures n <= |rows|
    ensures n > 0 ==> IdCell(rows[n - 1]).Some?
    ensures forall i :: n <= i < |rows| ==> IdCell(rows[i]).None?
  {
    if rows == [] then 0
    else if IdCell(rows[|rows| - 1]).Some? then |rows|
    else IdColumnLength(rows[..|rows| - 1])
  }

  /** The first row whose id cell is `id`, or `|rows|` when there is none. */
  function IdRowIndex(rows: seq<Row>, id: string): (k: nat)
    ensures k <= |rows|
    ensures k < |rows| ==> IdCell(rows[k]) == Some(id)
    ensures forall i :: 0 <= i < k ==> IdCell(rows[i]) != Some(id)
  {
    if rows == [] then 0
    else if IdCell(rows[0]) == Some(id) then 0
    else 1 + IdRowIndex(rows[1..], id)
  }

  /** `rows.findIndex((row) => row[0] === id)`: the first match, or -1. */
  method FindRow(rows: seq<Row>, id: string) returns (index: int)
    ensures -1 <= index < |rows|
    ensures index == -1 <==> forall i :: 0 <= i < |rows| ==> IdCell(rows[i]) != Some(id)
    ensures index >= 0 ==> IdCell(rows[index]) == Some(id)
    ensures forall i :: 0 <= i < index ==> IdCell(rows[i]) != Some(id)
  {
    var i := 0;
    while i < |rows|
      invariant 0 <= i <= |rows|
      invariant forall j :: 0 <= j < i ==> IdCell(rows[j]) != Some(id)
    {
      if IdCell(rows[i]) == Some(id) {
        return i;
      }
      i := i + 1;
    }
    return -1;
  }

  /** A write of `cells` over a row starting at column A: the written cells
      replace the first ones and any cells after them stay. */
  function OverwriteFront(row: Row, cells: Row): (r: Row)
    ensures |r| == if |row| <= |cells| then |cells| else |row|
    ensures forall i :: 0 <= i < |cells| ==> r[i] == cells[i]
    ensures forall i :: |cells| <= i < |row| ==> r[i] == row[i]
  {
    if |row| <= |cells| then cells else cells + row[|cells|..]
  }

  /** A write of one cell: a row shorter than the column is padded with
      empty cells. */
  function WriteCell(row: Row, col: nat, value: string): (r: Row)
    ensures |r| == if col < |row| then |row| else col + 1
    ensures r[col] == value
    ensures forall i :: 0 <= i < |r| && i != col ==> Cell(r, i) == Cell(row, i)
  {
    if col < |row| then row[col := value] else row + seq(col - |row|, _ => "") + [value]
  }

  /** Column G, which holds the active flag. */
  const ActiveColumn: nat := 6

  // --------------------------------------------------------------- lemmas

  lemma {:induction false} CatalogAppend(a: seq<Row>, b: seq<Row>)
    ensures DecodeCatalog(a + b) == DecodeCatalog(a) + DecodeCatalog(b)
  {
    if a == [] {
      assert a + b == b;
    } else {
      var head := if IsActive(a[0]) then [DecodeProduct(a[0])] else [];
      assert (a + b)[0] == a[0];
      assert (a + b)[1..] == a[1..] + b;
      assert DecodeCatalog(a + b) == head + DecodeCatalog(a[1..] + b);
      CatalogAppend(a[1..], b);
      assert DecodeCatalog(a) == head + DecodeCatalog(a[1..]);
    }
  }

  /** The catalog holds exactly the decodings of the active rows. */
  lemma {:induction false} CatalogMembership(rows: seq<Row>, p: Product)
    ensures p in DecodeCatalog(rows)
        <==> exists i :: 0 <= i < |rows| && IsActive(rows[i]) && DecodeProduct(rows[i]) == p
  {
    if rows != [] {
      CatalogMembership(rows[1..], p);
      if p in DecodeCatalog(rows[1..]) {
        var i :| 0 <= i < |rows| - 1 && IsActive(rows[1..][i]) && DecodeProduct(rows[1..][i]) == p;
        assert rows[1..][i] == rows[i + 1];
      }
      if exists i :: 0 <= i < |rows| && IsActive(rows[i]) && DecodeProduct(rows[i]) == p {
        var i :| 0 <= i < |rows| && IsActive(rows[i]) && DecodeProduct(rows[i]) == p;
        if i > 0 {
          assert rows[1..][i - 1] == rows[i];
        }
      }
    }
  }

  /** The catalog follows row order: replacing one row splices that row's
      contribution (its product when active, nothing otherwise) into place. */
  lemma CatalogReplaceRow(rows: seq<Row>, k: nat, row: Row)
    requires k < |rows|
    ensures DecodeCatalog(rows[k := row])
         == DecodeCatalog(rows[..k]) + DecodeCatalog([row]) + DecodeCatalog(rows[k + 1..])
  {
    var r := rows[k := row];
    assert r == rows[..k] + [row] + rows[k + 1..];
    CatalogAppend(rows[..k] + [row], rows[k + 1..]);
    CatalogAppend(rows[..k], [row]);
  }

  /** The filter is an exact match on "TRUE" or "true". */
  lemma ActiveFlagExamples(cells: seq<string>)
    requires |cells| == 6
    ensures IsActive(cells + ["TRUE"]) && IsActive(cells + ["true"])
    ensures !IsActive(cells + ["FALSE"]) && !IsActive(cells + ["True"]) && !IsActive(cells + [""])
    ensures !IsActive(cells)
  {
  }

  /** Decoding never fails on a short row: every missing cell decodes to
      its default, and the row is not active. */
  lemma ShortRowDefaults(row: Row)
    requires |row| < 7
    ensures var p := DecodeProduct(row);
      && (|row| <= 0 ==> p.id == "")
      && (|row| <= 1 ==> p.name == "")
      && (|row| <= 2 ==> p.price == 0)
      && (|row| <= 3 ==> p.description == "")
      && (|row| <= 4 ==> p.image == "")
      && (|row| <= 5 ==> p.sizes == [])
      && !IsActive(row)
  {
    if |row| <= 2 {
      assert Cell(row, 2) == "";
    }
  }

  /** A price cell that is not a number decodes to 0. */
  lemma UnreadablePriceIsZero(row: Row)
    requires ParseCents(Cell(row, 2)).None?
    ensures DecodeProduct(row).price == 0
  {
  }

  /** Labels that survive the sizes cell's join, split and trim. */
  predicate ValidSizes(sizes: seq<string>) {
    && sizes != [""]
    && forall i :: 0 <= i < |sizes| ==> ',' !in sizes[i] && IsTrimmed(sizes[i])
  }

  /** Trimming the pieces of a split `", "`-join gives back the labels. */
  lemma TrimSpacedParts(sizes: seq<string>, parts: seq<string>)
    requires |parts| == |sizes| >= 1
    requires forall i :: 0 <= i < |sizes| ==> IsTrimmed(sizes[i])
    requires parts[0] == sizes[0]
    requires forall i :: 1 <= i < |sizes| ==> parts[i] == " " + sizes[i]
    ensures TrimAll(parts) == sizes
  {
    forall i | 0 <= i < |sizes| ensures Trim(parts[i]) == sizes[i] {
      if i == 0 {
        TrimOfTrimmed(sizes[0]);
      } else {
        TrimDropsLeadingSpace(sizes[i]);
      }
    }
  }

  /** Joining with ", " and decoding gives back the size labels. */
  lemma SizesRoundTrip(sizes: seq<string>)
    requires ValidSizes(sizes)
    ensures DecodeSizes(EncodeSizes(sizes)) == sizes
  {
    if sizes != [] {
      var s := EncodeSizes(sizes);
      assert s != "" by {
        if |sizes| == 1 {
          assert s == sizes[0];
        } else {
          assert s == sizes[0] + ", " + Join(sizes[1..], ", ");
        }
      }
      assert "" + s == s;
      SplitJoinSpaced("", sizes, ',');
      TrimSpacedParts(sizes, Split(s, ','));
    }
  }

  /** A row written by POST or PUT has seven cells, is active, and decodes
      back to the product it was written from, under the id it was given. */
  lemma ProductRowRoundTrip(id: string, product: Product)
    requires ValidSizes(product.sizes)
    ensures |EncodeProductRow(id, product)| == 7
    ensures IsActive(EncodeProductRow(id, product))
    ensures DecodeProduct(EncodeProductRow(id, product)) == product.(id := id)
  {
    CentsRoundTrip(product.price);
    SizesRoundTrip(product.sizes);
  }

  /** The sample row of the store's sheet decodes as expected and is shown. */
  lemma SampleRowDecodes()
    ensures var row := ["1", "Classic White Tee", "29.99", "Premium cotton", "img.png", "S, M, L", "TRUE"];
      && IsActive(row)
      && DecodeProduct(row) == Product("1", "Classic White Tee", 2999, "Premium cotton", "img.png", ["S", "M", "L"])
  {
    var p := Product("1", "Classic White Tee", 2999, "Premium cotton", "img.png", ["S", "M", "L"]);
    var row := ["1", "Classic White Tee", "29.99", "Premium cotton", "img.png", "S, M, L", "TRUE"];
    assert EncodeProductRow("1", p) == row by {
      assert FormatCents(2999) == "29.99" by {
        assert NatToString(29) == "29";
      }
      assert Join(["S", "M", "L"], ", ") == "S, M, L" by {
        assert ["S", "M", "L"][1..] == ["M", "L"];
        assert ["M", "L"][1..] == ["L"];
      }
    }
    assert ValidSizes(["S", "M", "L"]);
    ProductRowRoundTrip("1", p);
  }

  /** After POST's append to a sheet with a header, the catalog gains the
      new product, with its new id, at the end. */
  lemma CreateAppendsToCatalog(rows: seq<Row>, id: string, product: Product)
    requires |rows| >= 1 && ValidSizes(product.sizes)
    ensures DecodeCatalog((rows + [EncodeProductRow(id, product)])[1..])
         == DecodeCatalog(rows[1..]) + [product.(id := id)]
  {
    var row := EncodeProductRow(id, product);
    var created := product.(id := id);
    assert DecodeCatalog([row]) == [created] by {
      ProductRowRoundTrip(id, product);
      assert [row][1..] == [];
    }
    assert DecodeCatalog(rows[1..] + [row]) == DecodeCatalog(rows[1..]) + DecodeCatalog([row]) by {
      CatalogAppend(rows[1..], [row]);
    }
    assert (rows + [row])[1..] == rows[1..] + [row];
  }

  /** A row whose first seven cells were overwritten decodes, and is
      active or not, as the seven written cells are. */
  lemma OverwriteDecodesAsWritten(row: Row, cells: Row)
    requires |cells| == 7
    ensures DecodeProduct(OverwriteFront(row, cells)) == DecodeProduct(cells)
    ensures IsActive(OverwriteFront(row, cells)) == IsActive(cells)
  {
    var r := OverwriteFront(row, cells);
    assert Cell(r, 0) == Cell(cells, 0) && Cell(r, 1) == Cell(cells, 1) && Cell(r, 2) == Cell(cells, 2);
    assert Cell(r, 3) == Cell(cells, 3) && Cell(r, 4) == Cell(cells, 4) && Cell(r, 5) == Cell(cells, 5);
  }

  /** PUT's write makes the row active whatever its flag was, and the
      catalog shows the updated product in that row's place. */
  lemma UpdateReplacesInCatalog(rows: seq<Row>, k: nat, product: Product)
    requires k < |rows| && ValidSizes(product.sizes)
    ensures var row := OverwriteFront(rows[k], EncodeProductRow(product.id, product));
      && IsActive(row)
      && DecodeCatalog(rows[k := row])
         == DecodeCatalog(rows[..k]) + [product] + DecodeCatalog(rows[k + 1..])
  {
    var cells := EncodeProductRow(product.id, product);
    var row := OverwriteFront(rows[k], cells);
    ProductRowRoundTrip(product.id, product);
    assert product.(id := product.id) == product;
    OverwriteDecodesAsWritten(rows[k], cells);
    CatalogReplaceRow(rows, k, row);
    assert DecodeCatalog([row]) == [product];
  }

  /** DELETE's write changes column G only, makes the row inactive, and the
      catalog loses exactly that row's product. */
  lemma SoftDeleteHidesRow(rows: seq<Row>, k: nat)
    requires k < |rows|
    ensures var row := WriteCell(rows[k], ActiveColumn, "FALSE");
      && !IsActive(row)
      && (forall i :: 0 <= i < |row| && i != ActiveColumn ==> Cell(row, i) == Cell(rows[k], i))
      && DecodeCatalog(rows[k := row]) == DecodeCatalog(rows[..k]) + DecodeCatalog(rows[k + 1..])
  {
    var row := WriteCell(rows[k], ActiveColumn, "FALSE");
    CatalogReplaceRow(rows, k, row);
  }

  // ------------------------------------------------------------- handlers

  /** What a handler answers. */
  datatype Response =
    | Listed(products: seq<Product>)  // GET: the sheet's active products
    | DefaultListed                   // GET on any error: the built-in catalog
    | Created(product: Product)       // POST: the product under its new id
    | Updated(product: Product)       // PUT
    | Deleted                         // DELETE
    | BadRequest                      // DELETE without an id: status 400
    | NotFound                        // PUT or DELETE of an unknown id: status 404
    | Failed                          // any thrown error: status 500

  function Status(response: Response): (status: int) {
    match response
    case BadRequest => 400
    case NotFound => 404
    case Failed => 500
    case _ => 200
  }

  /** The Products sheet as the handlers see it. */
  class ProductSheet {
    /** Every row of the sheet; row 0 is the header. */
    var rows: seq<Row>
    /** Whether the credentials are configured and the Sheets calls succeed. */
    const reachable: bool

    constructor (rows: seq<Row>, reachable: bool)
      ensures this.rows == rows && this.reachable == reachable
    {
      this.rows := rows;
      this.reachable := reachable;
    }

    /** What the `Products!A2:G` read returns: the rows after the header. */
    function DataRows(): (data: seq<Row>)
      reads this
    {
      if rows == [] then [] else rows[1..]
    }

    /** GET: the decoded active products, or the built-in catalog when the
        sheet cannot be read. */
    method Get() returns (response: Response)
      ensures reachable ==> response == Listed(DecodeCatalog(DataRows()))
      ensures !reachable ==> response == DefaultListed
    {
      if !reachable {
        return DefaultListed;
      }
      response := Listed(DecodeCatalog(DataRows()));
    }

    /** POST: append the product's row under a new id. */
    method Post(product: Product) returns (response: Response)
      modifies this`rows
      ensures !reachable ==> response == Failed && rows == old(rows)
      ensures Status(response) == if reachable then 200 else 500
      ensures reachable ==>
        var id := NewId(IdColumnLength(old(rows)));
        rows == old(rows) + [EncodeProductRow(id, product)] && response == Created(product.(id := id))
    {
      if !reachable {
        return Failed;
      }
      var id := NewId(IdColumnLength(rows));
      rows := rows + [EncodeProductRow(id, product)];
      response := Created(product.(id := id));
    }

    /** PUT: rewrite columns A to G of the first row with the product's id. */
    method Put(product: Product) returns (response: Response)
      modifies this`rows
      ensures !reachable ==> response == Failed && rows == old(rows)
      ensures reachable && IdRowIndex(old(rows), product.id) == |old(rows)| ==>
        response == NotFound && rows == old(rows)
      ensures Status(response) ==
        if !reachable then 500 else if IdRowIndex(old(rows), product.id) == |old(rows)| then 404 else 200
      ensures reachable && IdRowIndex(old(rows), product.id) < |old(rows)| ==>
        var k := IdRowIndex(old(rows), product.id);
        && rows == old(rows)[k := OverwriteFront(old(rows)[k], EncodeProductRow(product.id, product))]
        && response == Updated(product)
    {
      if !reachable {
        return Failed;
      }
      var index := FindRow(rows, product.id);
      if index == -1 {
        return NotFound;
      }
      assert index == IdRowIndex(rows, product.id);
      rows := rows[index := OverwriteFront(rows[index], EncodeProductRow(product.id, product))];
      response := Updated(product);
    }

    /** DELETE: check the id parameter, then mark the first row with that id
        inactive. */
    method Delete(id: Option<string>) returns (response: Response)
      modifies this`rows
      ensures (id.None? || id.value == "") ==> response == BadRequest && rows == old(rows)
      ensures Status(response) ==
        if id.None? || id.value == "" then 400
        else if !reachable then 500
        else if IdRowIndex(old(rows), id.value) == |old(rows)| then 404
        else 200
      ensures id.Some? && id.value != "" && !reachable ==> response == Failed && rows == old(rows)
      ensures id.Some? && id.value != "" && reachable && IdRowIndex(old(rows), id.value) == |old(rows)| ==>
        response == NotFound && rows == old(rows)
      ensures id.Some? && id.value != "" && reachable && IdRowIndex(old(rows), id.value) < |old(rows)| ==>
        var k := IdRowIndex(old(rows), id.value);
        && rows == old(rows)[k := WriteCell(old(rows)[k], ActiveColumn, "FALSE")]
        && response == Deleted
    {
      if id.None? || id.value == "" {
        return BadRequest;
      }
      if !reachable {
        return Failed;
      }
      var index := FindRow(rows, id.value);
      if index == -1 {
        return NotFound;
      }
      assert index == IdRowIndex(rows, id.value);
      rows := rows[index := WriteCell(rows[index], ActiveColumn, "FALSE")];
      response := Deleted;
    }
  }
}

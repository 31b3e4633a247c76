/** The invoice handler: it checks the request, lays out the two header
    columns and the item table on the page cursor, and adds up the line
    amounts into the net, gross and VAT totals. Drawing, the measuring of
    text, the clock, the file system, the upload and the e-mail are outside
    this model; the measurements and the date come in as parameters. */
module CreateInvoice {
  import opened JsValues
  import opened Pricing
  import opened Layout
  import opened Labels

  /** The request's `products` field: an array of products or anything else. */
  datatype ProductList = NotAnArray | Array(items: seq<Product>)

  /** The parsed request body (field names as in the request: `arve_nr`, `saaja_nimi`, ...). */
  datatype Request = Request(
    arveNr: JsValue,
    saajaNimi: JsValue,
    saajaFirma: JsValue,
    saajaRegnr: JsValue,
    saajaKmkr: JsValue,
    saajaAadress: JsValue,
    products: ProductList,
    email: JsValue)

  datatype Error = NoProducts | NoEmail

  datatype Result<T> = Ok(value: T) | Err(error: Error)

  /** The message the handler reports for each rejected request. */
  function Message(e: Error): (msg: string)
    ensures |msg| > 3 && msg[..3] == "No "
    ensures e.NoProducts? ==> msg == "No products provided"
    ensures e.NoEmail? ==> msg == "No email provided"
  {
    match e
    case NoProducts => "No products provided"
    case NoEmail => "No email provided"
  }

  /** The request checks, products first: the products must be a non-empty
      array, then the e-mail must be truthy. On success, the items. */
  function CheckRequest(req: Request): (r: Result<seq<Product>>)
    ensures r.Ok? <==> req.products.Array? && req.products.items != [] && Truthy(req.email)
    ensures r.Ok? ==> r.value == req.products.items
    ensures r == Err(NoProducts) <==> req.products.NotAnArray? || req.products.items == []
    ensures r == Err(NoEmail) <==> req.products.Array? && req.products.items != [] && !Truthy(req.email)
  {
    if req.products.NotAnArray? || |req.products.items| == 0 then Err(NoProducts)
    else if !Truthy(req.email) then Err(NoEmail)
    else Ok(req.products.items)
  }

  /** A line of text placed at vertical position `y`. */
  datatype TextLine = TextLine(text: string, y: real)

  /** The labels of the recipient column, invoice number first. */
  const ClientLabels: seq<string> :=
    ["ARVE NR: ", "Saaja nimi: ", "Saaja firma: ", "Saaja reg.nr: ", "Saaja KMKR: ", "Saaja aadress: "]

  /** The request fields the recipient column shows, in label order. */
  function ClientFields(req: Request): (fields: seq<JsValue>)
    ensures |fields| == |ClientLabels| && fields[0] == req.arveNr
  {
    [req.arveNr, req.saajaNimi, req.saajaFirma, req.saajaRegnr, req.saajaKmkr, req.saajaAadress]
  }

  /** Each of the six recipient lines shows its label and the field's text,
      or "-", at its fixed position. */
  predicate ClientLaidOut(req: Request, lines: seq<TextLine>)
  {
    && |lines| == |ClientLabels|
    && forall k :: 0 <= k < |lines| ==>
         lines[k] == TextLine(ClientLabels[k] + Placeholder(ClientFields(req)[k]), ClientLineY(k))
  }

  /** The recipient column: each of the six lines is drawn at its fixed
      position whatever the field holds (an absent field shows "-"), and the
      column cursor ends 24 + 5 * 14 below the top. */
  method ClientColumn(req: Request) returns (lines: seq<TextLine>, cy: real)
    ensures ClientLaidOut(req, lines)
    ensures cy == ClientColumnEnd
  {
    cy := TopY;
    lines := [TextLine("ARVE NR: " + Placeholder(req.arveNr), cy)];
    cy := cy + InvoiceNrAdvance;
    lines := lines + [TextLine("Saaja nimi: " + Placeholder(req.saajaNimi), cy)];
    cy := cy + FieldAdvance;
    lines := lines + [TextLine("Saaja firma: " + Placeholder(req.saajaFirma), cy)];
    cy := cy + FieldAdvance;
    lines := lines + [TextLine("Saaja reg.nr: " + Placeholder(req.saajaRegnr), cy)];
    cy := cy + FieldAdvance;
    lines := lines + [TextLine("Saaja KMKR: " + Placeholder(req.saajaKmkr), cy)];
    cy := cy + FieldAdvance;
    lines := lines + [TextLine("Saaja aadress: " + Placeholder(req.saajaAadress), cy)];
    cy := cy + FieldAdvance;
  }

  /** One item row: where it is drawn and the two amounts it shows. */
  datatype Row = Row(y: real, lineNet: real, lineGross: real)

  /** What the handler produces for an accepted request. */
  datatype Invoice = Invoice(
    fileName: string,
    date: string,
    client: seq<TextLine>,
    headerY: real,
    firstRowY: real,
    rows: seq<Row>,
    endY: real,
    totalNet: real,
    totalGross: real,
    vat: real,
    subject: string)

  /** The measured name heights of the items, in order. */
  function NameHeights(items: seq<Product>, heightOfString: string -> real): (heights: seq<real>)
    ensures |heights| == |items|
    ensures forall k :: 0 <= k < |items| ==> heights[k] == heightOfString(items[k].name)
  {
    seq(|items|, k requires 0 <= k < |items| => heightOfString(items[k].name))
  }

  /** The rows laid out so far: row `k` starts where the rows before it left
      the cursor and shows the line net and line gross amounts of item `k`. */
  predicate RowsLaidOut(items: seq<Product>, heights: seq<real>, firstRowY: real, rows: seq<Row>)
  {
    && |rows| <= |items| && |rows| <= |heights|
    && forall k :: 0 <= k < |rows| ==>
         rows[k] == Row(RowsEnd(firstRowY, heights[..k]), LineNet(items[k]), LineGross(items[k]))
  }

  /** With non-negative measured heights, laid-out rows stack downwards: the
      first row is at the table's first row position, every row starts below
      the name of each earlier row plus the gap, and the final cursor is
      below every row's name. */
  lemma RowsStackDownwards(items: seq<Product>, heights: seq<real>, firstRowY: real, rows: seq<Row>)
    requires |heights| == |items| && |rows| == |items|
    requires RowsLaidOut(items, heights, firstRowY, rows)
    requires AllNonNegative(heights)
    ensures |rows| > 0 ==> rows[0].y == firstRowY
    ensures forall j, k :: 0 <= j < k < |rows| ==> rows[j].y + heights[j] + RowGap <= rows[k].y
    ensures forall j :: 0 <= j < |rows| ==> rows[j].y + heights[j] + RowGap <= RowsEnd(firstRowY, heights)
  {
    if |rows| > 0 {
      assert heights[..0] == [];
    }
    forall j, k | 0 <= j < k < |rows|
      ensures rows[j].y + heights[j] + RowGap <= rows[k].y
    {
      RowsDoNotOverlap(firstRowY, heights, j, k);
    }
    forall j | 0 <= j < |rows|
      ensures rows[j].y + heights[j] + RowGap <= RowsEnd(firstRowY, heights)
    {
      RowsDoNotOverlap(firstRowY, heights, j, |heights|);
      assert heights[..|heights|] == heights;
    }
  }

  /** The drawing cursor of the PDF document (`doc.y`). */
  class Doc {
    var y: real

    constructor (y: real)
      ensures this.y == y
    {
      this.y := y;
    }

    /** The item rows (`products.forEach`): each row is drawn at the cursor,
        its line amounts are added to the running totals, and the cursor
        moves down by the measured height of the item's name plus the gap. */
    method PlaceItems(items: seq<Product>, heightOfString: string -> real)
      returns (rows: seq<Row>, totalNet: real, totalGross: real)
      modifies this
      ensures |rows| == |items| && RowsLaidOut(items, NameHeights(items, heightOfString), old(y), rows)
      ensures y == RowsEnd(old(y), NameHeights(items, heightOfString))
      ensures totalNet == TotalNet(items) && totalGross == TotalGross(items)
    {
      ghost var heights := NameHeights(items, heightOfString);
      ghost var firstRowY := y;
      totalNet, totalGross := 0.0, 0.0;
      rows := [];
      var i := 0;
      while i < |items|
        invariant 0 <= i <= |items|
        invariant totalNet == TotalNet(items[..i]) && totalGross == TotalGross(items[..i])
        invariant |rows| == i && RowsLaidOut(items, heights, firstRowY, rows)
        invariant y == RowsEnd(firstRowY, heights[..i])
      {
        var p := items[i];
        var rowY := y;
        var nameHeight := heightOfString(p.name);

        var lineNet := LineNet(p);
        var lineGross := LineGross(p);
        totalNet := totalNet + lineNet;
        totalGross := totalGross + lineGross;

        rows := rows + [Row(rowY, lineNet, lineGross)];
        y := rowY + nameHeight + RowGap;

        TotalsStep(items, i);
        RowsEndStep(firstRowY, heights, i);
        i := i + 1;
      }
      assert items[..i] == items;
      assert heights[..i] == heights;
    }
  }

  /** The handler. `sellerEndY` is where the rendering library leaves the
      cursor after the seller column, `heightOfString` is its measurement of an
      item name wrapped at the name column's width, and `day`, `month`,
      `year` are today's date. A rejected request yields only its error. */
  method Handle(req: Request, sellerEndY: real, heightOfString: string -> real, day: int, month: int, year: int)
    returns (r: Result<Invoice>)
    ensures CheckRequest(req).Err? ==> r == Err(CheckRequest(req).error)
    ensures CheckRequest(req).Ok? ==> r.Ok?
    ensures r.Ok? ==>
      var items, inv := req.products.items, r.value;
      var heights := NameHeights(items, heightOfString);
      && inv.fileName == FileName(req.arveNr)
      && inv.date == DateString(day, month, year)
      && inv.subject == Subject(req.arveNr)
      && ClientLaidOut(req, inv.client)
      && inv.headerY == TableTop(sellerEndY, ClientColumnEnd)
      && inv.firstRowY == inv.headerY + HeaderAdvance
      && |inv.rows| == |items| && RowsLaidOut(items, heights, inv.firstRowY, inv.rows)
      && inv.endY == RowsEnd(inv.firstRowY, heights)
      && inv.totalNet == TotalNet(items)
      && inv.totalGross == TotalGross(items)
      && inv.vat == VatAmount(items)
  {
    var checked := CheckRequest(req);
    if checked.Err? {
      return Err(checked.error);
    }
    var items := checked.value;

    var date := DateString(day, month, year);
    var fileName := FileName(req.arveNr);

    // The seller column leaves the cursor at sellerEndY.
    var doc := new Doc(sellerEndY);
    var leftEndY := doc.y;

    var client, cy := ClientColumn(req);

    doc.y := Max(leftEndY, cy) + ColumnGap;

    var hY := doc.y;
    doc.y := hY + HeaderAdvance;

    var firstRowY := doc.y;
    var rows, totalNet, totalGross := doc.PlaceItems(items, heightOfString);

    var vat := totalGross - totalNet;
    r := Ok(Invoice(fileName, date, client, hY, firstRowY, rows, doc.y, totalNet, totalGross, vat, Subject(req.arveNr)));
  }
}

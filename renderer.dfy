/**
 * The server's `InvoiceRenderer`: the sections of an invoice drawn onto one A4 page in a
 * fixed order. Each section sits in its own try/catch, so a drawing call that throws ends
 * that section only; the page border and the empty-state message sit directly in `render`'s
 * try, and a throw there is reported on the page in red. The page is the sequence of
 * drawing calls that went through.
 */
module Renderer {
  import opened Wrappers
  import opened Js
  import opened Payload
  import opened Invoice
  import opened ImageProcessor
  import opened Draw
  import opened Geometry

  /**
   * What the renderer reads besides the invoice: the page size, the document images are
   * embedded into, base64 decoding, which drawing calls throw, `toLocaleDateString("fr-FR")`
   * of a date text, and today's date in that format.
   */
  datatype Env = Env(
    width: real,
    height: real,
    doc: PdfDoc,
    decode: Decoder,
    faults: Faults,
    formatDate: string -> string,
    today: string)

  /** How `render` ended: the calls drawn, and false when the catch's own drawing call threw. */
  datatype Rendering = Rendering(drawn: seq<DrawOp>, completed: bool)

  /** `getFont(fontName)`: the two named standard fonts, Helvetica for every other name. */
  function GetFont(name: string): (f: Font)
    ensures f == TimesRoman <==> name == "Times New Roman"
    ensures f == Courier <==> name == "Courier New"
    ensures f == Helvetica <==> name != "Times New Roman" && name != "Courier New"
  {
    if name == "Times New Roman" then TimesRoman
    else if name == "Courier New" then Courier
    else Helvetica
  }

  function Min(a: real, b: real): real {
    if a <= b then a else b
  }

  function Pos(env: Env, inv: InvoiceFields, id: string, property: string, default: real): real {
    CalculatePosition(inv.positionData, id, property, default, env.width, env.height)
  }

  function Embed(env: Env, data: string): Option<Embedded> {
    EmbedImageInPdf(env.doc, env.decode, Str(data))
  }

  /**
   * The drawn width of an image: its own width, at most `cap`, times the `size` factor. A
   * negative factor (a negative percentage in the position data) gives a negative width.
   */
  function FitWidth(cap: real, e: Embedded, size: real): (w: real)
    ensures 0.0 <= size ==> w <= cap * size
    ensures e.width <= cap ==> w == e.width * size
    ensures cap <= e.width ==> w == cap * size
  {
    Min(cap, e.width) * size
  }

  /** The height that keeps the embedded image's aspect ratio at width `w`. */
  function ScaledHeight(e: Embedded, w: real): real {
    w / e.width * e.height
  }

  // ----- The sections, as the calls each would make with nothing throwing -----

  function BorderOp(env: Env): DrawOp {
    DrawRectangle(10.0, 10.0, env.width - 20.0, env.height - 20.0, Some(White), Some(Gray(0.9)), 1.0)
  }

  function ErrorOp(env: Env, message: string): DrawOp {
    DrawText(Plain("Erreur lors du rendu: " + message), 50.0, env.height - 100.0, 12.0, Helvetica,
             Some(Red), None, None)
  }

  function WatermarkOps(env: Env, inv: InvoiceFields): seq<DrawOp> {
    if !inv.images.HasWatermark() then []
    else match Embed(env, inv.images.watermarkImage.value)
      case None => []
      case Some(e) =>
        var x := Pos(env, inv, "watermark", "x", env.width / 2.0);
        var y := Pos(env, inv, "watermark", "y", env.height / 2.0);
        var size := Pos(env, inv, "watermark", "size", 1.0);
        var w := FitWidth(env.width * 0.8, e, size);
        var h := ScaledHeight(e, w);
        [DrawImage(e, x - w / 2.0, y - h / 2.0, w, h, Some(inv.images.watermarkOpacity / 100.0))]
  }

  function HeaderOps(env: Env, inv: InvoiceFields): seq<DrawOp> {
    if !Images.Present(inv.images.headerImage) then []
    else match Embed(env, inv.images.headerImage.value)
      case None => []
      case Some(e) =>
        var x := Pos(env, inv, "header-image", "x", env.width / 2.0);
        var y := Pos(env, inv, "header-image", "y", env.height - 50.0);
        var size := Pos(env, inv, "header-image", "size", 1.0);
        var w := FitWidth(env.width - 40.0, e, size);
        var h := ScaledHeight(e, w);
        [DrawImage(e, x - w / 2.0, y - h, w, h, None)]
  }

  function ModelOps(inv: InvoiceFields): seq<DrawOp> {
    var primary := HexToRgb(inv.primaryColor);
    if inv.model == "boxed" then [DrawRectangle(20.0, 20.0, 555.0, 802.0, Some(White), Some(primary), 2.0)]
    else if inv.model == "bold" then [DrawRectangle(0.0, 792.0, 595.0, 50.0, Some(primary), None, 0.0)]
    else []
  }

  function LogoOps(env: Env, inv: InvoiceFields): seq<DrawOp> {
    if !inv.images.HasLogo() then []
    else match Embed(env, inv.images.logoImage.value)
      case None => []
      case Some(e) =>
        var x := Pos(env, inv, "logo", "x", 50.0);
        var y := Pos(env, inv, "logo", "y", env.height - 50.0);
        var size := Pos(env, inv, "logo", "size", 1.0);
        var w := FitWidth(100.0, e, size);
        var h := ScaledHeight(e, w);
        [DrawImage(e, x, y - h, w, h, None)]
  }

  /** Company and client details: one line, newlines turned into spaces, wrapped at 200 points. */
  function DetailsOps(env: Env, inv: InvoiceFields, font: Font, id: string, text: string, defaultX: real): seq<DrawOp> {
    if text == "" then []
    else
      var x := Pos(env, inv, id, "x", defaultX);
      var y := Pos(env, inv, id, "y", env.height - 100.0);
      [DrawText(Plain(NewlinesToSpaces(text)), x, y, 10.0, font, Some(Black), Some(200.0), Some(15.0))]
  }

  function CompanyDetailsOps(env: Env, inv: InvoiceFields, font: Font): seq<DrawOp> {
    DetailsOps(env, inv, font, "company-details", inv.companyDetails, 50.0)
  }

  function ClientDetailsOps(env: Env, inv: InvoiceFields, font: Font): seq<DrawOp> {
    DetailsOps(env, inv, font, "client-details", inv.clientDetails, 350.0)
  }

  function InvoiceTitleOps(env: Env, inv: InvoiceFields, font: Font): seq<DrawOp> {
    if inv.invoiceNumber == "" then []
    else
      var x := Pos(env, inv, "invoice-number", "x", 50.0);
      var y := Pos(env, inv, "invoice-number", "y", env.height - 200.0);
      [DrawText(Plain(inv.invoiceNumber), x, y, 16.0, font, Some(HexToRgb(inv.primaryColor)), None, None)]
  }

  /** The issue date, then the due date 15 points lower, or in its place when there is no issue date. */
  function DatesOps(env: Env, inv: InvoiceFields, font: Font): seq<DrawOp> {
    var x := Pos(env, inv, "dates", "x", 50.0);
    var y := Pos(env, inv, "dates", "y", env.height - 230.0);
    var issued := if inv.invoiceDate == "" then []
                  else [DrawText(Plain("Date de la facture: " + env.formatDate(inv.invoiceDate)),
                                 x, y, 10.0, font, None, None, None)];
    var y' := if inv.invoiceDate == "" then y else y - 15.0;
    var due := if inv.dueDate == "" then []
               else [DrawText(Plain("Date d'échéance: " + env.formatDate(inv.dueDate)),
                              x, y', 10.0, font, None, None, None)];
    issued + due
  }

  const TableHeaders: seq<string> := ["Description", "Quantité", "Prix unitaire", "Taxes", "Montant"]
  const TableX: seq<real> := [50.0, 300.0, 370.0, 440.0, 510.0]

  /** The baseline of item row `k` when the table's header sits at `y`. */
  function RowY(y: real, k: nat): real {
    y - 30.0 - 40.0 * k as real
  }

  function ItemsHeader(font: Font, y: real, i: nat): DrawOp
    requires i < 5
  {
    DrawText(Plain(TableHeaders[i]), TableX[i], y, 10.0, font, Some(Black), None, None)
  }

  predicate Striped(inv: InvoiceFields, k: nat) {
    inv.model == "striped" && k % 2 == 1
  }

  /**
   * Item row `k` at baseline `y` as runs of calls: the description, its details 15 points
   * below, the quantity, the unit price, the tax rate, the amount, and the stripe behind
   * odd rows of the "striped" model.
   */
  function ItemRowRuns(inv: InvoiceFields, font: Font, k: nat, y: real): (runs: seq<seq<DrawOp>>)
    requires k < |inv.items| && inv.items[k].Built?
    ensures |runs| == 7
  {
    var item := inv.items[k].item;
    [[DrawText(Plain(item.description), TableX[0], y, 10.0, font, None, None, None)],
     if item.details == "" then []
     else [DrawText(Plain(item.details), TableX[0], y - 15.0, 9.0, font, Some(Gray(0.5)), None, None)],
     [DrawText(Fixed("", item.quantity, 3, ""), TableX[1], y, 10.0, font, None, None, None)],
     [DrawText(Fixed("", item.price, 2, ""), TableX[2], y, 10.0, font, None, None, None)],
     [DrawText(Shown("", inv.taxRate, "%"), TableX[3], y, 10.0, font, None, None, None)],
     [DrawText(Fixed("$ ", item.Total(), 2, ""), TableX[4], y, 10.0, font, None, None, None)],
     if Striped(inv, k) then [DrawRectangle(50.0, y - 20.0, 495.0, 30.0, Some(Gray(0.95)), None, 0.0)] else []]
  }

  function ItemRowOps(inv: InvoiceFields, font: Font, k: nat, y: real): seq<DrawOp>
    requires k < |inv.items| && inv.items[k].Built?
  {
    Flatten(ItemRowRuns(inv, font, k, y))
  }

  /**
   * The items table as runs of calls: five headers, the rule under them, then one run per
   * item up to the first plain record, whose `getTotal()` throws before its row draws anything.
   */
  function ItemsTableRuns(env: Env, inv: InvoiceFields, font: Font): (runs: seq<seq<DrawOp>>)
    ensures |runs| == 6 + BuiltPrefix(inv.items)
  {
    var y := Pos(env, inv, "items-table", "y", env.height - 280.0);
    var n := BuiltPrefix(inv.items);
    seq(5, i requires 0 <= i < 5 => [ItemsHeader(font, y, i)])
    + [[DrawLine(50.0, y - 10.0, 545.0, y - 10.0, 1.0, Gray(0.8))]]
    + seq(n, k requires 0 <= k < n => ItemRowOps(inv, font, k, RowY(y, k)))
  }

  function ItemsTableOps(env: Env, inv: InvoiceFields, font: Font): seq<DrawOp> {
    if |inv.items| == 0 then [] else Flatten(ItemsTableRuns(env, inv, font))
  }

  /**
   * The totals block, from the invoice's own calculations, at most at height 450; nothing
   * when a plain record among the items makes the calculations throw before the first call.
   */
  function SummaryOps(env: Env, inv: InvoiceFields, font: Font): seq<DrawOp> {
    if |inv.items| == 0 || inv.CalculateSubtotal().None? then []
    else
      var y := Min(450.0, env.height - 350.0);
      [DrawText(Plain("Sous-total"), 450.0, y, 10.0, font, None, None, None),
       DrawText(Fixed("$ ", inv.CalculateSubtotal().value, 2, ""), 520.0, y, 10.0, font, None, None, None),
       DrawText(Shown("Taxes ", inv.taxRate, "%"), 450.0, y - 20.0, 10.0, font, None, None, None),
       DrawText(Fixed("$ ", inv.CalculateTax().value, 2, ""), 520.0, y - 20.0, 10.0, font, None, None, None),
       DrawLine(450.0, y - 30.0, 545.0, y - 30.0, 1.0, Gray(0.8)),
       DrawText(Plain("Total"), 450.0, y - 40.0, 10.0, font, Some(Black), None, None),
       DrawText(Fixed("$ ", inv.CalculateTotal().value, 2, ""), 520.0, y - 40.0, 10.0, font, Some(Black),
                None, None)]
  }

  function FooterImageOps(env: Env, inv: InvoiceFields): seq<DrawOp> {
    if !Images.Present(inv.images.footerImage) then []
    else match Embed(env, inv.images.footerImage.value)
      case None => []
      case Some(e) =>
        var x := Pos(env, inv, "footer-image", "x", env.width / 2.0);
        var y := Pos(env, inv, "footer-image", "y", 100.0);
        var size := Pos(env, inv, "footer-image", "size", 1.0);
        var w := FitWidth(env.width - 40.0, e, size);
        [DrawImage(e, x - w / 2.0, y, w, ScaledHeight(e, w), None)]
  }

  function PaymentInfoOps(env: Env, inv: InvoiceFields, font: Font): seq<DrawOp> {
    if inv.paymentInfo == "" then []
    else
      var x := Pos(env, inv, "payment-info", "x", 50.0);
      var y := Pos(env, inv, "payment-info", "y", 150.0);
      [DrawText(Plain(NewlinesToSpaces(inv.paymentInfo)), x, y, 10.0, font, None, None, None)]
  }

  /** A text centred by eye: shifted left by three points per character. */
  function FooterNumberOps(env: Env, inv: InvoiceFields, font: Font): seq<DrawOp> {
    if inv.footerNumber == "" then []
    else
      var x := Pos(env, inv, "footer-number", "x", 297.5);
      var y := Pos(env, inv, "footer-number", "y", 50.0);
      [DrawText(Plain(inv.footerNumber), x - |inv.footerNumber| as real * 3.0, y, 10.0, font, None, None, None)]
  }

  function SloganOps(env: Env, inv: InvoiceFields, font: Font): seq<DrawOp> {
    if inv.slogan == "" then []
    else
      var x := Pos(env, inv, "slogan", "x", 297.5);
      var y := Pos(env, inv, "slogan", "y", 30.0);
      [DrawText(Plain(inv.slogan), x - |inv.slogan| as real * 3.0, y, 8.0, font, Some(Gray(0.5)), None, None)]
  }

  /** The footer is one section: a throw in any of its four parts skips the parts after it. */
  /** The footer's four parts, drawn in one try: image, payment details, number, slogan. */
  function FooterRuns(env: Env, inv: InvoiceFields, font: Font): (runs: seq<seq<DrawOp>>)
    ensures |runs| == 4
  {
    [FooterImageOps(env, inv), PaymentInfoOps(env, inv, font), FooterNumberOps(env, inv, font),
     SloganOps(env, inv, font)]
  }

  function FooterOps(env: Env, inv: InvoiceFields, font: Font): seq<DrawOp> {
    Flatten(FooterRuns(env, inv, font))
  }

  function SignatureOps(env: Env, inv: InvoiceFields): seq<DrawOp> {
    if !inv.images.HasSignature() then []
    else match Embed(env, inv.images.signatureImage.value)
      case None => []
      case Some(e) =>
        var x := Pos(env, inv, "signature", "x", 400.0);
        var y := Pos(env, inv, "signature", "y", 120.0);
        var size := Pos(env, inv, "signature", "size", 1.0);
        var w := FitWidth(150.0, e, size);
        [DrawImage(e, x, y, w, ScaledHeight(e, w), None)]
  }

  function EmptyStateOps(env: Env, font: Font): seq<DrawOp> {
    [DrawText(Plain("Facture vide - Ajoutez des composants pour voir le contenu"),
              env.width / 2.0 - 200.0, env.height / 2.0, 14.0, font, Some(Gray(0.5)), None, None),
     DrawText(Plain("Généré le: " + env.today),
              env.width / 2.0 - 80.0, env.height / 2.0 - 30.0, 10.0, font, Some(Gray(0.7)), None, None)]
  }

  // ----- Custom components -----

  const ColumnWidths: seq<real> := [200.0, 50.0, 70.0, 50.0, 70.0]
  const CustomHeaders: seq<string> := ["Description", "Quantité", "Prix unitaire", "TVA", "Total"]

  /** `widths.reduce((a, b) => a + b, 0)` */
  function Total(widths: seq<real>): real {
    if widths == [] then 0.0 else Total(widths[..|widths| - 1]) + widths[|widths| - 1]
  }

  /** Where column `i` starts: the widths of the columns before it. */
  function ColumnOffset(i: nat): real
    requires i <= 5
  {
    if i > 0 then Total(ColumnWidths[..i]) else 0.0
  }

  function CustomHeader(font: Font, x: real, y: real, i: nat): DrawOp
    requires i < 5
  {
    DrawText(Plain(CustomHeaders[i]), x + ColumnOffset(i), y, 10.0, font, Some(Black), None, None)
  }

  function CustomRowOps(row: Row, font: Font, x: real, y: real): seq<DrawOp> {
    [DrawText(Plain(row.description), x, y, 10.0, font, None, Some(ColumnWidths[0] - 5.0), None),
     DrawText(Shown("", row.quantity, ""), x + ColumnWidths[0], y, 10.0, font, None, None, None),
     DrawText(Fixed("", row.unitPrice, 2, " €"), x + ColumnWidths[0] + ColumnWidths[1], y, 10.0, font,
              None, None, None),
     DrawText(Shown("", row.tax, "%"), x + ColumnWidths[0] + ColumnWidths[1] + ColumnWidths[2], y, 10.0, font,
              None, None, None),
     DrawText(Fixed("", row.total, 2, " €"),
              x + ColumnWidths[0] + ColumnWidths[1] + ColumnWidths[2] + ColumnWidths[3], y, 10.0, font,
              None, None, None)]
  }

  /** The baseline of custom row `k` under a header at `y`. */
  function CustomRowY(y: real, k: nat): real {
    y - 25.0 - 25.0 * k as real
  }

  /** A custom table as runs: five headers, the rule 10 points below them, one run per row. */
  function CustomTableRuns(rows: seq<Row>, font: Font, x: real, y: real): (runs: seq<seq<DrawOp>>)
    ensures |runs| == 6 + |rows|
  {
    seq(5, i requires 0 <= i < 5 => [CustomHeader(font, x, y, i)])
    + [[DrawLine(x, y - 10.0, x + Total(ColumnWidths), y - 10.0, 1.0, Gray(0.8))]]
    + seq(|rows|, k requires 0 <= k < |rows| => CustomRowOps(rows[k], font, x, CustomRowY(y, k)))
  }

  function CustomTableOps(rows: seq<Row>, font: Font, x: real, y: real): seq<DrawOp> {
    if |rows| == 0 then [] else Flatten(CustomTableRuns(rows, font, x, y))
  }

  function CustomSummaryOps(s: Summary, font: Font, x: real, y: real): seq<DrawOp> {
    [DrawText(Plain("Sous-total:"), x, y, 10.0, font, None, None, None),
     DrawText(Fixed("", s.subtotal, 2, " €"), x + 150.0, y, 10.0, font, None, None, None),
     DrawText(Shown("TVA (", s.taxRate, "%):"), x, y - 20.0, 10.0, font, None, None, None),
     DrawText(Fixed("", s.taxAmount, 2, " €"), x + 150.0, y - 20.0, 10.0, font, None, None, None),
     DrawLine(x, y - 30.0, x + 180.0, y - 30.0, 1.0, Gray(0.8)),
     DrawText(Plain("Total:"), x, y - 40.0, 12.0, font, Some(Black), None, None),
     DrawText(Fixed("", s.total, 2, " €"), x + 150.0, y - 40.0, 12.0, font, Some(Black), None, None)]
  }

  /** An image hangs below its anchor; a missing height follows the image's aspect ratio. */
  function CustomImageOps(env: Env, data: string, x: real, y: real, size: Option<Size>): seq<DrawOp> {
    match Embed(env, data)
    case None => []
    case Some(e) =>
      var w := if size.Some? && size.value.width != 0.0 then size.value.width else 100.0;
      var h := if size.Some? && size.value.height != 0.0 then size.value.height else ScaledHeight(e, w);
      [DrawImage(e, x, y - h, w, h, None)]
  }

  /** A "text" or "invoice-data" component: its content wrapped at its width, 200 points by default. */
  function TextOps(c: Component, font: Font, x: real, y: real): seq<DrawOp> {
    if c.content == "" then []
    else [DrawText(Plain(c.content), x, y, 10.0, font, Some(Black), Some(WidthOr(c.size, 200.0)), Some(15.0))]
  }

  /** A "separator": a horizontal line, 2 points thick, 200 points long and black unless set. */
  function SeparatorOps(c: Component, x: real, y: real): seq<DrawOp> {
    var thickness := if c.thickness != 0.0 then c.thickness else 2.0;
    [DrawLine(x, y, x + WidthOr(c.size, 200.0), y, thickness, LineColor(c))]
  }

  /**
   * A separator's colour: its own, read by `hexToRgb`, or black, which is what the default
   * "#000000" reads as (LineColorDefault).
   */
  function LineColor(c: Component): Color {
    if c.color != "" then HexToRgb(c.color) else Black
  }

  lemma LineColorDefault(c: Component)
    ensures LineColor(c) == HexToRgb(TextOr(c.color, "#000000"))
  {
    var hex := TextOr(c.color, "#000000");
    if c.color == "" {
      HexToRgbDefault(hex);
    }
  }

  /** A "pager": its format with the page number and the page count both set to 1. */
  function PagerOps(c: Component, font: Font, x: real, y: real): seq<DrawOp> {
    [DrawText(Plain(PagerText(TextOr(c.format, DefaultPagerFormat))), x, y, 10.0, font, Some(Gray(0.5)), None, None)]
  }

  /** The two dates of an "invoice-dates" component, 20 points apart, as given. */
  function ComponentDatesOps(dates: Dates, font: Font, x: real, y: real): seq<DrawOp> {
    [DrawText(Plain("Date de la facture: " + dates.invoiceDate), x, y, 10.0, font, Some(Black), None, None),
     DrawText(Plain("Date d'échéance: " + dates.dueDate), x, y - 20.0, 10.0, font, Some(Black), None, None)]
  }

  /** `size?.width || fallback` */
  function WidthOr(size: Option<Size>, fallback: real): real {
    if size.Some? && size.value.width != 0.0 then size.value.width else fallback
  }

  /** `renderComponent`: the calls one component makes, anchored at its position from the top. */
  function ComponentOps(env: Env, c: Component, font: Font): seq<DrawOp> {
    var pos := c.position.GetOr(Point(50.0, 50.0));
    KindOps(env, c, font, pos.x, env.height - pos.y)
  }

  /** The calls a component of each kind makes at (x, y); a kind the renderer does not know draws nothing. */
  function KindOps(env: Env, c: Component, font: Font, x: real, y: real): seq<DrawOp> {
    match c.kind
    case Text | InvoiceData => TextOps(c, font, x, y)
    case Separator => SeparatorOps(c, x, y)
    case Pager => PagerOps(c, font, x, y)
    case InvoiceDates =>
      if c.dates.None? then [] else ComponentDatesOps(c.dates.value, font, x, y)
    case InvoiceTable =>
      if |c.rows| == 0 then [] else CustomTableOps(c.rows, font, x, y)
    case InvoiceSummary =>
      if c.summary.None? then [] else CustomSummaryOps(c.summary.value, font, x, y)
    case Image =>
      if c.imageData == "" then [] else CustomImageOps(env, c.imageData, x, y, c.size)
    case Unknown(_) => []
  }

  /** `renderComponents`: each component in its own try, so one that throws loses only its own tail. */
  function ComponentsDrawn(env: Env, cs: seq<Component>, font: Font): seq<DrawOp> {
    if cs == [] then []
    else ComponentsDrawn(env, cs[..|cs| - 1], font) + UntilFault(ComponentOps(env, cs[|cs| - 1], font), env.faults)
  }

  // ----- The whole page -----

  /** `isEmpty(invoice)` */
  predicate IsEmpty(inv: InvoiceFields) {
    inv.companyDetails == "" && inv.clientDetails == "" && inv.invoiceNumber == "" && |inv.items| == 0
    && !inv.images.HasLogo() && !inv.images.HasSignature() && inv.slogan == "" && inv.paymentInfo == ""
    && (inv.components.None? || |inv.components.value| == 0)
  }

  /** The sections from the watermark to the dates, each cut at its own first throwing call. */
  function TopSections(env: Env, inv: InvoiceFields, font: Font): seq<DrawOp> {
    var f := env.faults;
    UntilFault(WatermarkOps(env, inv), f) + UntilFault(HeaderOps(env, inv), f) + UntilFault(ModelOps(inv), f)
    + UntilFault(LogoOps(env, inv), f) + UntilFault(CompanyDetailsOps(env, inv, font), f)
    + UntilFault(ClientDetailsOps(env, inv, font), f) + UntilFault(InvoiceTitleOps(env, inv, font), f)
    + UntilFault(DatesOps(env, inv, font), f)
  }

  /** The sections from the items table to the signature, each cut at its own first throwing call. */
  function BottomSections(env: Env, inv: InvoiceFields, font: Font): seq<DrawOp> {
    var f := env.faults;
    UntilFault(ItemsTableOps(env, inv, font), f) + UntilFault(SummaryOps(env, inv, font), f)
    + UntilFault(FooterOps(env, inv, font), f) + UntilFault(SignatureOps(env, inv), f)
  }

  function CustomDrawn(env: Env, inv: InvoiceFields, font: Font): seq<DrawOp> {
    if inv.components.Some? then ComponentsDrawn(env, inv.components.value, font) else []
  }

  /** The guarded sections in order, then the custom components. */
  function Sections(env: Env, inv: InvoiceFields, font: Font): seq<DrawOp> {
    TopSections(env, inv, font) + BottomSections(env, inv, font) + CustomDrawn(env, inv, font)
  }

  /** The page border, then the sections. */
  function Body(env: Env, inv: InvoiceFields, font: Font): seq<DrawOp> {
    [BorderOp(env)] + Sections(env, inv, font)
  }

  /** The catch of `render`: the error text in red, unless drawing it throws too. */
  function Recover(env: Env, drawn: seq<DrawOp>, message: string): Rendering {
    var e := ErrorOp(env, message);
    if env.faults(e).Some? then Rendering(drawn, false) else Rendering(drawn + [e], true)
  }

  /** What follows the body: nothing, or the empty-state text for an empty invoice, caught when it throws. */
  function Closing(env: Env, inv: InvoiceFields, font: Font, body: seq<DrawOp>): Rendering {
    var empty := EmptyStateOps(env, font);
    if !IsEmpty(inv) then Rendering(body, true)
    else if NoFault(empty, env.faults) then Rendering(body + empty, true)
    else Recover(env, body + UntilFault(empty, env.faults), FirstFault(empty, env.faults).value)
  }

  /** `render(invoice)` */
  function Rendered(env: Env, inv: InvoiceFields): Rendering {
    var font := GetFont(inv.font);
    var border := BorderOp(env);
    if env.faults(border).Some? then Recover(env, [], env.faults(border).value)
    else Closing(env, inv, font, Body(env, inv, font))
  }

  // ----- Run bookkeeping -----

  lemma UntilFaultOne(op: DrawOp, faults: Faults)
    ensures UntilFault([op], faults) == if faults(op).None? then [op] else []
    ensures NoFault([op], faults) <==> faults(op).None?
  {
    assert [op][1..] == [];
  }

  /**
   * After runs 0..k-1 went through, run k either went through too, and the prefix grows by
   * it, or threw, and what was drawn is what the whole sequence of runs draws.
   */
  lemma RunStep(runs: seq<seq<DrawOp>>, k: nat, faults: Faults)
    requires k < |runs| && NoFault(Flatten(runs[..k]), faults)
    ensures NoFault(runs[k], faults) ==>
              Flatten(runs[..k + 1]) == Flatten(runs[..k]) + runs[k] && NoFault(Flatten(runs[..k + 1]), faults)
    ensures !NoFault(runs[k], faults) ==>
              UntilFault(Flatten(runs), faults) == Flatten(runs[..k]) + UntilFault(runs[k], faults)
  {
    FlattenPrefixStep(runs, k);
    if NoFault(runs[k], faults) {
      NoFaultAppend(Flatten(runs[..k]), runs[k], faults);
    } else {
      FlattenFault(runs, k, faults);
    }
  }

  /** Each call as a run of its own. */
  function Singles(ops: seq<DrawOp>): (runs: seq<seq<DrawOp>>)
    ensures |runs| == |ops| && forall i :: 0 <= i < |ops| ==> runs[i] == [ops[i]]
  {
    seq(|ops|, i requires 0 <= i < |ops| => [ops[i]])
  }

  lemma {:induction false} FlattenSingles(ops: seq<DrawOp>)
    ensures Flatten(Singles(ops)) == ops
    decreases |ops|
  {
    if ops != [] {
      var n := |ops| - 1;
      assert Singles(ops)[..n] == Singles(ops[..n]);
      FlattenSingles(ops[..n]);
      assert ops == ops[..n] + [ops[n]];
    }
  }

  /**
   * The page after run k of a section, when the page before it held `start` and runs 0..k-1:
   * either runs 0..k, or, when run k threw, everything the section draws.
   */
  lemma RunAdvance(start: seq<DrawOp>, runs: seq<seq<DrawOp>>, k: nat, before: seq<DrawOp>, after: seq<DrawOp>,
                   faults: Faults)
    requires k < |runs| && before == start + Flatten(runs[..k]) && NoFault(Flatten(runs[..k]), faults)
    requires after == before + UntilFault(runs[k], faults)
    ensures NoFault(runs[k], faults) ==>
              after == start + Flatten(runs[..k + 1]) && NoFault(Flatten(runs[..k + 1]), faults)
    ensures !NoFault(runs[k], faults) ==>
              after == start + UntilFault(Flatten(runs), faults) && !NoFault(Flatten(runs), faults)
  {
    if !NoFault(runs[k], faults) {
      FaultSpreads(runs, k, faults);
    }
    RunStep(runs, k, faults);
    UntilFaultExact(runs[k], faults);
    AppendAssoc(start, Flatten(runs[..k]), UntilFault(runs[k], faults));
  }

  lemma RunsDone(runs: seq<seq<DrawOp>>, faults: Faults)
    requires NoFault(Flatten(runs[..|runs|]), faults)
    ensures UntilFault(Flatten(runs), faults) == Flatten(runs[..|runs|])
  {
    assert runs[..|runs|] == runs;
    UntilFaultExact(Flatten(runs), faults);
  }

  // ----- The renderer -----

  class InvoiceRenderer {
    const env: Env
    /** The calls made on the page so far. */
    var page: seq<DrawOp>

    constructor(env: Env)
      ensures this.env == env && page == []
    {
      this.env := env;
      page := [];
    }

    /** One call on the page: it is drawn, or it throws its message and nothing is drawn. */
    method Draw(op: DrawOp) returns (thrown: Option<string>)
      modifies this
      ensures thrown == env.faults(op)
      ensures page == old(page) + UntilFault([op], env.faults)
    {
      UntilFaultOne(op, env.faults);
      thrown := env.faults(op);
      if thrown.None? {
        page := page + [op];
      }
    }

    /**
     * One drawing call of a section whose calls are `runs`, the first `k` of which went
     * through; `start` is the page before the section.
     */
    method DrawNext(ghost start: seq<DrawOp>, ghost runs: seq<seq<DrawOp>>, ghost k: nat, op: DrawOp)
      returns (thrown: Option<string>)
      requires k < |runs| && runs[k] == [op]
      requires page == start + Flatten(runs[..k]) && NoFault(Flatten(runs[..k]), env.faults)
      modifies this
      ensures thrown == env.faults(op)
      ensures thrown.None? ==> page == start + Flatten(runs[..k + 1]) && NoFault(Flatten(runs[..k + 1]), env.faults)
      ensures thrown.Some? ==> page == start + UntilFault(Flatten(runs), env.faults) && !NoFault(Flatten(runs), env.faults)
    {
      ghost var before := page;
      thrown := Draw(op);
      RunAdvance(start, runs, k, before, page, env.faults);
    }

    // ----- The fixed sections -----

    method RenderPageBorder() returns (thrown: Option<string>)
      modifies this
      ensures thrown == env.faults(BorderOp(env))
      ensures page == old(page) + UntilFault([BorderOp(env)], env.faults)
    {
      thrown := Draw(DrawRectangle(10.0, 10.0, env.width - 20.0, env.height - 20.0, Some(White), Some(Gray(0.9)), 1.0));
    }

    method RenderWatermark(inv: InvoiceFields)
      modifies this
      ensures page == old(page) + UntilFault(WatermarkOps(env, inv), env.faults)
    {
      if !inv.images.HasWatermark() {
        return;
      }
      var embedded := Embed(env, inv.images.watermarkImage.value);
      if embedded.None? {
        return;
      }
      var e := embedded.value;
      var x := Pos(env, inv, "watermark", "x", env.width / 2.0);
      var y := Pos(env, inv, "watermark", "y", env.height / 2.0);
      var size := Pos(env, inv, "watermark", "size", 1.0);
      var opacity := inv.images.watermarkOpacity / 100.0;
      var w := FitWidth(env.width * 0.8, e, size);
      var h := ScaledHeight(e, w);
      var thrown := Draw(DrawImage(e, x - w / 2.0, y - h / 2.0, w, h, Some(opacity)));
    }

    method RenderHeader(inv: InvoiceFields)
      modifies this
      ensures page == old(page) + UntilFault(HeaderOps(env, inv), env.faults)
    {
      if !Images.Present(inv.images.headerImage) {
        return;
      }
      var embedded := Embed(env, inv.images.headerImage.value);
      if embedded.None? {
        return;
      }
      var e := embedded.value;
      var x := Pos(env, inv, "header-image", "x", env.width / 2.0);
      var y := Pos(env, inv, "header-image", "y", env.height - 50.0);
      var size := Pos(env, inv, "header-image", "size", 1.0);
      var w := FitWidth(env.width - 40.0, e, size);
      var h := ScaledHeight(e, w);
      var thrown := Draw(DrawImage(e, x - w / 2.0, y - h, w, h, None));
    }

    method RenderModel(inv: InvoiceFields)
      modifies this
      ensures page == old(page) + UntilFault(ModelOps(inv), env.faults)
    {
      var primary := HexToRgb(inv.primaryColor);
      if inv.model == "boxed" {
        var thrown := Draw(DrawRectangle(20.0, 20.0, 555.0, 802.0, Some(White), Some(primary), 2.0));
      } else if inv.model == "bold" {
        var thrown := Draw(DrawRectangle(0.0, 792.0, 595.0, 50.0, Some(primary), None, 0.0));
      }
    }

    method RenderLogo(inv: InvoiceFields)
      modifies this
      ensures page == old(page) + UntilFault(LogoOps(env, inv), env.faults)
    {
      if !inv.images.HasLogo() {
        return;
      }
      var embedded := Embed(env, inv.images.logoImage.value);
      if embedded.None? {
        return;
      }
      var e := embedded.value;
      var x := Pos(env, inv, "logo", "x", 50.0);
      var y := Pos(env, inv, "logo", "y", env.height - 50.0);
      var size := Pos(env, inv, "logo", "size", 1.0);
      var w := FitWidth(100.0, e, size);
      var h := ScaledHeight(e, w);
      var thrown := Draw(DrawImage(e, x, y - h, w, h, None));
    }

    method RenderDetails(inv: InvoiceFields, font: Font, id: string, text: string, defaultX: real)
      modifies this
      ensures page == old(page) + UntilFault(DetailsOps(env, inv, font, id, text, defaultX), env.faults)
    {
      if text == "" {
        return;
      }
      var x := Pos(env, inv, id, "x", defaultX);
      var y := Pos(env, inv, id, "y", env.height - 100.0);
      var thrown := Draw(DrawText(Plain(NewlinesToSpaces(text)), x, y, 10.0, font, Some(Black), Some(200.0),
                                  Some(15.0)));
    }

    method RenderCompanyDetails(inv: InvoiceFields, font: Font)
      modifies this
      ensures page == old(page) + UntilFault(CompanyDetailsOps(env, inv, font), env.faults)
    {
      RenderDetails(inv, font, "company-details", inv.companyDetails, 50.0);
    }

    method RenderClientDetails(inv: InvoiceFields, font: Font)
      modifies this
      ensures page == old(page) + UntilFault(ClientDetailsOps(env, inv, font), env.faults)
    {
      RenderDetails(inv, font, "client-details", inv.clientDetails, 350.0);
    }

    method RenderInvoiceTitle(inv: InvoiceFields, font: Font)
      modifies this
      ensures page == old(page) + UntilFault(InvoiceTitleOps(env, inv, font), env.faults)
    {
      if inv.invoiceNumber == "" {
        return;
      }
      var ops := InvoiceTitleOps(env, inv, font);
      assert ops == [ops[0]];
      var thrown := Draw(ops[0]);
    }

    method RenderDates(inv: InvoiceFields, font: Font)
      modifies this
      ensures page == old(page) + UntilFault(DatesOps(env, inv, font), env.faults)
    {
      var x := Pos(env, inv, "dates", "x", 50.0);
      var y := Pos(env, inv, "dates", "y", env.height - 230.0);
      ghost var runs := Singles(DatesOps(env, inv, font));
      FlattenSingles(DatesOps(env, inv, font));
      assert runs[..0] == [];
      ghost var n := 0;
      if inv.invoiceDate != "" {
        var thrown := DrawNext(old(page), runs, 0,
                               DrawText(Plain("Date de la facture: " + env.formatDate(inv.invoiceDate)), x, y, 10.0,
                                        font, None, None, None));
        if thrown.Some? {
          return;
        }
        y := y - 15.0;
        n := 1;
      }
      if inv.dueDate != "" {
        var thrown := DrawNext(old(page), runs, n,
                               DrawText(Plain("Date d'échéance: " + env.formatDate(inv.dueDate)), x, y, 10.0,
                                        font, None, None, None));
        if thrown.Some? {
          return;
        }
        n := n + 1;
      }
      RunsDone(runs, env.faults);
    }

    /** The headers and the rows are drawn by loops; each row sits 40 points below the one before. */
    method RenderItemsTable(inv: InvoiceFields, font: Font)
      modifies this
      ensures page == old(page) + UntilFault(ItemsTableOps(env, inv, font), env.faults)
    {
      if |inv.items| == 0 {
        return;
      }
      var y := Pos(env, inv, "items-table", "y", env.height - 280.0);
      var thrown := RenderItemsHead(inv, font, y);
      if thrown.Some? {
        return;
      }
      ghost var runs := ItemsTableRuns(env, inv, font);
      forall j | 6 <= j < |runs|
        ensures runs[j] == ItemRowOps(inv, font, j - 6, RowY(y, j - 6))
      {
      }
      RenderItemRows(inv, font, y, runs, old(page));
    }

    /** The five column headers, then the rule 10 points below them. */
    method RenderItemsHead(inv: InvoiceFields, font: Font, y: real) returns (thrown: Option<string>)
      requires |inv.items| > 0 && y == Pos(env, inv, "items-table", "y", env.height - 280.0)
      modifies this
      ensures thrown.None? ==> page == old(page) + Flatten(ItemsTableRuns(env, inv, font)[..6])
                               && NoFault(Flatten(ItemsTableRuns(env, inv, font)[..6]), env.faults)
      ensures thrown.Some? ==> page == old(page) + UntilFault(ItemsTableOps(env, inv, font), env.faults)
    {
      ghost var runs := ItemsTableRuns(env, inv, font);
      assert runs[..0] == [];
      var i := 0;
      while i < |TableHeaders|
        invariant 0 <= i <= 5
        invariant page == old(page) + Flatten(runs[..i]) && NoFault(Flatten(runs[..i]), env.faults)
      {
        thrown := DrawNext(old(page), runs, i, DrawText(Plain(TableHeaders[i]), TableX[i], y, 10.0, font,
                                                        Some(Black), None, None));
        if thrown.Some? {
          return;
        }
        i := i + 1;
      }
      thrown := DrawNext(old(page), runs, 5, DrawLine(50.0, y - 10.0, 545.0, y - 10.0, 1.0, Gray(0.8)));
    }

    /**
     * The rows, 30 points below the headers and 40 points apart, until an entry has no
     * `getTotal`. `runs` are the table's runs and `start` the page before the table.
     */
    method RenderItemRows(inv: InvoiceFields, font: Font, y0: real, ghost runs: seq<seq<DrawOp>>,
                          ghost start: seq<DrawOp>)
      requires |runs| == 6 + BuiltPrefix(inv.items)
      requires forall j :: 6 <= j < |runs| ==> runs[j] == ItemRowOps(inv, font, j - 6, RowY(y0, j - 6))
      requires page == start + Flatten(runs[..6]) && NoFault(Flatten(runs[..6]), env.faults)
      modifies this
      ensures page == start + UntilFault(Flatten(runs), env.faults)
    {
      var y := y0 - 30.0;
      var k := 0;
      while k < |inv.items|
        invariant 0 <= k <= BuiltPrefix(inv.items)
        invariant y == RowY(y0, k)
        invariant page == start + Flatten(runs[..6 + k]) && NoFault(Flatten(runs[..6 + k]), env.faults)
      {
        if inv.items[k].Raw? {
          // `item.getTotal` is not a function: the row throws before drawing, ending the table.
          break;
        }
        assert runs[6 + k] == ItemRowOps(inv, font, k, y);
        ghost var before := page;
        var thrown := RenderItemRow(inv, font, k, y);
        RunAdvance(start, runs, 6 + k, before, page, env.faults);
        if thrown.Some? {
          return;
        }
        y := y - 40.0;
        k := k + 1;
      }
      assert k == BuiltPrefix(inv.items);
      RunsDone(runs, env.faults);
    }

    method RenderItemRow(inv: InvoiceFields, font: Font, k: nat, y: real) returns (thrown: Option<string>)
      requires k < |inv.items| && inv.items[k].Built?
      modifies this
      ensures thrown.None? <==> NoFault(ItemRowOps(inv, font, k, y), env.faults)
      ensures page == old(page) + UntilFault(ItemRowOps(inv, font, k, y), env.faults)
    {
      var item := inv.items[k].item;
      ghost var runs := ItemRowRuns(inv, font, k, y);
      assert runs[..0] == [];
      thrown := DrawNext(old(page), runs, 0, DrawText(Plain(item.description), TableX[0], y, 10.0, font,
                                                      None, None, None));
      if thrown.Some? {
        return;
      }
      if item.details != "" {
        thrown := DrawNext(old(page), runs, 1, DrawText(Plain(item.details), TableX[0], y - 15.0, 9.0, font,
                                                        Some(Gray(0.5)), None, None));
        if thrown.Some? {
          return;
        }
      } else {
        RunAdvance(old(page), runs, 1, page, page, env.faults);
      }
      thrown := RenderItemFigures(inv, font, k, y, old(page), runs);
      if thrown.Some? {
        return;
      }
      if Striped(inv, k) {
        thrown := DrawNext(old(page), runs, 6, DrawRectangle(50.0, y - 20.0, 495.0, 30.0, Some(Gray(0.95)), None,
                                                             0.0));
        if thrown.Some? {
          return;
        }
      } else {
        RunAdvance(old(page), runs, 6, page, page, env.faults);
      }
      RunsDone(runs, env.faults);
      UntilFaultExact(Flatten(runs), env.faults);
    }

    /** Quantity, unit price, tax rate and amount of item `k`, on its baseline `y`. */
    method RenderItemFigures(inv: InvoiceFields, font: Font, k: nat, y: real, ghost start: seq<DrawOp>,
                             ghost runs: seq<seq<DrawOp>>)
      returns (thrown: Option<string>)
      requires k < |inv.items| && inv.items[k].Built? && runs == ItemRowRuns(inv, font, k, y)
      requires page == start + Flatten(runs[..2]) && NoFault(Flatten(runs[..2]), env.faults)
      modifies this
      ensures thrown.None? ==> page == start + Flatten(runs[..6]) && NoFault(Flatten(runs[..6]), env.faults)
      ensures thrown.Some? ==> page == start + UntilFault(Flatten(runs), env.faults) && !NoFault(Flatten(runs), env.faults)
    {
      var item := inv.items[k].item;
      thrown := DrawNext(start, runs, 2, DrawText(Fixed("", item.quantity, 3, ""), TableX[1], y, 10.0, font,
                                                  None, None, None));
      if thrown.Some? {
        return;
      }
      thrown := DrawNext(start, runs, 3, DrawText(Fixed("", item.price, 2, ""), TableX[2], y, 10.0, font,
                                                  None, None, None));
      if thrown.Some? {
        return;
      }
      thrown := DrawNext(start, runs, 4, DrawText(Shown("", inv.taxRate, "%"), TableX[3], y, 10.0, font,
                                                  None, None, None));
      if thrown.Some? {
        return;
      }
      thrown := DrawNext(start, runs, 5, DrawText(Fixed("$ ", item.Total(), 2, ""), TableX[4], y, 10.0,
                                                  font, None, None, None));
    }

    method RenderSummary(inv: InvoiceFields, font: Font)
      modifies this
      ensures page == old(page) + UntilFault(SummaryOps(env, inv, font), env.faults)
    {
      if |inv.items| == 0 {
        return;
      }
      var subtotal := inv.CalculateSubtotal();
      if subtotal.None? {
        // An entry without `getTotal` makes the calculation throw before anything is drawn.
        return;
      }
      var taxAmount := inv.CalculateTax();
      var y := Min(450.0, env.height - 350.0);
      ghost var runs := Singles(SummaryOps(env, inv, font));
      FlattenSingles(SummaryOps(env, inv, font));
      assert runs[..0] == [];
      var thrown := DrawNext(old(page), runs, 0, DrawText(Plain("Sous-total"), 450.0, y, 10.0, font, None, None, None));
      if thrown.Some? {
        return;
      }
      thrown := DrawNext(old(page), runs, 1, DrawText(Fixed("$ ", subtotal.value, 2, ""), 520.0, y, 10.0, font,
                                                      None, None, None));
      if thrown.Some? {
        return;
      }
      y := y - 20.0;
      thrown := DrawNext(old(page), runs, 2, DrawText(Shown("Taxes ", inv.taxRate, "%"), 450.0, y, 10.0, font,
                                                      None, None, None));
      if thrown.Some? {
        return;
      }
      thrown := DrawNext(old(page), runs, 3, DrawText(Fixed("$ ", taxAmount.value, 2, ""), 520.0, y, 10.0, font,
                                                      None, None, None));
      if thrown.Some? {
        return;
      }
      RenderSummaryTotal(inv, font, y - 20.0, old(page), runs);
    }

    /** The rule and the total, 20 points below the tax line at `y + 20`. */
    method RenderSummaryTotal(inv: InvoiceFields, font: Font, y: real, ghost start: seq<DrawOp>,
                              ghost runs: seq<seq<DrawOp>>)
      requires |inv.items| > 0 && inv.CalculateSubtotal().Some? && y == Min(450.0, env.height - 350.0) - 40.0
      requires runs == Singles(SummaryOps(env, inv, font)) && Flatten(runs) == SummaryOps(env, inv, font)
      requires page == start + Flatten(runs[..4]) && NoFault(Flatten(runs[..4]), env.faults)
      modifies this
      ensures page == start + UntilFault(SummaryOps(env, inv, font), env.faults)
    {
      var total := inv.CalculateTotal().value;
      var thrown := DrawNext(start, runs, 4, DrawLine(450.0, y + 10.0, 545.0, y + 10.0, 1.0, Gray(0.8)));
      if thrown.Some? {
        return;
      }
      thrown := DrawNext(start, runs, 5, DrawText(Plain("Total"), 450.0, y, 10.0, font, Some(Black), None, None));
      if thrown.Some? {
        return;
      }
      thrown := DrawNext(start, runs, 6, DrawText(Fixed("$ ", total, 2, ""), 520.0, y, 10.0, font, Some(Black),
                                                  None, None));
      if thrown.Some? {
        return;
      }
      RunsDone(runs, env.faults);
    }

    /** Footer image, payment details, footer number and slogan, in one try. */
    method RenderFooter(inv: InvoiceFields, font: Font)
      modifies this
      ensures page == old(page) + UntilFault(FooterOps(env, inv, font), env.faults)
    {
      ghost var runs := FooterRuns(env, inv, font);
      assert runs[..0] == [];
      var thrown := RenderFooterImage(inv, old(page), runs, 0);
      if thrown.Some? {
        return;
      }
      thrown := RenderPaymentInfo(inv, font, old(page), runs, 1);
      if thrown.Some? {
        return;
      }
      thrown := RenderFooterNumber(inv, font, old(page), runs, 2);
      if thrown.Some? {
        return;
      }
      thrown := RenderSlogan(inv, font, old(page), runs, 3);
      if thrown.Some? {
        return;
      }
      RunsDone(runs, env.faults);
    }

    /**
     * The footer's parts are drawn as runs `k` of `runs`, the footer's runs, with `start` the
     * page before the footer; a part that throws ends the footer.
     */
    method RenderFooterImage(inv: InvoiceFields, ghost start: seq<DrawOp>, ghost runs: seq<seq<DrawOp>>, ghost k: nat)
      returns (thrown: Option<string>)
      requires k < |runs| && runs[k] == FooterImageOps(env, inv)
      requires page == start + Flatten(runs[..k]) && NoFault(Flatten(runs[..k]), env.faults)
      modifies this
      ensures thrown.None? ==> page == start + Flatten(runs[..k + 1]) && NoFault(Flatten(runs[..k + 1]), env.faults)
      ensures thrown.Some? ==> page == start + UntilFault(Flatten(runs), env.faults)
    {
      thrown := None;
      if !Images.Present(inv.images.footerImage) {
        RunAdvance(start, runs, k, page, page, env.faults);
        return;
      }
      var embedded := Embed(env, inv.images.footerImage.value);
      if embedded.None? {
        RunAdvance(start, runs, k, page, page, env.faults);
        return;
      }
      var e := embedded.value;
      var x := Pos(env, inv, "footer-image", "x", env.width / 2.0);
      var y := Pos(env, inv, "footer-image", "y", 100.0);
      var size := Pos(env, inv, "footer-image", "size", 1.0);
      var w := FitWidth(env.width - 40.0, e, size);
      var h := ScaledHeight(e, w);
      thrown := DrawNext(start, runs, k, DrawImage(e, x - w / 2.0, y, w, h, None));
    }

    method RenderPaymentInfo(inv: InvoiceFields, font: Font, ghost start: seq<DrawOp>, ghost runs: seq<seq<DrawOp>>,
                             ghost k: nat)
      returns (thrown: Option<string>)
      requires k < |runs| && runs[k] == PaymentInfoOps(env, inv, font)
      requires page == start + Flatten(runs[..k]) && NoFault(Flatten(runs[..k]), env.faults)
      modifies this
      ensures thrown.None? ==> page == start + Flatten(runs[..k + 1]) && NoFault(Flatten(runs[..k + 1]), env.faults)
      ensures thrown.Some? ==> page == start + UntilFault(Flatten(runs), env.faults)
    {
      thrown := None;
      if inv.paymentInfo != "" {
        var x := Pos(env, inv, "payment-info", "x", 50.0);
        var y := Pos(env, inv, "payment-info", "y", 150.0);
        thrown := DrawNext(start, runs, k, DrawText(Plain(NewlinesToSpaces(inv.paymentInfo)), x, y, 10.0, font,
                                                    None, None, None));
      } else {
        RunAdvance(start, runs, k, page, page, env.faults);
      }
    }

    method RenderFooterNumber(inv: InvoiceFields, font: Font, ghost start: seq<DrawOp>, ghost runs: seq<seq<DrawOp>>,
                              ghost k: nat)
      returns (thrown: Option<string>)
      requires k < |runs| && runs[k] == FooterNumberOps(env, inv, font)
      requires page == start + Flatten(runs[..k]) && NoFault(Flatten(runs[..k]), env.faults)
      modifies this
      ensures thrown.None? ==> page == start + Flatten(runs[..k + 1]) && NoFault(Flatten(runs[..k + 1]), env.faults)
      ensures thrown.Some? ==> page == start + UntilFault(Flatten(runs), env.faults)
    {
      thrown := None;
      if inv.footerNumber != "" {
        var x := Pos(env, inv, "footer-number", "x", 297.5);
        var y := Pos(env, inv, "footer-number", "y", 50.0);
        thrown := DrawNext(start, runs, k, DrawText(Plain(inv.footerNumber), x - |inv.footerNumber| as real * 3.0, y,
                                                    10.0, font, None, None, None));
      } else {
        RunAdvance(start, runs, k, page, page, env.faults);
      }
    }

    method RenderSlogan(inv: InvoiceFields, font: Font, ghost start: seq<DrawOp>, ghost runs: seq<seq<DrawOp>>,
                        ghost k: nat)
      returns (thrown: Option<string>)
      requires k < |runs| && runs[k] == SloganOps(env, inv, font)
      requires page == start + Flatten(runs[..k]) && NoFault(Flatten(runs[..k]), env.faults)
      modifies this
      ensures thrown.None? ==> page == start + Flatten(runs[..k + 1]) && NoFault(Flatten(runs[..k + 1]), env.faults)
      ensures thrown.Some? ==> page == start + UntilFault(Flatten(runs), env.faults)
    {
      thrown := None;
      if inv.slogan != "" {
        var x := Pos(env, inv, "slogan", "x", 297.5);
        var y := Pos(env, inv, "slogan", "y", 30.0);
        thrown := DrawNext(start, runs, k, DrawText(Plain(inv.slogan), x - |inv.slogan| as real * 3.0, y, 8.0, font,
                                                    Some(Gray(0.5)), None, None));
      } else {
        RunAdvance(start, runs, k, page, page, env.faults);
      }
    }

    method RenderSignature(inv: InvoiceFields)
      modifies this
      ensures page == old(page) + UntilFault(SignatureOps(env, inv), env.faults)
    {
      if !inv.images.HasSignature() {
        return;
      }
      var embedded := Embed(env, inv.images.signatureImage.value);
      if embedded.None? {
        return;
      }
      var e := embedded.value;
      var x := Pos(env, inv, "signature", "x", 400.0);
      var y := Pos(env, inv, "signature", "y", 120.0);
      var size := Pos(env, inv, "signature", "size", 1.0);
      var w := FitWidth(150.0, e, size);
      var h := ScaledHeight(e, w);
      var thrown := Draw(DrawImage(e, x, y, w, h, None));
    }

    /** The two lines of the empty state; the message of the first call that throws, if any. */
    method RenderEmptyState(font: Font) returns (thrown: Option<string>)
      modifies this
      ensures thrown == FirstFault(EmptyStateOps(env, font), env.faults)
      ensures page == old(page) + UntilFault(EmptyStateOps(env, font), env.faults)
    {
      ghost var ops := EmptyStateOps(env, font);
      ghost var runs := Singles(ops);
      FlattenSingles(ops);
      assert runs[..0] == [];
      assert ops[1..] == [ops[1]] && ops[1..][1..] == [];
      thrown := DrawNext(old(page), runs, 0,
                         DrawText(Plain("Facture vide - Ajoutez des composants pour voir le contenu"),
                                  env.width / 2.0 - 200.0, env.height / 2.0, 14.0, font, Some(Gray(0.5)), None, None));
      if thrown.Some? {
        return;
      }
      thrown := DrawNext(old(page), runs, 1,
                         DrawText(Plain("Généré le: " + env.today), env.width / 2.0 - 80.0, env.height / 2.0 - 30.0,
                                  10.0, font, Some(Gray(0.7)), None, None));
      if thrown.Some? {
        return;
      }
      RunsDone(runs, env.faults);
    }
  
    // ----- Custom components -----

    /** `renderComponents`: every component in its own try; one that throws loses only its own tail. */
    method RenderComponents(cs: seq<Component>, font: Font)
      modifies this
      ensures page == old(page) + ComponentsDrawn(env, cs, font)
    {
      for i := 0 to |cs|
        invariant page == old(page) + ComponentsDrawn(env, cs[..i], font)
      {
        RenderComponent(cs[i], font);
        assert cs[..i + 1][..i] == cs[..i];
        AppendAssoc(old(page), ComponentsDrawn(env, cs[..i], font), UntilFault(ComponentOps(env, cs[i], font), env.faults));
      }
      assert cs[..|cs|] == cs;
    }

    /** `renderComponent`: the position is measured from the top of the page, (50, 50) when missing. */
    method RenderComponent(c: Component, font: Font)
      modifies this
      ensures page == old(page) + UntilFault(ComponentOps(env, c, font), env.faults)
    {
      var pos := c.position.GetOr(Point(50.0, 50.0));
      var x := pos.x;
      var y := env.height - pos.y;
      RenderKind(c, x, y, font);
    }

    method RenderKind(c: Component, x: real, y: real, font: Font)
      modifies this
      ensures page == old(page) + UntilFault(KindOps(env, c, font, x, y), env.faults)
    {
      match c.kind
      case Text | InvoiceData =>
        RenderText(c, x, y, font);
      case Separator =>
        RenderSeparator(c, x, y);
      case Pager =>
        RenderPager(c, x, y, font);
      case InvoiceDates =>
        if c.dates.Some? {
          RenderComponentDates(c.dates.value, x, y, font);
        }
      case InvoiceTable =>
        if |c.rows| > 0 {
          RenderCustomTable(c.rows, x, y, font);
        }
      case InvoiceSummary =>
        if c.summary.Some? {
          RenderCustomSummary(c.summary.value, x, y, font);
        }
      case Image =>
        if c.imageData != "" {
          RenderCustomImage(c.imageData, x, y, c.size);
        }
      case Unknown(_) =>
    }

    method RenderText(c: Component, x: real, y: real, font: Font)
      modifies this
      ensures page == old(page) + UntilFault(TextOps(c, font, x, y), env.faults)
    {
      if c.content != "" {
        var thrown := Draw(DrawText(Plain(c.content), x, y, 10.0, font, Some(Black), Some(WidthOr(c.size, 200.0)),
                                    Some(15.0)));
      }
    }

    method RenderSeparator(c: Component, x: real, y: real)
      modifies this
      ensures page == old(page) + UntilFault(SeparatorOps(c, x, y), env.faults)
    {
      var ops := SeparatorOps(c, x, y);
      assert ops == [ops[0]];
      var thrown := Draw(ops[0]);
    }

    method RenderPager(c: Component, x: real, y: real, font: Font)
      modifies this
      ensures page == old(page) + UntilFault(PagerOps(c, font, x, y), env.faults)
    {
      var format := TextOr(c.format, DefaultPagerFormat);
      var thrown := Draw(DrawText(Plain(PagerText(format)), x, y, 10.0, font, Some(Gray(0.5)), None, None));
    }

    method RenderComponentDates(dates: Dates, x: real, y: real, font: Font)
      modifies this
      ensures page == old(page) + UntilFault(ComponentDatesOps(dates, font, x, y), env.faults)
    {
      ghost var runs := Singles(ComponentDatesOps(dates, font, x, y));
      FlattenSingles(ComponentDatesOps(dates, font, x, y));
      assert runs[..0] == [];
      var thrown := DrawNext(old(page), runs, 0, DrawText(Plain("Date de la facture: " + dates.invoiceDate), x, y,
                                                          10.0, font, Some(Black), None, None));
      if thrown.Some? {
        return;
      }
      thrown := DrawNext(old(page), runs, 1, DrawText(Plain("Date d'échéance: " + dates.dueDate), x, y - 20.0, 10.0,
                                                      font, Some(Black), None, None));
      if thrown.Some? {
        return;
      }
      RunsDone(runs, env.faults);
    }

    /** `renderCustomTable`: headers along the top, a rule, then one line of five cells per row. */
    method RenderCustomTable(rows: seq<Row>, x: real, y: real, font: Font)
      modifies this
      ensures page == old(page) + UntilFault(CustomTableOps(rows, font, x, y), env.faults)
    {
      if |rows| == 0 {
        return;
      }
      var thrown := RenderCustomHead(rows, x, y, font);
      if thrown.Some? {
        return;
      }
      ghost var runs := CustomTableRuns(rows, font, x, y);
      forall j | 6 <= j < |runs|
        ensures runs[j] == CustomRowOps(rows[j - 6], font, x, CustomRowY(y, j - 6))
      {
      }
      RenderCustomRows(rows, x, y, font, runs, old(page));
    }

    /** The five headers, each at the sum of the widths of the columns before it, then the rule. */
    method RenderCustomHead(rows: seq<Row>, x: real, y: real, font: Font) returns (thrown: Option<string>)
      requires |rows| > 0
      modifies this
      ensures thrown.None? ==> page == old(page) + Flatten(CustomTableRuns(rows, font, x, y)[..6])
                               && NoFault(Flatten(CustomTableRuns(rows, font, x, y)[..6]), env.faults)
      ensures thrown.Some? ==> page == old(page) + UntilFault(CustomTableOps(rows, font, x, y), env.faults)
    {
      ghost var runs := CustomTableRuns(rows, font, x, y);
      assert runs[..0] == [];
      var currentY := y;
      var i := 0;
      while i < |CustomHeaders|
        invariant 0 <= i <= 5
        invariant page == old(page) + Flatten(runs[..i]) && NoFault(Flatten(runs[..i]), env.faults)
      {
        var offset := if i > 0 then Total(ColumnWidths[..i]) else 0.0;
        thrown := DrawNext(old(page), runs, i, DrawText(Plain(CustomHeaders[i]), x + offset, currentY, 10.0, font,
                                                        Some(Black), None, None));
        if thrown.Some? {
          return;
        }
        i := i + 1;
      }
      currentY := currentY - 15.0;
      thrown := DrawNext(old(page), runs, 5, DrawLine(x, currentY + 5.0, x + Total(ColumnWidths), currentY + 5.0, 1.0,
                                                      Gray(0.8)));
    }

    /** The rows, 25 points below the headers and 25 points apart. */
    method RenderCustomRows(rows: seq<Row>, x: real, y: real, font: Font, ghost runs: seq<seq<DrawOp>>,
                            ghost start: seq<DrawOp>)
      requires |runs| == 6 + |rows|
      requires forall j :: 6 <= j < |runs| ==> runs[j] == CustomRowOps(rows[j - 6], font, x, CustomRowY(y, j - 6))
      requires page == start + Flatten(runs[..6]) && NoFault(Flatten(runs[..6]), env.faults)
      modifies this
      ensures page == start + UntilFault(Flatten(runs), env.faults)
    {
      var currentY := y - 15.0 - 10.0;
      var k := 0;
      while k < |rows|
        invariant 0 <= k <= |rows|
        invariant currentY == CustomRowY(y, k)
        invariant page == start + Flatten(runs[..6 + k]) && NoFault(Flatten(runs[..6 + k]), env.faults)
      {
        assert runs[6 + k] == CustomRowOps(rows[k], font, x, currentY);
        ghost var before := page;
        var thrown := RenderCustomRow(rows[k], x, currentY, font);
        RunAdvance(start, runs, 6 + k, before, page, env.faults);
        if thrown.Some? {
          return;
        }
        currentY := currentY - 25.0;
        k := k + 1;
      }
      RunsDone(runs, env.faults);
    }

    method RenderCustomRow(row: Row, x: real, y: real, font: Font) returns (thrown: Option<string>)
      modifies this
      ensures thrown.None? <==> NoFault(CustomRowOps(row, font, x, y), env.faults)
      ensures page == old(page) + UntilFault(CustomRowOps(row, font, x, y), env.faults)
    {
      ghost var runs := Singles(CustomRowOps(row, font, x, y));
      FlattenSingles(CustomRowOps(row, font, x, y));
      assert runs[..0] == [];
      thrown := DrawNext(old(page), runs, 0, DrawText(Plain(row.description), x, y, 10.0, font, None,
                                                      Some(ColumnWidths[0] - 5.0), None));
      if thrown.Some? {
        return;
      }
      thrown := DrawNext(old(page), runs, 1, DrawText(Shown("", row.quantity, ""), x + ColumnWidths[0], y, 10.0, font,
                                                      None, None, None));
      if thrown.Some? {
        return;
      }
      thrown := DrawNext(old(page), runs, 2, DrawText(Fixed("", row.unitPrice, 2, " €"),
                                                      x + ColumnWidths[0] + ColumnWidths[1], y, 10.0, font,
                                                      None, None, None));
      if thrown.Some? {
        return;
      }
      thrown := DrawNext(old(page), runs, 3, DrawText(Shown("", row.tax, "%"),
                                                      x + ColumnWidths[0] + ColumnWidths[1] + ColumnWidths[2], y,
                                                      10.0, font, None, None, None));
      if thrown.Some? {
        return;
      }
      thrown := DrawNext(old(page), runs, 4, DrawText(Fixed("", row.total, 2, " €"),
                                                      x + ColumnWidths[0] + ColumnWidths[1] + ColumnWidths[2]
                                                      + ColumnWidths[3], y, 10.0, font, None, None, None));
      if thrown.Some? {
        return;
      }
      RunsDone(runs, env.faults);
      UntilFaultExact(Flatten(runs), env.faults);
    }

    /** `renderCustomSummary`: subtotal, tax, a rule and the total, 20 points apart. */
    method RenderCustomSummary(summary: Summary, x: real, y: real, font: Font)
      modifies this
      ensures page == old(page) + UntilFault(CustomSummaryOps(summary, font, x, y), env.faults)
    {
      var currentY := y;
      ghost var runs := Singles(CustomSummaryOps(summary, font, x, y));
      FlattenSingles(CustomSummaryOps(summary, font, x, y));
      assert runs[..0] == [];
      var thrown := DrawNext(old(page), runs, 0, DrawText(Plain("Sous-total:"), x, currentY, 10.0, font, None, None,
                                                          None));
      if thrown.Some? {
        return;
      }
      thrown := DrawNext(old(page), runs, 1, DrawText(Fixed("", summary.subtotal, 2, " €"), x + 150.0, currentY, 10.0,
                                                      font, None, None, None));
      if thrown.Some? {
        return;
      }
      currentY := currentY - 20.0;
      thrown := DrawNext(old(page), runs, 2, DrawText(Shown("TVA (", summary.taxRate, "%):"), x, currentY, 10.0, font,
                                                      None, None, None));
      if thrown.Some? {
        return;
      }
      thrown := DrawNext(old(page), runs, 3, DrawText(Fixed("", summary.taxAmount, 2, " €"), x + 150.0, currentY,
                                                      10.0, font, None, None, None));
      if thrown.Some? {
        return;
      }
      RenderCustomTotal(summary, x, y, currentY - 20.0, font, old(page), runs);
    }

    /** The rule 10 points above the total line at `currentY`, then the total in 12 points. */
    method RenderCustomTotal(summary: Summary, x: real, y: real, currentY: real, font: Font, ghost start: seq<DrawOp>,
                             ghost runs: seq<seq<DrawOp>>)
      requires currentY == y - 40.0
      requires runs == Singles(CustomSummaryOps(summary, font, x, y))
      requires Flatten(runs) == CustomSummaryOps(summary, font, x, y)
      requires page == start + Flatten(runs[..4]) && NoFault(Flatten(runs[..4]), env.faults)
      modifies this
      ensures page == start + UntilFault(CustomSummaryOps(summary, font, x, y), env.faults)
    {
      var thrown := DrawNext(start, runs, 4, DrawLine(x, currentY + 10.0, x + 180.0, currentY + 10.0, 1.0, Gray(0.8)));
      if thrown.Some? {
        return;
      }
      thrown := DrawNext(start, runs, 5, DrawText(Plain("Total:"), x, currentY, 12.0, font, Some(Black), None, None));
      if thrown.Some? {
        return;
      }
      thrown := DrawNext(start, runs, 6, DrawText(Fixed("", summary.total, 2, " €"), x + 150.0, currentY, 12.0, font,
                                                  Some(Black), None, None));
      if thrown.Some? {
        return;
      }
      RunsDone(runs, env.faults);
    }

    /** `renderCustomImage`: 100 points wide unless the component is sized, hanging below its anchor. */
    method RenderCustomImage(data: string, x: real, y: real, size: Option<Size>)
      modifies this
      ensures page == old(page) + UntilFault(CustomImageOps(env, data, x, y, size), env.faults)
    {
      var embedded := Embed(env, data);
      if embedded.None? {
        return;
      }
      var e := embedded.value;
      var w := WidthOr(size, 100.0);
      var h := if size.Some? && size.value.height != 0.0 then size.value.height else ScaledHeight(e, w);
      var thrown := Draw(DrawImage(e, x, y - h, w, h, None));
    }

    // ----- The whole page -----

    /** The catch of `render`: the message in red, in Helvetica; `completed` is false when that throws too. */
    method RenderError(message: string) returns (completed: bool)
      modifies this
      ensures page == Recover(env, old(page), message).drawn
      ensures completed == Recover(env, old(page), message).completed
    {
      var thrown := Draw(ErrorOp(env, message));
      completed := thrown.None?;
    }

    method RenderTop(inv: InvoiceFields, font: Font)
      modifies this
      ensures page == old(page) + TopSections(env, inv, font)
    {
      var f := env.faults;
      RenderWatermark(inv);
      ghost var drawn := UntilFault(WatermarkOps(env, inv), f);
      RenderHeader(inv);
      AppendAssoc(old(page), drawn, UntilFault(HeaderOps(env, inv), f));
      drawn := drawn + UntilFault(HeaderOps(env, inv), f);
      RenderModel(inv);
      AppendAssoc(old(page), drawn, UntilFault(ModelOps(inv), f));
      drawn := drawn + UntilFault(ModelOps(inv), f);
      RenderLogo(inv);
      AppendAssoc(old(page), drawn, UntilFault(LogoOps(env, inv), f));
      drawn := drawn + UntilFault(LogoOps(env, inv), f);
      RenderCompanyDetails(inv, font);
      AppendAssoc(old(page), drawn, UntilFault(CompanyDetailsOps(env, inv, font), f));
      drawn := drawn + UntilFault(CompanyDetailsOps(env, inv, font), f);
      RenderClientDetails(inv, font);
      AppendAssoc(old(page), drawn, UntilFault(ClientDetailsOps(env, inv, font), f));
      drawn := drawn + UntilFault(ClientDetailsOps(env, inv, font), f);
      RenderInvoiceTitle(inv, font);
      AppendAssoc(old(page), drawn, UntilFault(InvoiceTitleOps(env, inv, font), f));
      drawn := drawn + UntilFault(InvoiceTitleOps(env, inv, font), f);
      RenderDates(inv, font);
      AppendAssoc(old(page), drawn, UntilFault(DatesOps(env, inv, font), f));
    }

    method RenderBottom(inv: InvoiceFields, font: Font)
      modifies this
      ensures page == old(page) + BottomSections(env, inv, font)
    {
      var f := env.faults;
      RenderItemsTable(inv, font);
      ghost var drawn := UntilFault(ItemsTableOps(env, inv, font), f);
      RenderSummary(inv, font);
      AppendAssoc(old(page), drawn, UntilFault(SummaryOps(env, inv, font), f));
      drawn := drawn + UntilFault(SummaryOps(env, inv, font), f);
      RenderFooter(inv, font);
      AppendAssoc(old(page), drawn, UntilFault(FooterOps(env, inv, font), f));
      drawn := drawn + UntilFault(FooterOps(env, inv, font), f);
      RenderSignature(inv);
      AppendAssoc(old(page), drawn, UntilFault(SignatureOps(env, inv), f));
    }

    /**
     * `render(invoice)`: the border, the sections, the custom components and, for an empty
     * invoice, the empty-state text; a throw from the border or the empty-state text is caught
     * and reported on the page. `completed` is false when reporting it throws as well.
     */
    method Render(inv: InvoiceFields) returns (completed: bool)
      modifies this
      ensures page == old(page) + Rendered(env, inv).drawn
      ensures completed == Rendered(env, inv).completed
    {
      var font := GetFont(inv.font);
      var thrown := RenderPageBorder();
      UntilFaultOne(BorderOp(env), env.faults);
      if thrown.Some? {
        assert old(page) + [] == old(page);
        completed := RenderError(thrown.value);
        return;
      }
      RenderSections(inv, font);
      AppendAssoc(old(page), [BorderOp(env)], Sections(env, inv, font));
      completed := RenderClosing(inv, font, old(page), Body(env, inv, font));
    }

    /** Every section in its own try, then the custom components when the invoice has a list of them. */
    method RenderSections(inv: InvoiceFields, font: Font)
      modifies this
      ensures page == old(page) + Sections(env, inv, font)
    {
      RenderTop(inv, font);
      RenderBottom(inv, font);
      AppendAssoc(old(page), TopSections(env, inv, font), BottomSections(env, inv, font));
      RenderCustom(inv, font);
      AppendAssoc(old(page), TopSections(env, inv, font) + BottomSections(env, inv, font), CustomDrawn(env, inv, font));
    }

    method RenderCustom(inv: InvoiceFields, font: Font)
      modifies this
      ensures page == old(page) + CustomDrawn(env, inv, font)
    {
      if inv.components.Some? {
        RenderComponents(inv.components.value, font);
      } else {
        assert page + [] == page;
      }
    }

    /** The empty-state text for an empty invoice; when it throws, the catch of `render` reports it. */
    method RenderClosing(inv: InvoiceFields, font: Font, ghost start: seq<DrawOp>, ghost body: seq<DrawOp>)
      returns (completed: bool)
      requires page == start + body
      modifies this
      ensures page == start + Closing(env, inv, font, body).drawn
      ensures completed == Closing(env, inv, font, body).completed
    {
      completed := true;
      if IsEmpty(inv) {
        var thrown := RenderEmptyState(font);
        AppendAssoc(start, body, UntilFault(EmptyStateOps(env, font), env.faults));
        UntilFaultExact(EmptyStateOps(env, font), env.faults);
        if thrown.Some? {
          AppendAssoc(start, body + UntilFault(EmptyStateOps(env, font), env.faults), [ErrorOp(env, thrown.value)]);
          completed := RenderError(thrown.value);
        }
      }
    }
  }

  // ----- What the renderer promises -----

  /** Every call of every section, drawn in full, in the order `render` calls them. */
  function AllSectionOps(env: Env, inv: InvoiceFields, font: Font): seq<DrawOp> {
    TopOps(env, inv, font) + BottomOps(env, inv, font)
    + (if inv.components.Some? then AllComponentOps(env, inv.components.value, font) else [])
  }

  function TopOps(env: Env, inv: InvoiceFields, font: Font): seq<DrawOp> {
    WatermarkOps(env, inv) + HeaderOps(env, inv) + ModelOps(inv) + LogoOps(env, inv)
    + CompanyDetailsOps(env, inv, font) + ClientDetailsOps(env, inv, font) + InvoiceTitleOps(env, inv, font)
    + DatesOps(env, inv, font)
  }

  function BottomOps(env: Env, inv: InvoiceFields, font: Font): seq<DrawOp> {
    ItemsTableOps(env, inv, font) + SummaryOps(env, inv, font) + FooterOps(env, inv, font) + SignatureOps(env, inv)
  }

  /** Every call of every component, in order. */
  function AllComponentOps(env: Env, cs: seq<Component>, font: Font): seq<DrawOp> {
    if cs == [] then [] else AllComponentOps(env, cs[..|cs| - 1], font) + ComponentOps(env, cs[|cs| - 1], font)
  }

  lemma UntilFaultNever(ops: seq<DrawOp>, faults: Faults)
    requires forall op :: faults(op).None?
    ensures UntilFault(ops, faults) == ops && NoFault(ops, faults)
  {
    UntilFaultExact(ops, faults);
  }

  lemma {:induction false} ComponentsNeverFault(env: Env, cs: seq<Component>, font: Font)
    requires forall op :: env.faults(op).None?
    ensures ComponentsDrawn(env, cs, font) == AllComponentOps(env, cs, font)
    decreases |cs|
  {
    if cs != [] {
      ComponentsNeverFault(env, cs[..|cs| - 1], font);
      UntilFaultNever(ComponentOps(env, cs[|cs| - 1], font), env.faults);
    }
  }

  /**
   * With no drawing call throwing, the page is the border, every section in full in order,
   * the custom components, and the empty-state text exactly when the invoice is empty.
   */
  lemma RenderNoFault(env: Env, inv: InvoiceFields)
    requires forall op :: env.faults(op).None?
    ensures var font := GetFont(inv.font);
            Rendered(env, inv) == Rendering([BorderOp(env)] + AllSectionOps(env, inv, font)
                                            + (if IsEmpty(inv) then EmptyStateOps(env, font) else []), true)
  {
    var font := GetFont(inv.font);
    TopNoFault(env, inv, font);
    BottomNoFault(env, inv, font);
    if inv.components.Some? {
      ComponentsNeverFault(env, inv.components.value, font);
    }
    assert Sections(env, inv, font) == AllSectionOps(env, inv, font);
    assert Rendered(env, inv) == Closing(env, inv, font, Body(env, inv, font));
    ClosingNoFault(env, inv, font, Body(env, inv, font));
  }

  lemma ClosingNoFault(env: Env, inv: InvoiceFields, font: Font, body: seq<DrawOp>)
    requires forall op :: env.faults(op).None?
    ensures Closing(env, inv, font, body) == Rendering(body + (if IsEmpty(inv) then EmptyStateOps(env, font) else []), true)
  {
    UntilFaultNever(EmptyStateOps(env, font), env.faults);
    assert body + [] == body;
  }

  lemma TopNoFault(env: Env, inv: InvoiceFields, font: Font)
    requires forall op :: env.faults(op).None?
    ensures TopSections(env, inv, font) == TopOps(env, inv, font)
  {
    var f := env.faults;
    UntilFaultNever(WatermarkOps(env, inv), f);
    UntilFaultNever(HeaderOps(env, inv), f);
    UntilFaultNever(ModelOps(inv), f);
    UntilFaultNever(LogoOps(env, inv), f);
    UntilFaultNever(CompanyDetailsOps(env, inv, font), f);
    UntilFaultNever(ClientDetailsOps(env, inv, font), f);
    UntilFaultNever(InvoiceTitleOps(env, inv, font), f);
    UntilFaultNever(DatesOps(env, inv, font), f);
  }

  lemma BottomNoFault(env: Env, inv: InvoiceFields, font: Font)
    requires forall op :: env.faults(op).None?
    ensures BottomSections(env, inv, font) == BottomOps(env, inv, font)
  {
    var f := env.faults;
    UntilFaultNever(ItemsTableOps(env, inv, font), f);
    UntilFaultNever(SummaryOps(env, inv, font), f);
    UntilFaultNever(FooterOps(env, inv, font), f);
    UntilFaultNever(SignatureOps(env, inv), f);
  }

  /**
   * When the border call throws, nothing else is drawn: the page holds only the red error
   * text at (50, height - 100) with the border's message, or nothing when that call throws too.
   */
  lemma RenderBorderFault(env: Env, inv: InvoiceFields)
    requires env.faults(BorderOp(env)).Some?
    ensures var message := env.faults(BorderOp(env)).value;
            Rendered(env, inv) == if env.faults(ErrorOp(env, message)).None?
                                  then Rendering([ErrorOp(env, message)], true) else Rendering([], false)
  {
  }

  /** When the border goes through, it is the first call on the page, and the error text is drawn only for an empty invoice. */
  lemma RenderBorderFirst(env: Env, inv: InvoiceFields)
    requires env.faults(BorderOp(env)).None?
    ensures |Rendered(env, inv).drawn| > 0 && Rendered(env, inv).drawn[0] == BorderOp(env)
    ensures !IsEmpty(inv) ==> Rendered(env, inv) == Rendering(Body(env, inv, GetFont(inv.font)), true)
  {
    var font := GetFont(inv.font);
    var body := Body(env, inv, font);
    assert body[0] == BorderOp(env);
    assert Rendered(env, inv) == Closing(env, inv, font, body);
    ClosingKeepsBody(env, inv, font, body);
  }

  /** Whatever the closing adds, it comes after the body. */
  lemma ClosingKeepsBody(env: Env, inv: InvoiceFields, font: Font, body: seq<DrawOp>)
    ensures |Closing(env, inv, font, body).drawn| >= |body| && Closing(env, inv, font, body).drawn[..|body|] == body
  {
    var empty := EmptyStateOps(env, font);
    var r := Closing(env, inv, font, body);
    if IsEmpty(inv) && !NoFault(empty, env.faults) {
      var cut := body + UntilFault(empty, env.faults);
      assert r.drawn[..|cut|] == cut;
      assert cut[..|body|] == body;
    } else {
      assert (body + empty)[..|body|] == body;
    }
  }

  /**
   * An invoice built by the `Invoice` constructor is never empty, since its number defaults
   * to "INV-001"; so its page never shows the empty-state text.
   */
  lemma ConstructedNeverEmpty(parse: Parser, input: InvoiceInput, today: Day, due: Day)
    ensures !IsEmpty(Construct(parse, input, today, due))
  {
  }

  /**
   * Without items, neither the items table nor the totals are drawn; with items the headers
   * always are, and the totals exactly when every entry is an `InvoiceItem`.
   */
  lemma NoItemsNoTable(env: Env, inv: InvoiceFields, font: Font)
    ensures ItemsTableOps(env, inv, font) == [] <==> |inv.items| == 0
    ensures SummaryOps(env, inv, font) == [] <==> |inv.items| == 0 || !AllBuilt(inv.items)
  {
    if |inv.items| > 0 {
      var runs := ItemsTableRuns(env, inv, font);
      FlattenAround(runs, 0);
    }
  }

  predicate AllText(ops: seq<DrawOp>) {
    forall i :: 0 <= i < |ops| ==> ops[i].DrawText?
  }

  lemma {:induction false} FlattenAllText(parts: seq<seq<DrawOp>>)
    requires forall k :: 0 <= k < |parts| ==> AllText(parts[k])
    ensures AllText(Flatten(parts))
    decreases |parts|
  {
    if parts != [] {
      var n := |parts| - 1;
      FlattenAllText(parts[..n]);
      var a: seq<DrawOp>, b: seq<DrawOp> := Flatten(parts[..n]), parts[n];
      forall i | 0 <= i < |a + b| ensures (a + b)[i].DrawText? {
        if i < |a| { assert (a + b)[i] == a[i]; } else { assert (a + b)[i] == b[i - |a|]; }
      }
    }
  }

  /**
   * Item row k starts with the item's description at the left of its baseline, and has a
   * rectangle behind it exactly when the model is "striped" and k is odd.
   */
  lemma ItemRowShape(inv: InvoiceFields, font: Font, k: nat, y: real)
    requires k < |inv.items| && inv.items[k].Built?
    ensures var ops := ItemRowOps(inv, font, k, y);
            |ops| > 0 && ops[0] == DrawText(Plain(inv.items[k].item.description), 50.0, y, 10.0, font, None, None, None)
    ensures (exists i :: 0 <= i < |ItemRowOps(inv, font, k, y)| && ItemRowOps(inv, font, k, y)[i].DrawRectangle?)
            <==> inv.model == "striped" && k % 2 == 1
  {
    var runs := ItemRowRuns(inv, font, k, y);
    var ops := Flatten(runs);
    FlattenAround(runs, 0);
    assert runs[..0] == [];
    FlattenAround(runs, 6);
    assert runs[7..] == [];
    FlattenAllText(runs[..6]);
    var text := Flatten(runs[..6]);
    assert ops == text + runs[6];
    if Striped(inv, k) {
      assert ops[|text|] == runs[6][0];
    } else {
      assert ops == text;
    }
  }

  /**
   * Item rows of the table: the first hangs 30 points below the headers, each further one 40
   * points below the one before, and every call of a row is a text or a stripe starting in
   * one of the header columns; a stripe ends where the rule under the headers ends.
   */
  lemma ItemRowsLayout(env: Env, inv: InvoiceFields, font: Font, k: nat)
    requires k < BuiltPrefix(inv.items)
    ensures var runs := ItemsTableRuns(env, inv, font);
            |runs[6 + k]| > 0 && runs[6 + k][0].DrawText? && runs[0][0].DrawText?
            && (k == 0 ==> runs[6][0].y == runs[0][0].y - 30.0)
            && (k > 0 ==> |runs[5 + k]| > 0 && runs[5 + k][0].DrawText? && runs[6 + k][0].y == runs[5 + k][0].y - 40.0)
    ensures var row := ItemsTableRuns(env, inv, font)[6 + k];
            forall i :: 0 <= i < |row| ==>
              (row[i].DrawText? || row[i].DrawRectangle?) && row[i].x in TableX
              && (row[i].DrawRectangle? ==> row[i].x + row[i].width == ItemsTableRuns(env, inv, font)[5][0].x2)
  {
    var y := Pos(env, inv, "items-table", "y", env.height - 280.0);
    var runs := ItemsTableRuns(env, inv, font);
    assert runs[6 + k] == ItemRowOps(inv, font, k, RowY(y, k));
    ItemRowShape(inv, font, k, RowY(y, k));
    if k > 0 {
      assert runs[5 + k] == ItemRowOps(inv, font, k - 1, RowY(y, k - 1));
      ItemRowShape(inv, font, k - 1, RowY(y, k - 1));
    }
    var parts := ItemRowRuns(inv, font, k, RowY(y, k));
    var inColumns := (op: DrawOp) =>
      (op.DrawText? || op.DrawRectangle?) && op.x in TableX && (op.DrawRectangle? ==> op.x + op.width == 545.0);
    FlattenEvery(parts, inColumns);
  }

  lemma {:induction false} FlattenEvery(parts: seq<seq<DrawOp>>, p: DrawOp -> bool)
    requires forall r, i :: 0 <= r < |parts| && 0 <= i < |parts[r]| ==> p(parts[r][i])
    ensures forall i :: 0 <= i < |Flatten(parts)| ==> p(Flatten(parts)[i])
    decreases |parts|
  {
    if parts != [] {
      var n := |parts| - 1;
      FlattenEvery(parts[..n], p);
      var a: seq<DrawOp>, b: seq<DrawOp> := Flatten(parts[..n]), parts[n];
      forall i | 0 <= i < |a + b| ensures p((a + b)[i]) {
        if i < |a| { assert (a + b)[i] == a[i]; } else { assert (a + b)[i] == b[i - |a|]; }
      }
    }
  }

  /**
   * Rows of a custom table: the first 25 points below its headers, each further one 25 points
   * below the one before, and the five cells of a row on one baseline, each `ColumnOffset`
   * right of the table's anchor.
   */
  lemma CustomRowsLayout(rows: seq<Row>, font: Font, x: real, y: real, k: nat)
    requires k < |rows|
    ensures var runs := CustomTableRuns(rows, font, x, y);
            |runs[6 + k]| == 5 && runs[0][0].DrawText?
            && (k == 0 ==> runs[6][0].y == runs[0][0].y - 25.0)
            && (k > 0 ==> |runs[5 + k]| == 5 && runs[6 + k][0].y == runs[5 + k][0].y - 25.0)
            && forall i :: 0 <= i < 5 ==>
                 runs[6 + k][i].DrawText? && runs[6 + k][i].x == x + ColumnOffset(i) && runs[6 + k][i].y == runs[6 + k][0].y
  {
    CustomColumns(rows[k], font, x, CustomRowY(y, k), y);
  }

  /** When the totals block is drawn, the total under it is the subtotal plus the tax drawn above it. */
  lemma SummaryAddsUp(env: Env, inv: InvoiceFields, font: Font)
    ensures var ops := SummaryOps(env, inv, font);
            ops != [] ==> |ops| == 7 && ops[6].content.value == ops[1].content.value + ops[3].content.value
  {
    TotalIsScaledSubtotal(inv);
  }

  /**
   * The table of an invoice fresh from the constructor, whose items are the request's plain
   * records: with items, only the five headers and the rule, and no totals block.
   */
  lemma ConstructedTableHeadersOnly(env: Env, parse: Parser, input: InvoiceInput, today: Day, due: Day, font: Font)
    ensures var inv := Construct(parse, input, today, due);
            var table := ItemsTableOps(env, inv, font);
            (input.items == [] ==> table == [])
            && (input.items != [] ==> |table| == 6 && (forall i :: 0 <= i < 5 ==> table[i].DrawText?)
                                      && table[5].DrawLine?)
            && SummaryOps(env, inv, font) == []
  {
    var inv := Construct(parse, input, today, due);
    ConstructedCannotTotal(parse, input, today, due);
    if input.items != [] {
      assert inv.items[0].Raw?;
      var runs := ItemsTableRuns(env, inv, font);
      var y := Pos(env, inv, "items-table", "y", env.height - 280.0);
      var heads := seq(5, i requires 0 <= i < 5 => ItemsHeader(font, y, i));
      assert |runs| == 6;
      assert Flatten(runs) == Flatten(runs[..5]) + runs[5] by {
        assert runs[..5] == runs[..|runs| - 1];
      }
      assert runs[..5] == Singles(heads);
      FlattenSingles(heads);
    }
  }

  /**
   * The custom table's columns start 0, 200, 250, 320 and 370 points right of its anchor,
   * its rule is 440 points long, and every cell of a row sits under its column's header.
   */
  lemma CustomColumns(row: Row, font: Font, x: real, y: real, headerY: real)
    ensures ColumnOffset(0) == 0.0 && ColumnOffset(1) == 200.0 && ColumnOffset(2) == 250.0
    ensures ColumnOffset(3) == 320.0 && ColumnOffset(4) == 370.0 && Total(ColumnWidths) == 440.0
    ensures forall i :: 0 <= i < 5 ==> CustomRowOps(row, font, x, y)[i].x == CustomHeader(font, x, headerY, i).x
  {
    var w := ColumnWidths;
    assert w[..1][..0] == [];
    assert Total(w[..1]) == 200.0;
    assert w[..2][..1] == w[..1];
    assert Total(w[..2]) == 250.0;
    assert w[..3][..2] == w[..2];
    assert Total(w[..3]) == 320.0;
    assert w[..4][..3] == w[..3];
    assert Total(w[..4]) == 370.0;
    assert w[..5][..4] == w[..4] && w[..5] == w;
  }

  /**
   * `renderComponents` over two lists is the two drawn one after the other: what one
   * component draws does not depend on whether an earlier one threw.
   */
  lemma {:induction false} ComponentsDrawnAppend(env: Env, a: seq<Component>, b: seq<Component>, font: Font)
    ensures ComponentsDrawn(env, a + b, font) == ComponentsDrawn(env, a, font) + ComponentsDrawn(env, b, font)
    decreases |b|
  {
    if b == [] {
      assert a + b == a;
    } else {
      var n := |b| - 1;
      assert (a + b)[..|a + b| - 1] == a + b[..n];
      ComponentsDrawnAppend(env, a, b[..n], font);
      AppendAssoc(ComponentsDrawn(env, a, font), ComponentsDrawn(env, b[..n], font),
                  UntilFault(ComponentOps(env, b[n], font), env.faults));
    }
  }

  /** Component i draws its own calls up to its own first throw, whatever the others do. */
  lemma ComponentIsolated(env: Env, cs: seq<Component>, i: nat, font: Font)
    requires i < |cs|
    ensures ComponentsDrawn(env, cs, font)
            == ComponentsDrawn(env, cs[..i], font) + UntilFault(ComponentOps(env, cs[i], font), env.faults)
               + ComponentsDrawn(env, cs[i + 1..], font)
  {
    assert cs == cs[..i + 1] + cs[i + 1..];
    ComponentsDrawnAppend(env, cs[..i + 1], cs[i + 1..], font);
    assert cs[..i + 1][..i] == cs[..i];
  }

  /**
   * A component is anchored at its position, (50, 50) when it has none, measured from the
   * top of the page; one of a kind the renderer does not know draws nothing.
   */
  lemma ComponentAnchor(env: Env, c: Component, font: Font)
    ensures c.position.None? ==> ComponentOps(env, c, font) == KindOps(env, c, font, 50.0, env.height - 50.0)
    ensures c.position.Some? ==>
              ComponentOps(env, c, font) == KindOps(env, c, font, c.position.value.x, env.height - c.position.value.y)
    ensures c.kind.Unknown? ==> ComponentOps(env, c, font) == []
  {
  }

  /**
   * A placed text component writes its own content at its own point, with the page's y axis
   * turned over, and nothing else; without content it draws nothing.
   */
  lemma TextComponentAt(env: Env, c: Component, font: Font, p: Point)
    requires c.kind == Text && c.position == Some(p)
    ensures c.content == "" ==> ComponentOps(env, c, font) == []
    ensures c.content != "" ==>
              && |ComponentOps(env, c, font)| == 1
              && var op := ComponentOps(env, c, font)[0];
                 && op.DrawText? && op.content == Plain(c.content)
                 && op.x == p.x && op.y == env.height - p.y && op.size == 10.0 && op.color == Some(Black)
                 && op.maxWidth == Some(if c.size.Some? && c.size.value.width != 0.0 then c.size.value.width else 200.0)
                 && op.lineHeight == Some(15.0)
  {
    ComponentAnchor(env, c, font);
  }
}

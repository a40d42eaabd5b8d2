/**
 * Shapes shared by the browser client and the server: line items, image slots,
 * the position table, and the component records sent for PDF generation.
 * Absent JSON fields are represented by their falsy value ("" , 0, [] or None),
 * since every reader of these fields only tests them for truthiness.
 */
module Payload {
  import opened Wrappers
  import opened Js

  /** A line item of either invoice model (server `InvoiceItem`, client `InvoiceItem`). */
  datatype Item = Item(description: string, details: string, quantity: real, price: real) {
    /** `getTotal()` */
    function Total(): real {
      quantity * price
    }
  }

  /** A validation outcome, `{ isValid, errors }`. */
  datatype Report = Report(isValid: bool, errors: seq<string>)

  /** What a caller hands to an item constructor: two strings and two untyped values. */
  datatype ItemInput = ItemInput(description: string, details: string, quantity: Value, price: Value)

  /** Image slots hold a data URL or nothing. */
  datatype Images = Images(
    logoImage: Option<string>,
    signatureImage: Option<string>,
    headerImage: Option<string>,
    footerImage: Option<string>,
    watermarkImage: Option<string>,
    watermarkOpacity: real)
  {
    /** `!!slot`: a slot counts when it holds a non-empty string. */
    static predicate Present(slot: Option<string>) {
      slot.Some? && slot.value != ""
    }
    predicate HasLogo() { Present(logoImage) }
    predicate HasSignature() { Present(signatureImage) }
    predicate HasWatermark() { Present(watermarkImage) }
  }

  /** `positionData[elementId][property]`, percentages stored as numbers. */
  type PositionData = map<string, map<string, real>>

  datatype Point = Point(x: real, y: real)
  datatype Size = Size(width: real, height: real)

  /** The `type` of a component, with every unrecognised name (including a missing one) kept apart. */
  datatype Kind = Text | Separator | Pager | InvoiceData | InvoiceDates | InvoiceTable | InvoiceSummary | Image
                | Unknown(name: string)

  function KindName(k: Kind): string {
    match k
    case Text => "text"
    case Separator => "separator"
    case Pager => "pager"
    case InvoiceData => "invoice-data"
    case InvoiceDates => "invoice-dates"
    case InvoiceTable => "invoice-table"
    case InvoiceSummary => "invoice-summary"
    case Image => "image"
    case Unknown(name) => name
  }

  /** Reading a `type` string: the eight names the renderer dispatches on, anything else is Unknown. */
  function ParseKind(name: string): (k: Kind)
    ensures KindName(k) == name
  {
    match name
    case "text" => Text
    case "separator" => Separator
    case "pager" => Pager
    case "invoice-data" => InvoiceData
    case "invoice-dates" => InvoiceDates
    case "invoice-table" => InvoiceTable
    case "invoice-summary" => InvoiceSummary
    case "image" => Image
    case _ => Unknown(name)
  }

  /** A known kind survives being written out as its name and read back. */
  lemma ParseKindName(k: Kind)
    requires !k.Unknown?
    ensures ParseKind(KindName(k)) == k
  {
  }

  datatype Dates = Dates(invoiceDate: string, dueDate: string)
  datatype Row = Row(description: string, quantity: real, unitPrice: real, tax: real, total: real)
  datatype Summary = Summary(subtotal: real, taxRate: real, taxAmount: real, total: real)

  /** One custom component as the renderer receives it. */
  datatype Component = Component(
    id: string,
    kind: Kind,
    position: Option<Point>,
    size: Option<Size>,
    content: string,
    thickness: real,
    color: string,
    format: string,
    dates: Option<Dates>,
    rows: seq<Row>,
    summary: Option<Summary>,
    imageData: string)

  /** A component record with only its identity and geometry set. */
  function BareComponent(id: string, kind: Kind, position: Point, size: Size): (c: Component)
    ensures c.id == id && c.kind == kind && c.position == Some(position) && c.size == Some(size)
    ensures c.content == "" && c.format == "" && c.dates.None? && c.rows == [] && c.summary.None?
    ensures c.thickness == 0.0 && c.color == "" && c.imageData == ""
  {
    Component(id, kind, Some(position), Some(size), "", 0.0, "", "", None, [], None, "")
  }

  /** The values an edit dialog or an upload reports for a component (absent fields falsy). */
  datatype FormData = FormData(
    text: string,
    thickness: real,
    color: string,
    format: string,
    dates: Option<Dates>,
    rows: seq<Row>,
    summary: Option<Summary>,
    image: string)

  /** The pager format offered by default, and the two other formats of the pager dialog. */
  const DefaultPagerFormat: string := "Page {page} sur {total}"
  const PagerFormats: seq<string> := [DefaultPagerFormat, "{page}/{total}", "Page {page}"]

  /** A pager shows its format with the first `{page}` and then the first `{total}` replaced by "1". */
  function PagerText(format: string): string {
    ReplaceFirst(ReplaceFirst(format, "{page}", "1"), "{total}", "1")
  }
}

/**
 * The parts of the browser's `InvoiceController` that move component data around: the
 * forwarding of an edit dialog's values into the invoice model, the per-component records
 * kept for PDF generation, and what `savePDF` reads back from the placed components (the
 * pager format behind a displayed page number, the two dates behind an invoice-dates block).
 */
module ClientController {
  import opened Wrappers
  import opened Js
  import opened Payload
  import opened ComponentLibrary
  import opened ClientModel
  import CM = ComponentManagement

  // ----- Image uploads -----

  /** The object literal `getImageTypeFromComponent` looks ids up in. */
  const ImageTypes: seq<(string, string)> := [
    ("logo", "logoImage"), ("signature", "signatureImage"), ("header-image", "headerImage"),
    ("footer-image", "footerImage"), ("watermark", "watermarkImage")
  ]

  /** `getImageTypeFromComponent(componentId)`: the image slot an upload component fills, None for undefined. */
  function GetImageTypeFromComponent(componentId: string): Option<string> {
    Lookup(ImageTypes, componentId)
  }

  /** The five upload components map onto the five image slots; every other id onto nothing. */
  lemma ImageTypeIsSlot(componentId: string)
    ensures GetImageTypeFromComponent(componentId).Some?
            <==> componentId in ["logo", "signature", "header-image", "footer-image", "watermark"]
    ensures GetImageTypeFromComponent(componentId).Some? ==> GetImageTypeFromComponent(componentId).value in ImageSlots
  {
    var keys := ["logo", "signature", "header-image", "footer-image", "watermark"];
    assert forall i :: 0 <= i < |ImageTypes| ==> ImageTypes[i].0 == keys[i] && ImageTypes[i].1 == ImageSlots[i];
    if componentId in keys {
      var j :| 0 <= j < |keys| && keys[j] == componentId;
      assert ImageTypes[j].0 == componentId;
    }
  }

  /** The slot an edit's image is written to: only a non-empty image, only for an upload component. */
  function UploadSlot(componentId: string, data: FormData): Option<string> {
    if data.image != "" then GetImageTypeFromComponent(componentId) else None
  }

  // ----- Text fields -----

  /** The six components whose text is copied into the invoice data, the first three through setters. */
  const TextIds: seq<string> := ["company-details", "client-details", "invoice-number", "slogan", "footer-number",
                                 "payment-info"]
  const SetterIds: seq<string> := ["company-details", "client-details", "invoice-number"]

  /** The invoice field a text component stands for (an independent reading of `ClientData`). */
  function TextField(d: ClientData, componentId: string): string {
    match componentId
    case "company-details" => d.companyDetails
    case "client-details" => d.clientDetails
    case "invoice-number" => d.invoiceNumber
    case "slogan" => d.slogan
    case "footer-number" => d.footerNumber
    case "payment-info" => d.paymentInfo
    case _ => ""
  }

  /** The property name a setter notifies with. */
  function SetterProperty(componentId: string): string {
    match componentId
    case "company-details" => "companyDetails"
    case "client-details" => "clientDetails"
    case _ => "invoiceNumber"
  }

  /** The switch of `updateModelFromComponent`: the matching text field set, nothing for other ids. */
  function WithText(d: ClientData, componentId: string, text: string): (r: ClientData)
    ensures componentId in TextIds ==> TextField(r, componentId) == text
    ensures forall other :: other in TextIds && other != componentId ==> TextField(r, other) == TextField(d, other)
    ensures r.(companyDetails := d.companyDetails, clientDetails := d.clientDetails, invoiceNumber := d.invoiceNumber,
               slogan := d.slogan, footerNumber := d.footerNumber, paymentInfo := d.paymentInfo) == d
  {
    match componentId
    case "company-details" => d.(companyDetails := text)
    case "client-details" => d.(clientDetails := text)
    case "invoice-number" => d.(invoiceNumber := text)
    case "slogan" => d.(slogan := text)
    case "footer-number" => d.(footerNumber := text)
    case "payment-info" => d.(paymentInfo := text)
    case _ => d
  }

  // ----- Component records for the PDF -----

  /** The first index holding a record with this id, `Array.prototype.find` read as an index. */
  function FindFrom(list: seq<Component>, componentId: string, i: nat): (r: Option<nat>)
    requires i <= |list|
    decreases |list| - i
    ensures r.Some? ==> i <= r.value < |list| && list[r.value].id == componentId
    ensures r.Some? ==> forall j :: i <= j < r.value ==> list[j].id != componentId
    ensures r.None? ==> forall j :: i <= j < |list| ==> list[j].id != componentId
  {
    if i == |list| then None
    else if list[i].id == componentId then Some(i)
    else FindFrom(list, componentId, i + 1)
  }

  function FindIndex(list: seq<Component>, componentId: string): (r: Option<nat>)
    ensures r.Some? ==> r.value < |list| && list[r.value].id == componentId
    ensures r.None? ==> forall j :: 0 <= j < |list| ==> list[j].id != componentId
  {
    FindFrom(list, componentId, 0)
  }

  /** The type switch of `storeComponentData`: only the fields of the record's own type take the edit's values. */
  function WithFormData(c: Component, data: FormData): (r: Component)
    ensures r.id == c.id && r.kind == c.kind && r.position == c.position && r.size == c.size && r.dates == c.dates
    ensures (c.kind == Text || c.kind == InvoiceData) ==> r.content == data.text
    ensures r.content != c.content ==> c.kind == Text || c.kind == InvoiceData
    ensures c.kind == Separator ==> r.thickness == data.thickness && r.color == data.color
    ensures r.thickness != c.thickness || r.color != c.color ==> c.kind == Separator
    ensures c.kind == Pager ==> r.format == data.format
    ensures r.format != c.format ==> c.kind == Pager
    ensures c.kind == InvoiceTable ==> r.rows == data.rows
    ensures r.rows != c.rows ==> c.kind == InvoiceTable
    ensures c.kind == InvoiceSummary ==> r.summary == data.summary
    ensures r.summary != c.summary ==> c.kind == InvoiceSummary
    ensures c.kind == Image ==> r.imageData == data.image
    ensures r.imageData != c.imageData ==> c.kind == Image
    ensures c.kind == InvoiceDates || c.kind.Unknown? ==> r == c
  {
    match c.kind
    case Text => c.(content := data.text)
    case InvoiceData => c.(content := data.text)
    case Separator => c.(thickness := data.thickness, color := data.color)
    case Pager => c.(format := data.format)
    case InvoiceTable => c.(rows := data.rows)
    case InvoiceSummary => c.(summary := data.summary)
    case Image => c.(imageData := data.image)
    case _ => c
  }

  /** The record as the component manager has placed it, when the manager has one. */
  function Placed(c: Component, record: Option<CM.Record>): (r: Component)
    ensures record.Some? ==> r.position == Some(record.value.position) && r.size == Some(record.value.size)
    ensures record.None? ==> r == c
    ensures r.(position := c.position, size := c.size) == c
  {
    match record
    case Some(rec) => c.(position := Some(rec.position), size := Some(rec.size))
    case None => c
  }

  /** A new record: the library's type for that id, at (50, 50), 200 by 60. */
  function NewRecord(componentId: string, def: Definition): Component {
    BareComponent(componentId, ParseKind(def.kind), Point(50.0, 50.0), Size(200.0, 60.0))
  }

  /** The list `storeComponentData` leaves behind. */
  function StoreInto(list: seq<Component>, componentId: string, data: FormData, record: Option<CM.Record>)
    : seq<Component>
  {
    match FindIndex(list, componentId)
    case Some(i) => list[i := Placed(WithFormData(list[i], data), record)]
    case None =>
      match GetComponent(componentId)
      case None => list
      case Some(def) => list + [Placed(WithFormData(NewRecord(componentId, def), data), record)]
  }

  predicate UniqueIds(list: seq<Component>) {
    forall i, j :: 0 <= i < j < |list| ==> list[i].id != list[j].id
  }

  /** An unknown id that the library does not define either leaves the list as it was. */
  lemma StoreUnknownUnchanged(list: seq<Component>, componentId: string, data: FormData, record: Option<CM.Record>)
    requires forall j :: 0 <= j < |list| ==> list[j].id != componentId
    requires GetComponent(componentId).None?
    ensures StoreInto(list, componentId, data, record) == list
  {
  }

  /**
   * Storing touches the one record with this id, or appends one; so every other record is
   * kept in place, and ids that were distinct stay distinct.
   */
  lemma StoreFindOrAppend(list: seq<Component>, componentId: string, data: FormData, record: Option<CM.Record>)
    requires UniqueIds(list)
    ensures var r := StoreInto(list, componentId, data, record);
            UniqueIds(r) && |list| <= |r| <= |list| + 1
            && (forall j :: 0 <= j < |list| && list[j].id != componentId ==> r[j] == list[j])
            && (forall j :: 0 <= j < |list| ==> r[j].id == list[j].id)
            && (|r| == |list| + 1 <==> (forall j :: 0 <= j < |list| ==> list[j].id != componentId) && GetComponent(componentId).Some?)
            && (|r| == |list| + 1 ==> r[|list|].id == componentId)
  {
    var r := StoreInto(list, componentId, data, record);
    match FindIndex(list, componentId)
    case Some(i) =>
      assert list[i] in list;
    case None =>
      if GetComponent(componentId).Some? {
        forall i, j | 0 <= i < j < |r| ensures r[i].id != r[j].id {
          if j == |list| {
            assert r[i] == list[i];
          }
        }
      }
  }

  /** A record appended for an id the manager has not placed starts at (50, 50), 200 by 60, with the library's type. */
  lemma StoreNewDefaults(list: seq<Component>, componentId: string, data: FormData)
    requires forall j :: 0 <= j < |list| ==> list[j].id != componentId
    requires GetComponent(componentId).Some?
    ensures var r := StoreInto(list, componentId, data, None);
            |r| == |list| + 1 && r[..|list|] == list
            && r[|list|].position == Some(Point(50.0, 50.0)) && r[|list|].size == Some(Size(200.0, 60.0))
            && r[|list|].kind == ParseKind(GetComponent(componentId).value.kind)
  {
  }

  /** An upload written into its slot, when the edit carries an image and the id is an upload component. */
  function WithUpload(d: ClientData, componentId: string, data: FormData): ClientData {
    match UploadSlot(componentId, data)
    case Some(slot) => d.(images := WithImage(d.images, slot, Some(data.image)))
    case None => d
  }

  /** Everything `updateModelFromComponent` does to the invoice data. */
  function Updated(d: ClientData, componentId: string, data: FormData, record: Option<CM.Record>): ClientData {
    var withUpload := WithUpload(WithText(d, componentId, TextOr(data.text, "")), componentId, data);
    withUpload.(components := Some(StoreInto(withUpload.components.GetOr([]), componentId, data, record)))
  }

  /** The observer calls a setter-backed text field causes. */
  function TextDeliveries(observers: seq<Observer>, componentId: string, text: string): seq<Delivery> {
    if componentId in SetterIds then Deliveries(observers, Notice(SetterProperty(componentId), ShownText(text))) else []
  }

  /** The observer calls an upload causes. */
  function UploadDeliveries(observers: seq<Observer>, d: ClientData, componentId: string, data: FormData)
    : seq<Delivery>
  {
    match UploadSlot(componentId, data)
    case Some(slot) => Deliveries(observers, Notice("images", ShownImages(WithImage(d.images, slot, Some(data.image)))))
    case None => []
  }

  /** An edit's text lands in its own field only; an upload lands in its slot only; guarded fields are untouched. */
  lemma UpdatedFields(d: ClientData, componentId: string, data: FormData, record: Option<CM.Record>)
    ensures var r := Updated(d, componentId, data, record);
            (componentId in TextIds ==> TextField(r, componentId) == data.text)
            && (forall other :: other in TextIds && other != componentId ==> TextField(r, other) == TextField(d, other))
            && (UploadSlot(componentId, data).None? ==> r.images == d.images)
            && (UploadSlot(componentId, data).Some? ==>
                  r.images == WithImage(d.images, UploadSlot(componentId, data).value, Some(data.image)))
            && r.model == d.model && r.primaryColor == d.primaryColor && r.secondaryColor == d.secondaryColor
            && r.taxRate == d.taxRate && r.items == d.items && r.positionData == d.positionData
            && r.components.Some?
  {
    var text := TextOr(data.text, "");
    var withText := WithText(d, componentId, text);
    var withImage := WithUpload(withText, componentId, data);
    var r := withImage.(components := Some(StoreInto(withImage.components.GetOr([]), componentId, data, record)));
    assert r == Updated(d, componentId, data, record);
    assert withText.images == d.images && withText.model == d.model && withText.items == d.items;
    assert r == withText.(images := r.images, components := r.components);
    forall other | other in TextIds ensures TextField(r, other) == TextField(withText, other) {
      TextFieldElsewhere(withText, other, r.images, r.components);
    }
  }

  /** The text fields do not depend on the images or the component records. */
  lemma TextFieldElsewhere(d: ClientData, componentId: string, images: Images, components: Option<seq<Component>>)
    ensures TextField(d.(images := images, components := components), componentId) == TextField(d, componentId)
  {
  }

  class Controller {
    const model: InvoiceModel
    const manager: CM.ComponentManager

    constructor(model: InvoiceModel, manager: CM.ComponentManager)
      ensures this.model == model && this.manager == manager
    {
      this.model := model;
      this.manager := manager;
    }

    /** `componentManager.activeComponents.get(componentId)` */
    function RecordOf(componentId: string): Option<CM.Record>
      reads manager
    {
      if componentId in manager.records then Some(manager.records[componentId]) else None
    }

    /**
     * `storeComponentData(componentId, data)`: start the list if there is none, find the
     * record with this id or append a new one (giving up for an id the library does not
     * know), write the fields of its type, then take position and size from the manager.
     */
    method StoreComponentData(componentId: string, data: FormData)
      modifies model
      ensures model.data == old(model.data).(components :=
                Some(StoreInto(old(model.data).components.GetOr([]), componentId, data, RecordOf(componentId))))
      ensures model.observers == old(model.observers) && model.delivered == old(model.delivered)
    {
      var start := model.data.components.GetOr([]);
      var list := start;
      var index := FindIndex(list, componentId);
      var component: Component;
      if index.Some? {
        component := list[index.value];
      } else {
        var def := GetComponent(componentId);
        if def.None? {
          model.data := model.data.(components := Some(list));
          return;
        }
        component := NewRecord(componentId, def.value);
        list := list + [component];
        index := Some(|list| - 1);
      }
      component := WithFormData(component, data);
      var record := RecordOf(componentId);
      if record.Some? {
        component := component.(position := Some(record.value.position), size := Some(record.value.size));
      }
      assert component == Placed(WithFormData(list[index.value], data), record);
      list := list[index.value := component];
      assert list == StoreInto(start, componentId, data, record);
      model.data := model.data.(components := Some(list));
    }

    /**
     * `updateModelFromComponent(componentId, data)`: the text goes to its field (through the
     * setter for the three setter-backed fields), an uploaded image to its slot, and the
     * component's record is stored.
     */
    method UpdateModelFromComponent(componentId: string, data: FormData)
      requires Guarded(model.data)
      modifies model
      ensures Guarded(model.data) && model.observers == old(model.observers)
      ensures model.data == Updated(old(model.data), componentId, data, RecordOf(componentId))
      ensures model.delivered == old(model.delivered) + TextDeliveries(model.observers, componentId, TextOr(data.text, ""))
                                 + UploadDeliveries(model.observers, old(model.data), componentId, data)
    {
      ForwardText(componentId, TextOr(data.text, ""));
      ForwardUpload(componentId, data);
      StoreComponentData(componentId, data);
    }

    /** The switch on the component id: three fields through their setters, three written directly. */
    method ForwardText(componentId: string, text: string)
      requires Guarded(model.data)
      modifies model
      ensures Guarded(model.data) && model.observers == old(model.observers)
      ensures model.data == WithText(old(model.data), componentId, text)
      ensures model.delivered == old(model.delivered) + TextDeliveries(model.observers, componentId, text)
    {
      if componentId == "company-details" {
        model.SetCompanyDetails(text);
      } else if componentId == "client-details" {
        model.SetClientDetails(text);
      } else if componentId == "invoice-number" {
        model.SetInvoiceNumber(text);
      } else if componentId == "slogan" {
        model.data := model.data.(slogan := text);
      } else if componentId == "footer-number" {
        model.data := model.data.(footerNumber := text);
      } else if componentId == "payment-info" {
        model.data := model.data.(paymentInfo := text);
      }
    }

    /** An uploaded image goes to the slot of its upload component, through `setImage`. */
    method ForwardUpload(componentId: string, data: FormData)
      requires Guarded(model.data)
      modifies model
      ensures Guarded(model.data) && model.observers == old(model.observers)
      ensures model.data == WithUpload(old(model.data), componentId, data)
      ensures model.delivered == old(model.delivered) + UploadDeliveries(model.observers, old(model.data), componentId, data)
    {
      if data.image != "" {
        var imageType := GetImageTypeFromComponent(componentId);
        if imageType.Some? {
          ImageTypeIsSlot(componentId);
          model.SetImage(imageType.value, Some(data.image));
        }
      }
    }
  }

  // ----- Reading the placed components back in `savePDF` -----

  /** `textContent.replace("1", "{page}").replace("1", "{total}")` on a pager's display. */
  function PagerFormatOf(text: string): string {
    ReplaceFirst(ReplaceFirst(text, "1", "{page}"), "1", "{total}")
  }

  /** Replacing a pattern whose first character does not occur before it. */
  lemma ReplaceAfter(a: string, p: string, r: string, rest: string)
    requires |p| > 0 && p[0] !in a
    ensures ReplaceFirst(a + p + rest, p, r) == a + r + rest
  {
    var s := a + p + rest;
    assert s[|a|..|a| + |p|] == p;
    assert MatchAt(s, p, |a|);
    forall j: nat | j < |a| ensures !MatchAt(s, p, j) {
      assert s[j] == a[j];
      if j + |p| <= |s| {
        assert s[j..j + |p|][0] == s[j];
      }
    }
    assert IndexOf(s, p) == Some(|a|);
    assert s[..|a|] == a;
    assert s[|a| + |p|..] == rest;
  }

  /** Replacing a pattern whose first character does not occur at all changes nothing. */
  lemma ReplaceAbsent(s: string, p: string, r: string)
    requires |p| > 0 && p[0] !in s
    ensures ReplaceFirst(s, p, r) == s
  {
    forall j: nat ensures !MatchAt(s, p, j) {
      if j + |p| <= |s| {
        assert s[j..j + |p|][0] == s[j] && s[j] in s;
      }
    }
  }

  /** Each format the pager dialog offers is read back from the page number it displays. */
  lemma PagerRoundTrip(format: string)
    requires format in PagerFormats
    ensures PagerFormatOf(PagerText(format)) == format
  {
    if format == DefaultPagerFormat {
      DefaultFormatRoundTrip(format);
    } else if format == "{page}/{total}" {
      SlashFormatRoundTrip(format);
    } else {
      PageOnlyFormatRoundTrip(format);
    }
  }

  /** A format with both placeholders, and no '{' or '1' around them, comes back from its display. */
  lemma TwoPlaceholdersRoundTrip(a: string, m: string, z: string)
    requires '{' !in a && '{' !in m && '1' !in a && '1' !in m
    ensures PagerFormatOf(PagerText(a + "{page}" + m + "{total}" + z)) == a + "{page}" + m + "{total}" + z
  {
    TwoPlaceholdersShown(a, m, z);
    TwoPlaceholdersRead(a, m, z);
  }

  lemma TwoPlaceholdersShown(a: string, m: string, z: string)
    requires '{' !in a && '{' !in m
    ensures PagerText(a + "{page}" + m + "{total}" + z) == a + "1" + m + "1" + z
  {
    var rest := m + "{total}" + z;
    assert a + "{page}" + m + "{total}" + z == a + "{page}" + rest;
    ReplaceAfter(a, "{page}", "1", rest);
    assert '{' !in a + "1" + m;
    assert a + "1" + rest == (a + "1" + m) + "{total}" + z;
    ReplaceAfter(a + "1" + m, "{total}", "1", z);
  }

  lemma TwoPlaceholdersRead(a: string, m: string, z: string)
    requires '1' !in a && '1' !in m
    ensures PagerFormatOf(a + "1" + m + "1" + z) == a + "{page}" + m + "{total}" + z
  {
    assert a + "1" + m + "1" + z == a + "1" + (m + "1" + z);
    ReplaceAfter(a, "1", "{page}", m + "1" + z);
    assert '1' !in a + "{page}" + m;
    assert a + "{page}" + (m + "1" + z) == (a + "{page}" + m) + "1" + z;
    ReplaceAfter(a + "{page}" + m, "1", "{total}", z);
  }

  lemma DefaultFormatRoundTrip(format: string)
    requires format == DefaultPagerFormat
    ensures PagerFormatOf(PagerText(format)) == format
  {
    assert format == "Page " + "{page}" + " sur " + "{total}" + "";
    TwoPlaceholdersRoundTrip("Page ", " sur ", "");
  }

  lemma SlashFormatRoundTrip(format: string)
    requires format == "{page}/{total}"
    ensures PagerFormatOf(PagerText(format)) == format
  {
    assert format == "" + "{page}" + "/" + "{total}" + "";
    TwoPlaceholdersRoundTrip("", "/", "");
  }

  lemma PageOnlyFormatRoundTrip(format: string)
    requires format == "Page {page}"
    ensures PagerFormatOf(PagerText(format)) == format
  {
    assert "Page {page}" == "Page " + "{page}" + "";
    ReplaceAfter("Page ", "{page}", "1", "");
    ReplaceAbsent("Page 1", "{total}", "1");
    assert PagerText("Page {page}") == "Page 1";
    assert "Page 1" == "Page " + "1" + "";
    ReplaceAfter("Page ", "1", "{page}", "");
    ReplaceAbsent("Page {page}", "1", "{total}");
  }

  const InvoiceDatePrefix: string := "Date de la facture: "
  const DueDatePrefix: string := "Date d'échéance: "

  /** The text an invoice-dates block displays: one line per date. */
  function DatesText(d: Dates): string {
    InvoiceDatePrefix + d.invoiceDate + "\n" + DueDatePrefix + d.dueDate
  }

  /**
   * The two dates read back from an invoice-dates block's text: its first two lines without
   * their labels; a text of one line has no second line to read, which throws.
   */
  function ExtractDates(text: string): Option<Dates> {
    var lines := Split(text, '\n');
    if |lines| < 2 then None
    else Some(Dates(ReplaceFirst(lines[0], InvoiceDatePrefix, ""), ReplaceFirst(lines[1], DueDatePrefix, "")))
  }

  /** Dates without line breaks are read back from the block that displays them. */
  lemma DatesRoundTrip(d: Dates)
    requires '\n' !in d.invoiceDate && '\n' !in d.dueDate
    ensures ExtractDates(DatesText(d)) == Some(d)
  {
    var first := InvoiceDatePrefix + d.invoiceDate;
    var second := DueDatePrefix + d.dueDate;
    assert '\n' !in InvoiceDatePrefix && '\n' !in DueDatePrefix;
    assert '\n' !in first && '\n' !in second;
    var parts := [first, second];
    assert parts[1..] == [second];
    assert Join(parts, '\n') == first + ['\n'] + second;
    assert DatesText(d) == first + ['\n'] + second;
    SplitJoin(parts, '\n');
    assert Split(DatesText(d), '\n') == parts;
    ReplaceFirstAtStart(InvoiceDatePrefix, d.invoiceDate, "");
    ReplaceFirstAtStart(DueDatePrefix, d.dueDate, "");
    assert ReplaceFirst(first, InvoiceDatePrefix, "") == d.invoiceDate;
    assert ReplaceFirst(second, DueDatePrefix, "") == d.dueDate;
  }

  /** What `savePDF` sees of one placed component: its id, type, geometry and displayed text. */
  datatype View = View(id: string, kind: Kind, position: Point, size: Size, text: string)

  /** The record `savePDF` sends for one component. */
  function ForPdf(v: View, dates: Option<Dates>): (c: Component)
    ensures c.id == v.id && c.kind == v.kind && c.position == Some(v.position) && c.size == Some(v.size)
    ensures v.kind == Text || v.kind == InvoiceData ==> c.content == v.text
    ensures v.kind == InvoiceDates ==> c.dates == dates
    ensures v.kind == Pager ==> c.format == PagerFormatOf(v.text)
    ensures c.thickness == 0.0 && c.color == "" && c.rows == [] && c.summary.None? && c.imageData == ""
    ensures !(v.kind == Text || v.kind == InvoiceData || v.kind == Pager || v.kind == InvoiceDates)
            ==> c == BareComponent(v.id, v.kind, v.position, v.size)
  {
    var bare := BareComponent(v.id, v.kind, v.position, v.size);
    match v.kind
    case Text => bare.(content := v.text)
    case InvoiceData => bare.(content := v.text)
    case Pager => bare.(format := PagerFormatOf(v.text))
    case InvoiceDates => bare.(dates := dates)
    case _ => bare
  }

  /**
   * The component loop of `savePDF` from some point on, given the records built and the
   * dates extracted so far: None when an invoice-dates block has no second line.
   */
  function CollectFrom(views: seq<View>, acc: seq<Component>, dates: Dates): Option<(seq<Component>, Dates)>
    decreases |views|
  {
    if views == [] then Some((acc, dates))
    else if views[0].kind == InvoiceDates then
      match ExtractDates(views[0].text)
      case None => None
      case Some(d) => CollectFrom(views[1..], acc + [ForPdf(views[0], Some(d))], d)
    else CollectFrom(views[1..], acc + [ForPdf(views[0], None)], dates)
  }

  /** The component records and the top-level dates `savePDF` sends, none when it throws. */
  function Collected(views: seq<View>): Option<(seq<Component>, Dates)> {
    CollectFrom(views, [], Dates("", ""))
  }

  /** `savePDF`'s loop over the placed components, in the order they were added. */
  method CollectComponents(views: seq<View>) returns (r: Option<(seq<Component>, Dates)>)
    ensures r == Collected(views)
  {
    var acc: seq<Component> := [];
    var invoiceDate := "";
    var dueDate := "";
    var i := 0;
    while i < |views|
      invariant 0 <= i <= |views|
      invariant Collected(views) == CollectFrom(views[i..], acc, Dates(invoiceDate, dueDate))
    {
      var v := views[i];
      assert views[i..][0] == v && views[i..][1..] == views[i + 1..];
      if v.kind == InvoiceDates {
        var extracted := ExtractDates(v.text);
        if extracted.None? {
          return None;
        }
        invoiceDate := extracted.value.invoiceDate;
        dueDate := extracted.value.dueDate;
        acc := acc + [ForPdf(v, extracted)];
      } else {
        acc := acc + [ForPdf(v, None)];
      }
      i := i + 1;
    }
    r := Some((acc, Dates(invoiceDate, dueDate)));
  }

  /** The loop over two runs of components is the loop over the first, continued over the second. */
  lemma {:induction false} CollectAppend(a: seq<View>, b: seq<View>, acc: seq<Component>, dates: Dates)
    decreases |a|
    ensures CollectFrom(a + b, acc, dates)
            == match CollectFrom(a, acc, dates)
               case None => None
               case Some(res) => CollectFrom(b, res.0, res.1)
  {
    if a == [] {
      assert a + b == b;
    } else {
      assert (a + b)[0] == a[0] && (a + b)[1..] == a[1..] + b;
      if a[0].kind == InvoiceDates {
        match ExtractDates(a[0].text)
        case None =>
        case Some(d) => CollectAppend(a[1..], b, acc + [ForPdf(a[0], Some(d))], d);
      } else {
        CollectAppend(a[1..], b, acc + [ForPdf(a[0], None)], dates);
      }
    }
  }

  /** The records sent for components that are not dates blocks, one per component, in order. */
  function PlainRecords(views: seq<View>): seq<Component>
    decreases |views|
  {
    if views == [] then [] else [ForPdf(views[0], None)] + PlainRecords(views[1..])
  }

  lemma {:induction false} PlainRecordsAt(views: seq<View>)
    decreases |views|
    ensures |PlainRecords(views)| == |views|
    ensures forall k :: 0 <= k < |views| ==> PlainRecords(views)[k] == ForPdf(views[k], None)
  {
    if views != [] {
      PlainRecordsAt(views[1..]);
    }
  }

  lemma {:induction false} CollectPlain(views: seq<View>, acc: seq<Component>, dates: Dates)
    requires forall v :: v in views ==> v.kind != InvoiceDates
    decreases |views|
    ensures CollectFrom(views, acc, dates) == Some((acc + PlainRecords(views), dates))
  {
    if views == [] {
      assert acc + [] == acc;
    } else {
      assert views[0] in views;
      assert forall v :: v in views[1..] ==> v in views;
      var acc' := acc + [ForPdf(views[0], None)];
      CollectPlain(views[1..], acc', dates);
      assert acc' + PlainRecords(views[1..]) == acc + PlainRecords(views);
    }
  }

  /** Without invoice-dates blocks the loop never throws, keeps the dates, and sends one record per component, in order. */
  lemma CollectWithoutDates(views: seq<View>, acc: seq<Component>, dates: Dates)
    requires forall v :: v in views ==> v.kind != InvoiceDates
    ensures CollectFrom(views, acc, dates).Some?
    ensures CollectFrom(views, acc, dates).value.1 == dates
    ensures var out := CollectFrom(views, acc, dates).value.0;
            |out| == |acc| + |views| && out[..|acc|] == acc
            && forall k :: 0 <= k < |views| ==> out[|acc| + k] == ForPdf(views[k], None)
  {
    CollectPlain(views, acc, dates);
    PlainRecordsAt(views);
    var out := acc + PlainRecords(views);
    assert out[..|acc|] == acc;
    assert forall k :: 0 <= k < |views| ==> out[|acc| + k] == PlainRecords(views)[k];
  }

  /** With no invoice-dates block placed, the invoice and due dates sent are both "". */
  lemma NoDatesBlockSendsEmpty(views: seq<View>)
    requires forall v :: v in views ==> v.kind != InvoiceDates
    ensures Collected(views).Some? && Collected(views).value.1 == Dates("", "")
    ensures |Collected(views).value.0| == |views|
  {
    CollectWithoutDates(views, [], Dates("", ""));
  }

  /**
   * The dates sent are those of the last invoice-dates block: after it only other
   * components follow, and the loop got that far.
   */
  lemma LastDatesBlockWins(before: seq<View>, block: View, after: seq<View>, d: Dates)
    requires Collected(before).Some?
    requires block.kind == InvoiceDates && block.text == DatesText(d)
    requires '\n' !in d.invoiceDate && '\n' !in d.dueDate
    requires forall v :: v in after ==> v.kind != InvoiceDates
    ensures Collected(before + [block] + after).Some?
    ensures Collected(before + [block] + after).value.1 == d
  {
    DatesRoundTrip(d);
    var res := Collected(before).value;
    CollectAppend(before, [block] + after, [], Dates("", ""));
    assert before + [block] + after == before + ([block] + after);
    var views := [block] + after;
    assert views[0] == block && views[1..] == after;
    CollectWithoutDates(after, res.0 + [ForPdf(block, Some(d))], d);
  }

  /** A pager showing one of the offered formats is sent with that format. */
  lemma PagerSentWithItsFormat(v: View, format: string)
    requires v.kind == Pager && format in PagerFormats && v.text == PagerText(format)
    ensures ForPdf(v, None).format == format
  {
    PagerRoundTrip(format);
  }
}

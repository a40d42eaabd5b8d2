/**
 * The server's invoice model: an `Invoice` built from request data with a fallback for
 * every missing field, its line items and image slots, the subtotal/tax/total arithmetic,
 * validation, and the JSON form.
 */
module Invoice {
  import opened Wrappers
  import opened Js
  import opened Payload

  /** A calendar day as `toISOString().split("T")[0]` prints it; never empty. */
  type Day = s: string | s != "" witness "1970-01-01"

  /** `new InvoiceItem(data)`: missing text becomes "", an unparsable or zero number becomes 0. */
  function NewLineItem(parse: Parser, input: ItemInput): (item: Item)
    ensures item.description == input.description && item.details == input.details
    ensures item.quantity == ParseFloat(parse, input.quantity).GetOr(0.0)
    ensures item.price == ParseFloat(parse, input.price).GetOr(0.0)
  {
    Item(TextOr(input.description, ""), TextOr(input.details, ""),
         NumberOr(ParseFloat(parse, input.quantity), 0.0),
         NumberOr(ParseFloat(parse, input.price), 0.0))
  }

  /** `InvoiceItem.validate()` */
  function ValidateItem(item: Item): Report {
    var errors :=
      (if item.quantity < 0.0 then ["Quantity cannot be negative"] else [])
      + (if item.price < 0.0 then ["Price cannot be negative"] else []);
    Report(|errors| == 0, errors)
  }

  /** An item is valid exactly when neither its quantity nor its price is negative; zero passes. */
  lemma ValidateItemExactly(item: Item)
    ensures ValidateItem(item).isValid <==> item.quantity >= 0.0 && item.price >= 0.0
    ensures "Quantity cannot be negative" in ValidateItem(item).errors <==> item.quantity < 0.0
    ensures "Price cannot be negative" in ValidateItem(item).errors <==> item.price < 0.0
    ensures |ValidateItem(item).errors| <= 2
  {
  }

  /**
   * An entry of an invoice's `items`. The constructor keeps the request's objects as they
   * came (`Raw`): plain records without `getTotal` or `toJSON`. Only `addItem` builds an
   * `InvoiceItem` (`Built`).
   */
  datatype Entry = Raw(fields: ItemInput) | Built(item: Item)

  /** `data.items` stored unchanged: every entry a plain record. */
  function Records(inputs: seq<ItemInput>): (entries: seq<Entry>)
    ensures |entries| == |inputs| && forall k :: 0 <= k < |inputs| ==> entries[k] == Raw(inputs[k])
  {
    seq(|inputs|, k requires 0 <= k < |inputs| => Raw(inputs[k]))
  }

  /** Every entry is an `InvoiceItem`, so every call of `getTotal` and `toJSON` finds its method. */
  predicate AllBuilt(entries: seq<Entry>) {
    forall k :: 0 <= k < |entries| ==> entries[k].Built?
  }

  /**
   * How many entries a loop calling `getTotal` on each in turn gets through: the entries
   * before the first plain record.
   */
  function BuiltPrefix(entries: seq<Entry>): (n: nat)
    ensures n <= |entries|
    ensures forall k :: 0 <= k < n ==> entries[k].Built?
    ensures n < |entries| ==> entries[n].Raw?
    ensures n == |entries| <==> AllBuilt(entries)
  {
    if |entries| == 0 || entries[0].Raw? then 0 else 1 + BuiltPrefix(entries[1..])
  }

  /** The line items of entries that are all `InvoiceItem`s. */
  function Lines(entries: seq<Entry>): (items: seq<Item>)
    requires AllBuilt(entries)
    ensures |items| == |entries| && forall k :: 0 <= k < |entries| ==> items[k] == entries[k].item
  {
    seq(|entries|, k requires 0 <= k < |entries| => entries[k].item)
  }

  /** The request fields the `Invoice` constructor reads; "" stands for a missing or falsy field. */
  datatype InvoiceInput = InvoiceInput(
    model: string,
    font: string,
    primaryColor: string,
    secondaryColor: string,
    background: string,
    slogan: string,
    companyDetails: string,
    clientDetails: string,
    invoiceNumber: string,
    invoiceDate: string,
    dueDate: string,
    taxRate: real,
    footerNumber: string,
    paymentInfo: string,
    items: seq<ItemInput>,
    logoImage: string,
    signatureImage: string,
    headerImage: string,
    footerImage: string,
    watermarkImage: string,
    watermarkOpacity: Value,
    positionData: PositionData)

  /** `data.slot || null` */
  function SlotOf(s: string): (slot: Option<string>)
    ensures slot.Some? <==> s != ""
    ensures slot.Some? ==> slot.value == s
  {
    if s != "" then Some(s) else None
  }

  /** `new InvoiceImages(data)`: reads the five slots and the opacity from the top level of `data`. */
  function NewImages(parse: Parser, input: InvoiceInput): (images: Images)
    ensures images.HasLogo() <==> input.logoImage != ""
    ensures images.HasSignature() <==> input.signatureImage != ""
    ensures images.HasWatermark() <==> input.watermarkImage != ""
    ensures ParseFloat(parse, input.watermarkOpacity) == Some(0.0) ==> images.watermarkOpacity == 10.0
    ensures ParseFloat(parse, input.watermarkOpacity).None? ==> images.watermarkOpacity == 10.0
    ensures ParseFloat(parse, input.watermarkOpacity).Some? && ParseFloat(parse, input.watermarkOpacity).value != 0.0
            ==> images.watermarkOpacity == ParseFloat(parse, input.watermarkOpacity).value
  {
    Images(SlotOf(input.logoImage), SlotOf(input.signatureImage), SlotOf(input.headerImage),
           SlotOf(input.footerImage), SlotOf(input.watermarkImage),
           NumberOr(ParseFloat(parse, input.watermarkOpacity), 10.0))
  }

  /** Everything an `Invoice` holds. `components` is never set by the constructor. */
  datatype InvoiceFields = InvoiceFields(
    model: string,
    font: string,
    primaryColor: string,
    secondaryColor: string,
    background: string,
    slogan: string,
    companyDetails: string,
    clientDetails: string,
    invoiceNumber: string,
    invoiceDate: string,
    dueDate: string,
    taxRate: real,
    footerNumber: string,
    paymentInfo: string,
    items: seq<Entry>,
    images: Images,
    positionData: PositionData,
    components: Option<seq<Component>>)
  {
    /** `calculateSubtotal()`: None when some entry has no `getTotal` and the call throws. */
    function CalculateSubtotal(): Option<real> {
      if AllBuilt(items) then Some(Sum(Lines(items))) else None
    }

    /** `calculateTax()` */
    function CalculateTax(): Option<real> {
      match CalculateSubtotal()
      case None => None
      case Some(subtotal) => Some(subtotal * (taxRate / 100.0))
    }

    /** `calculateTotal()` */
    function CalculateTotal(): Option<real> {
      match CalculateSubtotal()
      case None => None
      case Some(subtotal) => Some(subtotal + CalculateTax().value)
    }

    /** `validate()`: only a negative tax rate is reported. */
    function Validate(): Report {
      var errors := if taxRate < 0.0 then ["Tax rate cannot be negative"] else [];
      Report(|errors| == 0, errors)
    }
  }

  /** `items.reduce((sum, item) => sum + item.getTotal(), 0)` */
  function Sum(items: seq<Item>): real {
    if |items| == 0 then 0.0 else items[0].Total() + Sum(items[1..])
  }

  /** The fields the constructor never leaves empty, and the components it never sets. */
  predicate Defaulted(d: InvoiceFields) {
    d.model != "" && d.font != "" && d.primaryColor != "" && d.secondaryColor != "" && d.background != ""
    && d.invoiceNumber != "" && d.invoiceDate != "" && d.dueDate != "" && d.components.None?
  }

  /** The constructor's defaulting, given the clock's today and today + 30 days. */
  function Construct(parse: Parser, input: InvoiceInput, today: Day, due: Day): (d: InvoiceFields)
    ensures d.model != "" && d.font != "" && d.invoiceNumber != "" && d.invoiceDate != "" && d.dueDate != ""
    ensures d.model == (if input.model == "" then "light" else input.model)
    ensures d.font == (if input.font == "" then "Helvetica" else input.font)
    ensures d.invoiceNumber == (if input.invoiceNumber == "" then "INV-001" else input.invoiceNumber)
    ensures d.invoiceDate == (if input.invoiceDate == "" then today else input.invoiceDate)
    ensures d.dueDate == (if input.dueDate == "" then due else input.dueDate)
    ensures d.taxRate == input.taxRate && d.items == Records(input.items) && Defaulted(d)
    ensures d.images == NewImages(parse, input)
  {
    InvoiceFields(
      TextOr(input.model, "light"),
      TextOr(input.font, "Helvetica"),
      TextOr(input.primaryColor, "#000000"),
      TextOr(input.secondaryColor, "#000000"),
      TextOr(input.background, "none"),
      input.slogan,
      input.companyDetails,
      input.clientDetails,
      TextOr(input.invoiceNumber, "INV-001"),
      TextOr(input.invoiceDate, today),
      TextOr(input.dueDate, due),
      input.taxRate,
      input.footerNumber,
      input.paymentInfo,
      Records(input.items),
      NewImages(parse, input),
      input.positionData,
      None)
  }

  /** `array.splice(index, 1)`: a negative index counts from the end, an index past the end removes nothing. */
  function SpliceOne<T>(s: seq<T>, index: int): (r: seq<T>)
    ensures 0 <= index < |s| ==> r == s[..index] + s[index + 1..]
    ensures index >= |s| ==> r == s
    ensures index < -|s| ==> r == if s == [] then s else s[1..]
    ensures -|s| <= index < 0 ==> r == s[..|s| + index] + s[|s| + index + 1..]
    ensures |r| == if s == [] || index >= |s| then |s| else |s| - 1
  {
    var start := if index < 0 then (if |s| + index < 0 then 0 else |s| + index)
                 else (if index > |s| then |s| else index);
    if start < |s| then s[..start] + s[start + 1..] else s
  }

  /** `InvoiceItem.toJSON()`: the four fields, the numbers as numbers. */
  function ItemJson(item: Item): ItemInput {
    ItemInput(item.description, item.details, Number(item.quantity), Number(item.price))
  }

  /** A line item's JSON record, handed to `addItem`, builds the same line item again. */
  lemma ItemJsonReadsBack(parse: Parser, item: Item)
    ensures NewLineItem(parse, ItemJson(item)) == item
  {
  }

  /** The JSON form sent back to callers: items as plain records and the images nested. */
  datatype InvoiceJson = InvoiceJson(
    model: string,
    font: string,
    primaryColor: string,
    secondaryColor: string,
    background: string,
    slogan: string,
    companyDetails: string,
    clientDetails: string,
    invoiceNumber: string,
    invoiceDate: string,
    dueDate: string,
    taxRate: real,
    footerNumber: string,
    paymentInfo: string,
    items: seq<ItemInput>,
    images: Images,
    positionData: PositionData)

  /** `toJSON()`: None when some entry is a plain record, whose missing `toJSON` throws. */
  function ToJson(d: InvoiceFields): (j: Option<InvoiceJson>)
    ensures j.Some? <==> AllBuilt(d.items)
    ensures j.Some? ==> |j.value.items| == |d.items|
                        && (forall k :: 0 <= k < |d.items| ==> j.value.items[k] == ItemJson(d.items[k].item))
                        && j.value.images == d.images && j.value.taxRate == d.taxRate
  {
    if !AllBuilt(d.items) then None
    else
      var items := seq(|d.items|, k requires 0 <= k < |d.items| => ItemJson(d.items[k].item));
      Some(InvoiceJson(d.model, d.font, d.primaryColor, d.secondaryColor, d.background, d.slogan,
                       d.companyDetails, d.clientDetails, d.invoiceNumber, d.invoiceDate, d.dueDate,
                       d.taxRate, d.footerNumber, d.paymentInfo, items, d.images, d.positionData))
  }

  /**
   * Reading a JSON object back as constructor input. The constructor looks for the image
   * fields at the top level, where the JSON form has none: they are nested under `images`.
   */
  function InputOf(j: InvoiceJson): InvoiceInput {
    InvoiceInput(j.model, j.font, j.primaryColor, j.secondaryColor, j.background, j.slogan,
                 j.companyDetails, j.clientDetails, j.invoiceNumber, j.invoiceDate, j.dueDate,
                 j.taxRate, j.footerNumber, j.paymentInfo, j.items, "", "", "", "", "", Undefined,
                 j.positionData)
  }

  /** Image slots with nothing in them and the default opacity. */
  const NoImages: Images := Images(None, None, None, None, None, 10.0)

  /**
   * A freshly constructed invoice with items holds only plain records: its totals and its
   * JSON form throw.
   */
  lemma ConstructedCannotTotal(parse: Parser, input: InvoiceInput, today: Day, due: Day)
    ensures var d := Construct(parse, input, today, due);
            (d.CalculateSubtotal().Some? <==> input.items == []) && (ToJson(d).Some? <==> input.items == [])
  {
    var d := Construct(parse, input, today, due);
    if input.items != [] {
      assert d.items[0].Raw?;
    }
  }

  /**
   * Rebuilding an invoice from its own JSON keeps every field except the images, which come
   * back empty with opacity 10, and the items, which come back as the plain records of their
   * JSON form. The rebuilt invoice can total only when it has no items.
   */
  lemma JsonRoundTrip(parse: Parser, d: InvoiceFields, today': Day, due': Day)
    requires Defaulted(d)
    ensures ToJson(d).Some? ==>
              var r := Construct(parse, InputOf(ToJson(d).value), today', due');
              r == d.(images := NoImages, items := Records(ToJson(d).value.items))
              && (r.CalculateSubtotal().Some? <==> d.items == [])
  {
    if ToJson(d).Some? {
      var j := ToJson(d).value;
      var r := Construct(parse, InputOf(j), today', due');
      assert r.items == Records(j.items);
      ConstructedCannotTotal(parse, InputOf(j), today', due');
    }
  }

  /** The object `new Invoice(data)` creates; `addItem` and `removeItem` edit its items in place. */
  class Invoice {
    var data: InvoiceFields

    constructor(parse: Parser, input: InvoiceInput, today: Day, due: Day)
      ensures data == Construct(parse, input, today, due)
    {
      data := Construct(parse, input, today, due);
    }

    /** `addItem(item)`: pushes a new line item built from the input. */
    method AddItem(parse: Parser, input: ItemInput)
      modifies this
      ensures data == old(data).(items := old(data).items + [Built(NewLineItem(parse, input))])
    {
      data := data.(items := data.items + [Built(NewLineItem(parse, input))]);
    }

    /** `removeItem(index)`: `splice(index, 1)` on the items. */
    method RemoveItem(index: int)
      modifies this
      ensures data == old(data).(items := SpliceOne(old(data).items, index))
    {
      data := data.(items := SpliceOne(data.items, index));
    }
  }

  lemma {:induction false} SumAppend(a: seq<Item>, b: seq<Item>)
    ensures Sum(a + b) == Sum(a) + Sum(b)
  {
    if |a| == 0 {
      assert a + b == b;
    } else {
      assert (a + b)[1..] == a[1..] + b;
      SumAppend(a[1..], b);
    }
  }

  lemma LinesAppend(a: seq<Entry>, b: seq<Entry>)
    requires AllBuilt(a) && AllBuilt(b)
    ensures AllBuilt(a + b) && Lines(a + b) == Lines(a) + Lines(b)
  {
    assert forall k :: 0 <= k < |a + b| ==> (a + b)[k] == if k < |a| then a[k] else b[k - |a|];
  }

  /**
   * The subtotal is 0 without items; adding an `InvoiceItem` raises it by exactly that
   * item's total, and leaves it throwing when it threw before.
   */
  lemma SubtotalAddItem(d: InvoiceFields, item: Item)
    ensures d.(items := []).CalculateSubtotal() == Some(0.0)
    ensures var added := d.(items := d.items + [Built(item)]).CalculateSubtotal();
            (added.Some? <==> d.CalculateSubtotal().Some?)
            && (added.Some? ==> added.value == d.CalculateSubtotal().value + item.Total())
  {
    assert Lines([]) == [];
    var tail := [Built(item)];
    assert Lines(tail) == [item];
    if AllBuilt(d.items) {
      LinesAppend(d.items, tail);
      SumAppend(Lines(d.items), [item]);
    } else {
      var k :| 0 <= k < |d.items| && d.items[k].Raw?;
      assert (d.items + tail)[k].Raw?;
    }
  }

  /** After `splice(i, 1)`, every entry is an `InvoiceItem` exactly when every entry but i was. */
  lemma RemovedAllBuilt(entries: seq<Entry>, i: nat)
    requires i < |entries|
    ensures AllBuilt(SpliceOne(entries, i)) <==> forall k :: 0 <= k < |entries| && k != i ==> entries[k].Built?
  {
    var rest := SpliceOne(entries, i);
    assert forall k :: 0 <= k < |rest| ==> rest[k] == entries[if k < i then k else k + 1];
    if !forall k :: 0 <= k < |entries| && k != i ==> entries[k].Built? {
      var k :| 0 <= k < |entries| && k != i && entries[k].Raw?;
      assert rest[if k < i then k else k - 1].Raw?;
    }
  }

  /** Taking item i out of a list of `InvoiceItem`s lowers their sum by its total. */
  lemma RemovedSum(entries: seq<Entry>, i: nat)
    requires i < |entries| && AllBuilt(entries)
    ensures AllBuilt(SpliceOne(entries, i))
    ensures Sum(Lines(SpliceOne(entries, i))) == Sum(Lines(entries)) - entries[i].item.Total()
  {
    var pre, mid, post := entries[..i], [entries[i]], entries[i + 1..];
    assert SpliceOne(entries, i) == pre + post;
    assert entries == pre + mid + post;
    LinesAppend(pre, post);
    LinesAppend(pre, mid);
    LinesAppend(pre + mid, post);
    var item := entries[i].item;
    assert Lines(mid) == [item];
    SumAppend(Lines(pre) + [item], Lines(post));
    SumAppend(Lines(pre), [item]);
    SumAppend(Lines(pre), Lines(post));
  }

  /**
   * Removing entry i lowers a subtotal by exactly that item's total, and the subtotal is
   * defined afterwards exactly when every other entry is an `InvoiceItem`.
   */
  lemma SubtotalRemoveItem(d: InvoiceFields, i: int)
    requires 0 <= i < |d.items|
    ensures var removed := d.(items := SpliceOne(d.items, i)).CalculateSubtotal();
            (removed.Some? <==> forall k :: 0 <= k < |d.items| && k != i ==> d.items[k].Built?)
            && (d.CalculateSubtotal().Some? ==> removed == Some(d.CalculateSubtotal().value - d.items[i].item.Total()))
  {
    RemovedAllBuilt(d.items, i);
    if AllBuilt(d.items) {
      RemovedSum(d.items, i);
    }
  }

  /** The total is the subtotal scaled by (1 + rate/100); the tax is the difference; all three throw together. */
  lemma TotalIsScaledSubtotal(d: InvoiceFields)
    ensures d.CalculateTax().Some? <==> d.CalculateSubtotal().Some?
    ensures d.CalculateTotal().Some? <==> d.CalculateSubtotal().Some?
    ensures d.CalculateSubtotal().Some? ==>
              var subtotal, total := d.CalculateSubtotal().value, d.CalculateTotal().value;
              total == subtotal * (1.0 + d.taxRate / 100.0)
              && total - subtotal == d.CalculateTax().value
              && (d.taxRate >= 0.0 && subtotal >= 0.0 ==> total >= subtotal)
  {
  }

  /** Items with no negative quantity or price give a non-negative subtotal. */
  lemma {:induction false} SubtotalNonNegative(items: seq<Item>)
    requires forall k :: 0 <= k < |items| ==> ValidateItem(items[k]).isValid
    ensures Sum(items) >= 0.0
  {
    if |items| > 0 {
      ValidateItemExactly(items[0]);
      SubtotalNonNegative(items[1..]);
    }
  }

  /** An invoice is valid exactly when its tax rate is not negative, and reports at most one error. */
  lemma ValidateExactly(d: InvoiceFields)
    ensures d.Validate().isValid <==> d.taxRate >= 0.0
    ensures d.Validate().errors == if d.taxRate < 0.0 then ["Tax rate cannot be negative"] else []
  {
  }
}

/**
 * The browser's `InvoiceModel`: the invoice being designed, changed only through guarded
 * setters, each of which tells every registered observer what changed. The observers'
 * `update` functions are foreign code; a call to one is recorded as a delivery.
 */
module ClientModel {
  import opened Wrappers
  import opened Js
  import opened Payload
  import opened Geometry
  import Invoice

  /** `this.data` */
  datatype ClientData = ClientData(
    model: string,
    font: string,
    primaryColor: string,
    secondaryColor: string,
    background: string,
    slogan: string,
    companyDetails: string,
    clientDetails: string,
    invoiceNumber: string,
    invoiceDate: string,
    dueDate: string,
    taxRate: real,
    footerNumber: string,
    paymentInfo: string,
    items: seq<Item>,
    images: Images,
    positionData: PositionData,
    components: Option<seq<Component>>)

  /** The data a new model starts from, with the two dates the clock gives. */
  function Initial(today: string, due: string): (d: ClientData)
    ensures d.model == "light" && d.font == "Lato" && d.taxRate == 15.0 && d.items == []
    ensures d.primaryColor == "#000000" && d.secondaryColor == "#000000"
    ensures d.invoiceDate == today && d.dueDate == due && d.positionData == map[]
  {
    ClientData("light", "Lato", "#000000", "#000000", "none", "", "", "", "", today, due, 15.0, "", "", [],
               Images(None, None, None, None, None, 10.0), map[], None)
  }

  // ----- Items -----

  /** The client `new InvoiceItem(data)`: an unparsable or zero quantity becomes 1, such a price 0. */
  function NewClientItem(parse: Parser, input: ItemInput): (item: Item)
    ensures item.description == input.description && item.details == input.details
    ensures item.quantity != 0.0
    ensures ParseFloat(parse, input.quantity).Some? && ParseFloat(parse, input.quantity).value != 0.0
            ==> item.quantity == ParseFloat(parse, input.quantity).value
    ensures ParseFloat(parse, input.quantity).None? || ParseFloat(parse, input.quantity).value == 0.0
            ==> item.quantity == 1.0
    ensures item.price == ParseFloat(parse, input.price).GetOr(0.0)
  {
    Item(input.description, input.details, NumberOr(ParseFloat(parse, input.quantity), 1.0),
         NumberOr(ParseFloat(parse, input.price), 0.0))
  }

  /** The client `InvoiceItem.validate()`. */
  function ValidateClientItem(item: Item): Report {
    var errors :=
      (if item.description == "" then ["Description is required"] else [])
      + (if item.quantity <= 0.0 then ["Quantity must be greater than 0"] else [])
      + (if item.price < 0.0 then ["Price cannot be negative"] else []);
    Report(|errors| == 0, errors)
  }

  /** A client item is valid exactly when it has a description, a positive quantity and a price of at least 0. */
  lemma ValidateClientItemExactly(item: Item)
    ensures ValidateClientItem(item).isValid <==> item.description != "" && item.quantity > 0.0 && item.price >= 0.0
    ensures "Quantity must be greater than 0" in ValidateClientItem(item).errors <==> item.quantity <= 0.0
    ensures "Price cannot be negative" in ValidateClientItem(item).errors <==> item.price < 0.0
  {
  }

  /** `items[index][property] = value` for the four item properties. */
  datatype ItemEdit = EditDescription(s: string) | EditDetails(s: string) | EditQuantity(q: real) | EditPrice(p: real)

  function ApplyEdit(item: Item, edit: ItemEdit): Item {
    match edit
    case EditDescription(s) => item.(description := s)
    case EditDetails(s) => item.(details := s)
    case EditQuantity(q) => item.(quantity := q)
    case EditPrice(p) => item.(price := p)
  }

  // ----- Guards -----

  const ValidModels: seq<string> := ["light", "boxed", "bold", "striped"]

  /**
   * `isValidColor(color)`: `/^#[0-9A-F]{6}$/i`, a '#' and six hexadecimal digits of either
   * case, which is the notation `hexToRgb` reads.
   */
  predicate IsValidColor(color: string) {
    IsHexColor(color)
  }

  /** Any colour the guard lets through reads as three channels in [0, 1]. */
  lemma ValidColorRenders(color: string)
    requires IsValidColor(color)
    ensures UnitChannel(HexToRgb(color).r) && UnitChannel(HexToRgb(color).g) && UnitChannel(HexToRgb(color).b)
  {
    HexToRgbInRange(color);
  }

  /** The regular expression rejects a short colour, a missing '#', and a non-hex digit. */
  lemma IsValidColorExamples()
    ensures IsValidColor("#1a2B3c") && IsValidColor("#000000")
    ensures !IsValidColor("#12345") && !IsValidColor("1234567") && !IsValidColor("#12345g")
  {
    var bad := "#12345g";
    assert bad[6] == 'g' && HexDigitValue(bad[6]).None?;
  }

  const ImageSlots: seq<string> := ["logoImage", "signatureImage", "headerImage", "footerImage", "watermarkImage"]

  /** `images[slot] = data` for one of the five slot names. */
  function WithImage(images: Images, slot: string, data: Option<string>): (r: Images)
    requires slot in ImageSlots
    ensures r.watermarkOpacity == images.watermarkOpacity
    ensures r.logoImage == (if slot == "logoImage" then data else images.logoImage)
    ensures r.signatureImage == (if slot == "signatureImage" then data else images.signatureImage)
    ensures r.headerImage == (if slot == "headerImage" then data else images.headerImage)
    ensures r.footerImage == (if slot == "footerImage" then data else images.footerImage)
    ensures r.watermarkImage == (if slot == "watermarkImage" then data else images.watermarkImage)
  {
    if slot == "logoImage" then images.(logoImage := data)
    else if slot == "signatureImage" then images.(signatureImage := data)
    else if slot == "headerImage" then images.(headerImage := data)
    else if slot == "footerImage" then images.(footerImage := data)
    else images.(watermarkImage := data)
  }

  /** `positionData[elementId][property] = value`, creating the element's entry when missing. */
  function WithPosition(positions: PositionData, elementId: string, property: string, value: real): (r: PositionData)
    ensures r.Keys == positions.Keys + {elementId}
    ensures elementId in r && property in r[elementId] && r[elementId][property] == value
    ensures elementId in positions ==> r[elementId].Keys == positions[elementId].Keys + {property}
    ensures elementId !in positions ==> r[elementId].Keys == {property}
    ensures forall p :: p in r[elementId] && p != property ==> r[elementId][p] == positions[elementId][p]
    ensures forall e :: e in positions && e != elementId ==> r[e] == positions[e]
  {
    var entry := if elementId in positions then positions[elementId] else map[];
    positions[elementId := entry[property := value]]
  }

  // ----- Totals and validation -----

  /** `calculateSubtotal()`: the sum of the item totals. */
  function Subtotal(d: ClientData): real {
    Invoice.Sum(d.items)
  }

  /** `calculateTax()` */
  function Tax(d: ClientData): real {
    Subtotal(d) * (d.taxRate / 100.0)
  }

  /** `calculateTotal()` */
  function Total(d: ClientData): real {
    Subtotal(d) + Tax(d)
  }

  /**
   * The total is the subtotal raised by the rate; with no items everything is 0, and an
   * appended item raises the subtotal by its quantity times its price.
   */
  lemma TotalsExactly(d: ClientData, item: Item)
    ensures Total(d) == Subtotal(d) * (1.0 + d.taxRate / 100.0)
    ensures d.items == [] ==> Subtotal(d) == 0.0 && Total(d) == 0.0
    ensures Subtotal(d.(items := d.items + [item])) == Subtotal(d) + item.quantity * item.price
  {
    Invoice.SumAppend(d.items, [item]);
  }

  /** The client `validate()`: an invoice number, company details and one item are required. */
  function Validate(d: ClientData): Report {
    var errors :=
      (if d.invoiceNumber == "" then ["Invoice number is required"] else [])
      + (if d.companyDetails == "" then ["Company details are required"] else [])
      + (if |d.items| == 0 then ["At least one item is required"] else []);
    Report(|errors| == 0, errors)
  }

  lemma ValidateExactly(d: ClientData)
    ensures Validate(d).isValid <==> d.invoiceNumber != "" && d.companyDetails != "" && |d.items| > 0
    ensures "At least one item is required" in Validate(d).errors <==> |d.items| == 0
    ensures |Validate(d).errors| <= 3
  {
  }

  // ----- Observers -----

  /** An observer object; `listens` is whether its `update` is a function. */
  datatype Observer = Observer(id: nat, listens: bool)

  /** The value passed to `update(property, value)`. */
  datatype Shown =
    | ShownText(s: string)
    | ShownRate(r: real)
    | ShownItems(items: seq<Item>)
    | ShownImages(images: Images)
    | ShownPositions(positions: PositionData)

  datatype Notice = Notice(property: string, value: Shown)

  /** One call `observer.update(property, value)`. */
  datatype Delivery = Delivery(observer: nat, notice: Notice)

  /** The calls `notifyObservers` makes: one per listening observer, in registration order. */
  function Deliveries(observers: seq<Observer>, notice: Notice): (ds: seq<Delivery>)
    ensures |ds| <= |observers|
    ensures forall k :: 0 <= k < |ds| ==> ds[k].notice == notice
  {
    if observers == [] then []
    else
      var last := observers[|observers| - 1];
      Deliveries(observers[..|observers| - 1], notice) + (if last.listens then [Delivery(last.id, notice)] else [])
  }

  /** Notifying a list of observers is notifying its first part, then its second. */
  lemma {:induction false} DeliveriesAppend(a: seq<Observer>, b: seq<Observer>, notice: Notice)
    ensures Deliveries(a + b, notice) == Deliveries(a, notice) + Deliveries(b, notice)
    decreases |b|
  {
    if b == [] {
      assert a + b == a;
    } else {
      var n := |b| - 1;
      assert (a + b)[..|a + b| - 1] == a + b[..n];
      DeliveriesAppend(a, b[..n], notice);
    }
  }

  /** An observer is called exactly when it listens, and an observer added later is called later. */
  lemma DeliveriesAddObserver(observers: seq<Observer>, o: Observer, notice: Notice)
    ensures Deliveries(observers + [o], notice)
            == Deliveries(observers, notice) + (if o.listens then [Delivery(o.id, notice)] else [])
  {
    assert (observers + [o])[..|observers|] == observers;
  }

  /** `observers.filter(obs => obs !== observer)`: every occurrence of that observer dropped. */
  function Without(observers: seq<Observer>, id: nat): (r: seq<Observer>)
    ensures forall o :: o in r ==> o.id != id && o in observers
    ensures forall o :: o in observers && o.id != id ==> o in r
  {
    if observers == [] then []
    else
      var last := observers[|observers| - 1];
      Without(observers[..|observers| - 1], id) + (if last.id == id then [] else [last])
  }

  /** Filtering keeps order: the filter of two lists one after the other. */
  lemma {:induction false} WithoutAppend(a: seq<Observer>, b: seq<Observer>, id: nat)
    ensures Without(a + b, id) == Without(a, id) + Without(b, id)
    decreases |b|
  {
    if b == [] {
      assert a + b == a;
    } else {
      var n := |b| - 1;
      assert (a + b)[..|a + b| - 1] == a + b[..n];
      WithoutAppend(a, b[..n], id);
    }
  }

  /** A removed observer is never called again. */
  lemma {:induction false} RemovedNotNotified(observers: seq<Observer>, id: nat, notice: Notice)
    ensures forall d :: d in Deliveries(Without(observers, id), notice) ==> d.observer != id
    decreases |observers|
  {
    if observers != [] {
      var n := |observers| - 1;
      var last := observers[n];
      RemovedNotNotified(observers[..n], id, notice);
      var kept := Without(observers[..n], id);
      var tail := if last.id == id then [] else [last];
      DeliveriesAppend(kept, tail, notice);
      if tail != [] {
        DeliveriesAddObserver([], last, notice);
      }
    }
  }

  /** The invariant every setter keeps: the guarded fields hold only values their guards accept. */
  predicate Guarded(d: ClientData) {
    d.model in ValidModels && IsValidColor(d.primaryColor) && IsValidColor(d.secondaryColor) && d.taxRate >= 0.0
  }

  lemma InitialGuarded(today: string, due: string)
    ensures Guarded(Initial(today, due))
  {
  }

  class InvoiceModel {
    var data: ClientData
    var observers: seq<Observer>
    /** Every `update` call made on an observer so far, in order. */
    var delivered: seq<Delivery>

    constructor(today: string, due: string)
      ensures data == Initial(today, due) && observers == [] && delivered == []
      ensures Guarded(data)
    {
      data := Initial(today, due);
      observers := [];
      delivered := [];
    }

    method AddObserver(o: Observer)
      modifies this
      ensures observers == old(observers) + [o]
      ensures data == old(data) && delivered == old(delivered)
    {
      observers := observers + [o];
    }

    method RemoveObserver(o: Observer)
      modifies this
      ensures observers == Without(old(observers), o.id)
      ensures data == old(data) && delivered == old(delivered)
    {
      observers := Without(observers, o.id);
    }

    /** `notifyObservers(property, value)`: each observer in turn, skipping one without `update`. */
    method NotifyObservers(notice: Notice)
      modifies this
      ensures delivered == old(delivered) + Deliveries(observers, notice)
      ensures data == old(data) && observers == old(observers)
    {
      for i := 0 to |observers|
        invariant data == old(data) && observers == old(observers)
        invariant delivered == old(delivered) + Deliveries(observers[..i], notice)
      {
        assert observers[..i + 1][..i] == observers[..i];
        if observers[i].listens {
          delivered := delivered + [Delivery(observers[i].id, notice)];
        }
      }
      assert observers[..|observers|] == observers;
    }

    /** `setModel(model)`: one of the four models, or nothing at all. */
    method SetModel(model: string)
      requires Guarded(data)
      modifies this
      ensures Guarded(data) && observers == old(observers)
      ensures model in ValidModels ==>
                data == old(data).(model := model)
                && delivered == old(delivered) + Deliveries(observers, Notice("model", ShownText(model)))
      ensures model !in ValidModels ==> data == old(data) && delivered == old(delivered)
    {
      if model in ValidModels {
        data := data.(model := model);
        NotifyObservers(Notice("model", ShownText(model)));
      }
    }

    method SetFont(font: string)
      requires Guarded(data)
      modifies this
      ensures Guarded(data) && observers == old(observers)
      ensures data == old(data).(font := font)
      ensures delivered == old(delivered) + Deliveries(observers, Notice("font", ShownText(font)))
    {
      data := data.(font := font);
      NotifyObservers(Notice("font", ShownText(font)));
    }

    method SetPrimaryColor(color: string)
      requires Guarded(data)
      modifies this
      ensures Guarded(data) && observers == old(observers)
      ensures IsValidColor(color) ==>
                data == old(data).(primaryColor := color)
                && delivered == old(delivered) + Deliveries(observers, Notice("primaryColor", ShownText(color)))
      ensures !IsValidColor(color) ==> data == old(data) && delivered == old(delivered)
    {
      if IsValidColor(color) {
        data := data.(primaryColor := color);
        NotifyObservers(Notice("primaryColor", ShownText(color)));
      }
    }

    method SetSecondaryColor(color: string)
      requires Guarded(data)
      modifies this
      ensures Guarded(data) && observers == old(observers)
      ensures IsValidColor(color) ==>
                data == old(data).(secondaryColor := color)
                && delivered == old(delivered) + Deliveries(observers, Notice("secondaryColor", ShownText(color)))
      ensures !IsValidColor(color) ==> data == old(data) && delivered == old(delivered)
    {
      if IsValidColor(color) {
        data := data.(secondaryColor := color);
        NotifyObservers(Notice("secondaryColor", ShownText(color)));
      }
    }

    method SetCompanyDetails(details: string)
      requires Guarded(data)
      modifies this
      ensures Guarded(data) && observers == old(observers)
      ensures data == old(data).(companyDetails := details)
      ensures delivered == old(delivered) + Deliveries(observers, Notice("companyDetails", ShownText(details)))
    {
      data := data.(companyDetails := details);
      NotifyObservers(Notice("companyDetails", ShownText(details)));
    }

    method SetClientDetails(details: string)
      requires Guarded(data)
      modifies this
      ensures Guarded(data) && observers == old(observers)
      ensures data == old(data).(clientDetails := details)
      ensures delivered == old(delivered) + Deliveries(observers, Notice("clientDetails", ShownText(details)))
    {
      data := data.(clientDetails := details);
      NotifyObservers(Notice("clientDetails", ShownText(details)));
    }

    method SetInvoiceNumber(number: string)
      requires Guarded(data)
      modifies this
      ensures Guarded(data) && observers == old(observers)
      ensures data == old(data).(invoiceNumber := number)
      ensures delivered == old(delivered) + Deliveries(observers, Notice("invoiceNumber", ShownText(number)))
    {
      data := data.(invoiceNumber := number);
      NotifyObservers(Notice("invoiceNumber", ShownText(number)));
    }

    /** `setTaxRate(rate)`: a parsed rate of at least 0, or nothing at all. */
    method SetTaxRate(parse: Parser, rate: Value)
      requires Guarded(data)
      modifies this
      ensures Guarded(data) && observers == old(observers)
      ensures var parsed := ParseFloat(parse, rate);
              if parsed.Some? && parsed.value >= 0.0 then
                data == old(data).(taxRate := parsed.value)
                && delivered == old(delivered) + Deliveries(observers, Notice("taxRate", ShownRate(parsed.value)))
              else data == old(data) && delivered == old(delivered)
    {
      var parsed := ParseFloat(parse, rate);
      if parsed.Some? && parsed.value >= 0.0 {
        data := data.(taxRate := parsed.value);
        NotifyObservers(Notice("taxRate", ShownRate(parsed.value)));
      }
    }

    /** `addItem(item)`: the new item goes at the end and is returned. */
    method AddItem(parse: Parser, input: ItemInput) returns (item: Item)
      requires Guarded(data)
      modifies this
      ensures Guarded(data) && observers == old(observers)
      ensures item == NewClientItem(parse, input)
      ensures data == old(data).(items := old(data).items + [item])
      ensures delivered == old(delivered) + Deliveries(observers, Notice("items", ShownItems(data.items)))
    {
      item := NewClientItem(parse, input);
      data := data.(items := data.items + [item]);
      NotifyObservers(Notice("items", ShownItems(data.items)));
    }

    /** `removeItem(index)`: exactly item `index` goes, when there is one. */
    method RemoveItem(index: int)
      requires Guarded(data)
      modifies this
      ensures Guarded(data) && observers == old(observers)
      ensures 0 <= index < |old(data).items| ==>
                data == old(data).(items := old(data).items[..index] + old(data).items[index + 1..])
                && delivered == old(delivered) + Deliveries(observers, Notice("items", ShownItems(data.items)))
      ensures !(0 <= index < |old(data).items|) ==> data == old(data) && delivered == old(delivered)
    {
      if 0 <= index < |data.items| {
        data := data.(items := data.items[..index] + data.items[index + 1..]);
        NotifyObservers(Notice("items", ShownItems(data.items)));
      }
    }

    /** `updateItem(index, property, value)`: only item `index` changes, when there is one. */
    method UpdateItem(index: int, edit: ItemEdit)
      requires Guarded(data)
      modifies this
      ensures Guarded(data) && observers == old(observers)
      ensures 0 <= index < |old(data).items| ==>
                data == old(data).(items := old(data).items[index := ApplyEdit(old(data).items[index], edit)])
                && delivered == old(delivered) + Deliveries(observers, Notice("items", ShownItems(data.items)))
      ensures !(0 <= index < |old(data).items|) ==> data == old(data) && delivered == old(delivered)
    {
      if 0 <= index < |data.items| {
        data := data.(items := data.items[index := ApplyEdit(data.items[index], edit)]);
        NotifyObservers(Notice("items", ShownItems(data.items)));
      }
    }

    /** `setImage(type, imageData)`: only the five slot names write, `watermarkOpacity` included among the refused. */
    method SetImage(slot: string, imageData: Option<string>)
      requires Guarded(data)
      modifies this
      ensures Guarded(data) && observers == old(observers)
      ensures slot in ImageSlots ==>
                data == old(data).(images := WithImage(old(data).images, slot, imageData))
                && delivered == old(delivered) + Deliveries(observers, Notice("images", ShownImages(data.images)))
      ensures slot !in ImageSlots ==> data == old(data) && delivered == old(delivered)
    {
      if slot in ImageSlots {
        data := data.(images := WithImage(data.images, slot, imageData));
        NotifyObservers(Notice("images", ShownImages(data.images)));
      }
    }

    /** `setPosition(elementId, property, value)` */
    method SetPosition(elementId: string, property: string, value: real)
      requires Guarded(data)
      modifies this
      ensures Guarded(data) && observers == old(observers)
      ensures data == old(data).(positionData := WithPosition(old(data).positionData, elementId, property, value))
      ensures delivered == old(delivered) + Deliveries(observers, Notice("positionData", ShownPositions(data.positionData)))
    {
      data := data.(positionData := WithPosition(data.positionData, elementId, property, value));
      NotifyObservers(Notice("positionData", ShownPositions(data.positionData)));
    }
  }

  /** Removing item `index` keeps the others in their order and lowers the subtotal by its total. */
  lemma RemoveItemExactly(d: ClientData, index: nat)
    requires index < |d.items|
    ensures var rest := d.items[..index] + d.items[index + 1..];
            |rest| == |d.items| - 1
            && (forall k :: 0 <= k < index ==> rest[k] == d.items[k])
            && (forall k :: index <= k < |rest| ==> rest[k] == d.items[k + 1])
            && Subtotal(d.(items := rest)) == Subtotal(d) - d.items[index].Total()
  {
    var items := d.items;
    assert items == items[..index] + [items[index]] + items[index + 1..];
    Invoice.SumAppend(items[..index] + [items[index]], items[index + 1..]);
    Invoice.SumAppend(items[..index], [items[index]]);
    Invoice.SumAppend(items[..index], items[index + 1..]);
    assert Invoice.Sum([items[index]]) == items[index].Total();
  }

  /** "watermarkOpacity" is not one of the slots `setImage` writes. */
  lemma OpacityNotASlot()
    ensures "watermarkOpacity" !in ImageSlots
  {
  }
}

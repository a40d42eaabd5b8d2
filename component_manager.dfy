/**
 * The client's `ComponentManager` without its DOM: the registry of components placed on
 * the invoice (a `Map` from component id to its record, kept in insertion order), the
 * selected component, whether the empty-state placeholder shows, the clamps applied when a
 * component is resized or dragged, and the calculators of the table and summary editors.
 */
module ComponentManagement {
  import opened Wrappers
  import opened Js
  import opened Payload
  import opened ComponentLibrary

  /** What the registry keeps per component: its definition, position and size. */
  datatype Record = Record(component: Definition, position: Point, size: Size)

  /** The position the n-th added component starts at: one 60-point step down per earlier one. */
  function StartPosition(n: nat): Point {
    Point(50.0, 50.0 + 60.0 * n as real)
  }

  const DefaultSize: Size := Size(200.0, 60.0)

  function Max(a: real, b: real): real {
    if a >= b then a else b
  }

  /**
   * `Number.parseInt(v + "px")` for a pixel value written into a style: the integer part,
   * truncated toward zero.
   */
  function Trunc(v: real): (r: real)
    ensures v >= 0.0 ==> 0.0 <= r <= v < r + 1.0
    ensures v < 0.0 ==> v <= r <= 0.0 && r - 1.0 < v
    ensures r == r.Floor as real
  {
    var n := if v >= 0.0 then v.Floor else -((-v).Floor);
    WholeFloor(n);
    n as real
  }

  /** A whole number is its own floor. */
  lemma WholeFloor(n: int)
    ensures (n as real).Floor == n
  {
  }

  /** The element's left, top, width and height, in pixels. */
  datatype Box = Box(left: real, top: real, width: real, height: real)

  /**
   * The box a resize drags the element to, for the handle whose second class is `handle`:
   * east, then west, then south, then north, each tested with `includes` on that class.
   */
  function ResizeBox(handle: string, start: Box, dx: real, dy: real): Box {
    var width := if Includes(handle, "e") then Max(50.0, start.width + dx) else start.width;
    var width', left := if Includes(handle, "w") then Max(50.0, start.width - dx) else width,
                        if Includes(handle, "w") then start.left + dx else start.left;
    var height := if Includes(handle, "s") then Max(30.0, start.height + dy) else start.height;
    var height', top := if Includes(handle, "n") then Max(30.0, start.height - dy) else height,
                        if Includes(handle, "n") then start.top + dy else start.top;
    Box(left, top, width', height')
  }

  /** The eight resize handles' direction classes. */
  const Handles: seq<string> := ["resize-se", "resize-sw", "resize-ne", "resize-nw", "resize-n", "resize-s",
                                 "resize-e", "resize-w"]

  lemma IncludesAt(s: string, p: string, j: nat)
    requires MatchAt(s, p, j)
    ensures Includes(s, p)
  {
  }

  /** "resize-" itself contains an 'e' and an 's', so every handle class does. */
  lemma HandleClassHasEastAndSouth(handle: string)
    requires StartsWith(handle, "resize-")
    ensures Includes(handle, "e") && Includes(handle, "s")
  {
    assert handle[1..2] == "e" && handle[2..3] == "s";
    IncludesAt(handle, "e", 1);
    IncludesAt(handle, "s", 2);
  }

  /**
   * Whatever handle is dragged, the resized box is at least 50 wide and 30 high; and since
   * the east and south tests pass for every handle, a handle without 'w' (or 'n') sets the
   * width (or height) from the horizontal (or vertical) movement.
   */
  lemma ResizeBounds(handle: string, start: Box, dx: real, dy: real)
    requires StartsWith(handle, "resize-")
    ensures ResizeBox(handle, start, dx, dy).width >= 50.0 && ResizeBox(handle, start, dx, dy).height >= 30.0
    ensures !Includes(handle, "w") ==> ResizeBox(handle, start, dx, dy).width == Max(50.0, start.width + dx)
    ensures !Includes(handle, "n") ==> ResizeBox(handle, start, dx, dy).height == Max(30.0, start.height + dy)
  {
    HandleClassHasEastAndSouth(handle);
  }

  /** Every one of the eight handles starts with "resize-". */
  lemma HandlesStartWithResize()
    ensures forall h :: h in Handles ==> StartsWith(h, "resize-")
  {
  }

  /** Where a drag leaves the element: never left of or above the container. */
  function DragPoint(startLeft: real, startTop: real, dx: real, dy: real): (p: Point)
    ensures p.x >= 0.0 && p.y >= 0.0
    ensures p.x == startLeft + dx || p.x == 0.0
    ensures p.y == startTop + dy || p.y == 0.0
  {
    Point(Max(0.0, startLeft + dx), Max(0.0, startTop + dy))
  }

  /** `calculateTotal` of a table row: quantity times price, an unparsable value counting as 0. */
  function RowTotal(parse: Parser, quantity: string, price: string): (total: real)
    ensures parse(quantity).None? || parse(price).None? ==> total == 0.0
    ensures parse(quantity).Some? && parse(price).Some? ==> total == parse(quantity).value * parse(price).value
  {
    NumberOr(parse(quantity), 0.0) * NumberOr(parse(price), 0.0)
  }

  /** The tax and total the summary editor shows. */
  datatype Amounts = Amounts(taxAmount: real, total: real)

  /** `calculateAmounts`: the tax at the rate, then subtotal plus tax, unparsable values counting as 0. */
  function SummaryAmounts(parse: Parser, subtotal: string, taxRate: string): (a: Amounts)
    ensures var s := parse(subtotal).GetOr(0.0);
            var rate := parse(taxRate).GetOr(0.0);
            a.taxAmount == s * rate / 100.0 && a.total == s + a.taxAmount
    ensures a.total == parse(subtotal).GetOr(0.0) * (1.0 + parse(taxRate).GetOr(0.0) / 100.0)
    ensures parse(subtotal).None? ==> a == Amounts(0.0, 0.0)
  {
    var s := NumberOr(parse(subtotal), 0.0);
    var rate := NumberOr(parse(taxRate), 0.0);
    var tax := s * (rate / 100.0);
    Amounts(tax, s + tax)
  }

  /** The keys of `order` other than `id`, in order. */
  function RemoveKey(order: seq<string>, id: string): (r: seq<string>)
    ensures forall k :: k in r <==> k in order && k != id
    ensures |r| <= |order|
  {
    if order == [] then []
    else (if order[0] == id then [] else [order[0]]) + RemoveKey(order[1..], id)
  }

  predicate Distinct(s: seq<string>) {
    forall i, j :: 0 <= i < j < |s| ==> s[i] != s[j]
  }

  /** Storing a record, and appending its id to the order when it is new, keeps the two in step. */
  lemma AddKeyInStep(order: seq<string>, records: map<string, Record>, id: string, r: Record)
    requires Distinct(order) && forall k :: k in records <==> k in order
    ensures var order' := if id in records then order else order + [id];
            Distinct(order') && (forall k :: k in records[id := r] <==> k in order') && |records[id := r]| > 0
  {
    assert id in records[id := r].Keys;
    if id !in records {
      var order' := order + [id];
      forall i, j | 0 <= i < j < |order'| ensures order'[i] != order'[j] {
        if j == |order| {
          assert order'[i] == order[i] && order[i] in records;
        } else {
          assert order'[i] == order[i] && order'[j] == order[j];
        }
      }
    }
  }

  /** Deleting a record, and dropping its id from the order, keeps the two in step. */
  lemma RemoveKeyInStep(order: seq<string>, records: map<string, Record>, id: string)
    requires Distinct(order) && forall k :: k in records <==> k in order
    ensures Distinct(RemoveKey(order, id))
    ensures forall k :: k in records - {id} <==> k in RemoveKey(order, id)
  {
    RemoveKeyDistinct(order, id);
  }

  lemma {:induction false} RemoveKeyDistinct(order: seq<string>, id: string)
    requires Distinct(order)
    ensures Distinct(RemoveKey(order, id))
  {
    if order != [] {
      RemoveKeyDistinct(order[1..], id);
      var rest := RemoveKey(order[1..], id);
      var head := if order[0] == id then [] else [order[0]];
      assert order[0] !in order[1..];
      forall i, j | 0 <= i < j < |head + rest| ensures (head + rest)[i] != (head + rest)[j] {
        if i < |head| {
          assert (head + rest)[j] == rest[j - 1];
          assert rest[j - 1] in order[1..];
        }
      }
    }
  }

  class ComponentManager {
    /** The `Map`'s keys in insertion order. */
    var order: seq<string>
    var records: map<string, Record>
    var selected: Option<string>
    /** Whether the empty-state placeholder is displayed. */
    var emptyShown: bool

    /** The keys are listed once each, the placeholder shows exactly when nothing is placed. */
    ghost predicate Valid()
      reads this
    {
      Distinct(order) && (forall k :: k in records <==> k in order) && (emptyShown <==> |records| == 0)
    }

    constructor()
      ensures Valid() && order == [] && records == map[] && selected.None? && emptyShown
    {
      order := [];
      records := map[];
      selected := None;
      emptyShown := true;
    }

    /** `hasComponents()` */
    function HasComponents(): (has: bool)
      reads this
      requires Valid()
      ensures has <==> |order| > 0
      ensures has <==> !emptyShown
    {
      if |order| > 0 then
        assert order[0] in records.Keys;
        |records| > 0
      else
        assert records.Keys == {};
        |records| > 0
    }

    /** `getActiveComponents()`: the ids placed, each once, in the order they were first added. */
    function GetActiveComponents(): (ids: seq<string>)
      reads this
      requires Valid()
      ensures Distinct(ids) && forall k :: k in ids <==> k in records
    {
      order
    }

    /**
     * `addComponent(component)`: a record under the component's id, placed 60 points below
     * the previous one and 200 by 60 in size; an id already present is overwritten in place.
     */
    method AddComponent(component: Definition)
      requires Valid()
      modifies this
      ensures Valid()
      ensures records == old(records)[component.id := Record(component, StartPosition(|old(records)|), DefaultSize)]
      ensures order == if component.id in old(records) then old(order) else old(order) + [component.id]
      ensures selected == old(selected) && !emptyShown
    {
      var record := Record(component, StartPosition(|records|), DefaultSize);
      StoreRecord(component.id, record);
      ghost var stored := records;
      assert stored[component.id].(size := Size(200.0, 60.0)) == record;
      assert stored[component.id := record] == stored;
      UpdateComponentSize(component.id, 200.0, 60.0);
    }

    /** The `activeComponents.set` of `addComponent`, with the placeholder hidden. */
    method StoreRecord(id: string, record: Record)
      requires Valid()
      modifies this
      ensures Valid()
      ensures records == old(records)[id := record] && id in records && records[id] == record
      ensures order == if id in old(records) then old(order) else old(order) + [id]
      ensures selected == old(selected) && !emptyShown
    {
      AddKeyInStep(order, records, id, record);
      emptyShown := false;
      if id !in records {
        order := order + [id];
      }
      records := records[id := record];
    }

    /** `updateComponentSize(componentId, width, height)`: only that record's size, when there is one. */
    method UpdateComponentSize(componentId: string, width: real, height: real)
      requires Valid()
      modifies this
      ensures Valid()
      ensures componentId in old(records) ==>
                records == old(records)[componentId := old(records)[componentId].(size := Size(width, height))]
      ensures componentId !in old(records) ==> records == old(records)
      ensures order == old(order) && selected == old(selected) && emptyShown == old(emptyShown)
    {
      if componentId in records {
        records := records[componentId := records[componentId].(size := Size(width, height))];
      }
    }

    /** `deselectComponent()`: clears a selection, unless it is the falsy id "". */
    method DeselectComponent()
      modifies this
      ensures selected == if old(selected) == Some("") then old(selected) else None
      ensures order == old(order) && records == old(records) && emptyShown == old(emptyShown)
    {
      if selected.Some? && selected.value != "" {
        selected := None;
      }
    }

    /** `selectComponent(componentId)`: the id when it is placed, otherwise no selection. */
    method SelectComponent(componentId: string)
      modifies this
      ensures componentId in records ==> selected == Some(componentId)
      ensures componentId !in records ==> selected == if old(selected) == Some("") then old(selected) else None
      ensures order == old(order) && records == old(records) && emptyShown == old(emptyShown)
    {
      DeselectComponent();
      if componentId in records {
        selected := Some(componentId);
      }
    }

    /**
     * `removeComponent(componentId)`: only that record goes, and the placeholder shows
     * again once nothing is left; an unknown id changes nothing. The selection is kept.
     */
    method RemoveComponent(componentId: string)
      requires Valid()
      modifies this
      ensures Valid()
      ensures records == old(records) - {componentId}
      ensures order == RemoveKey(old(order), componentId) && selected == old(selected)
      ensures componentId !in old(records) ==> order == old(order) && emptyShown == old(emptyShown)
    {
      if componentId in records {
        RemoveKeyInStep(order, records, componentId);
        assert !emptyShown;
        records := records - {componentId};
        order := RemoveKey(order, componentId);
        if |records| == 0 {
          emptyShown := true;
        }
      } else {
        RemoveKeyAbsent(order, componentId);
        assert records - {componentId} == records;
      }
    }

    /** A resize's mouseup: the box the handle dragged to, as whole pixels. */
    method FinishResize(componentId: string, handle: string, start: Box, dx: real, dy: real)
      requires Valid()
      modifies this
      ensures Valid()
      ensures var b := ResizeBox(handle, start, dx, dy);
              componentId in old(records) ==>
                records == old(records)[componentId := old(records)[componentId].(
                  size := Size(Trunc(b.width), Trunc(b.height)), position := Point(Trunc(b.left), Trunc(b.top)))]
      ensures componentId !in old(records) ==> records == old(records)
      ensures order == old(order) && selected == old(selected) && emptyShown == old(emptyShown)
    {
      var b := ResizeBox(handle, start, dx, dy);
      if componentId in records {
        records := records[componentId := records[componentId].(
          size := Size(Trunc(b.width), Trunc(b.height)), position := Point(Trunc(b.left), Trunc(b.top)))];
      }
    }

    /**
     * A drag's mouseup: the clamped position, as whole pixels. With no mousemove between
     * mousedown and mouseup the source stores the unclamped start point instead; that is the
     * same point (dx = dy = 0) whenever the start is not negative, as stored positions are.
     */
    method FinishDrag(componentId: string, startLeft: real, startTop: real, dx: real, dy: real)
      requires Valid()
      modifies this
      ensures Valid()
      ensures var p := DragPoint(startLeft, startTop, dx, dy);
              componentId in old(records) ==>
                records == old(records)[componentId := old(records)[componentId].(position := Point(Trunc(p.x), Trunc(p.y)))]
      ensures componentId !in old(records) ==> records == old(records)
      ensures order == old(order) && selected == old(selected) && emptyShown == old(emptyShown)
    {
      var p := DragPoint(startLeft, startTop, dx, dy);
      if componentId in records {
        records := records[componentId := records[componentId].(position := Point(Trunc(p.x), Trunc(p.y)))];
      }
    }

    /** The size dialog's "Appliquer": the entered size only when at least 50 by 30. */
    method ApplySizeDialog(componentId: string, width: Option<int>, height: Option<int>) returns (applied: bool)
      requires Valid()
      modifies this
      ensures Valid()
      ensures applied <==> width.Some? && height.Some? && width.value >= 50 && height.value >= 30
      ensures applied && componentId in old(records) ==>
                records == old(records)[componentId := old(records)[componentId].(
                  size := Size(width.value as real, height.value as real))]
      ensures !applied || componentId !in old(records) ==> records == old(records)
      ensures order == old(order) && selected == old(selected) && emptyShown == old(emptyShown)
    {
      applied := width.Some? && height.Some? && width.value >= 50 && height.value >= 30;
      if applied {
        UpdateComponentSize(componentId, width.value as real, height.value as real);
      }
    }
  }

  lemma {:induction false} RemoveKeyAbsent(order: seq<string>, id: string)
    requires id !in order
    ensures RemoveKey(order, id) == order
  {
    if order != [] {
      RemoveKeyAbsent(order[1..], id);
      assert order == [order[0]] + order[1..];
    }
  }

  /** Resized and dragged records keep the clamps once stored as whole pixels. */
  lemma StoredClamps(handle: string, start: Box, dx: real, dy: real, startLeft: real, startTop: real)
    requires StartsWith(handle, "resize-")
    ensures Trunc(ResizeBox(handle, start, dx, dy).width) >= 50.0
    ensures Trunc(ResizeBox(handle, start, dx, dy).height) >= 30.0
    ensures Trunc(DragPoint(startLeft, startTop, dx, dy).x) >= 0.0
    ensures Trunc(DragPoint(startLeft, startTop, dx, dy).y) >= 0.0
  {
    ResizeBounds(handle, start, dx, dy);
    var b := ResizeBox(handle, start, dx, dy);
    assert 50.0 <= b.width < Trunc(b.width) + 1.0;
    assert (50.0 as int) as real == 50.0;
  }
}

/** The dashboard layout: an ordered list of widgets that the user pins,
    adds, removes and reorders, loaded from saved state or a default. */
module Dashboard {
  import opened Prelude

  datatype WidgetType =
    | Expired | Soon | Opened | InventoryChart | LocationChart
    | Todos | Product | Shortcut | ShoppingList

  /** `colSpan`: 1 is half width, 2 is full width. */
  datatype Span = Half | Full

  /** A widget. Its free-form `props` are modelled as a record of string
      values; an absent `props` is the empty record. */
  datatype Widget = Widget(id: string, kind: WidgetType, props: map<string, string>, colSpan: Option<Span>)

  const DefaultLayout: seq<Widget> := [
    Widget("w1", Expired, map[], Some(Half)),
    Widget("w2", Soon, map[], Some(Half)),
    Widget("w3", Opened, map[], Some(Full)),
    Widget("w4", InventoryChart, map[], Some(Half)),
    Widget("w5", Todos, map[], Some(Half)),
    Widget("w6", LocationChart, map[], Some(Full))
  ]

  /** Whether `w` is the pin of product `productId`. */
  predicate Pins(w: Widget, productId: string) {
    w.kind == Product && "productId" in w.props && w.props["productId"] == productId
  }

  function NotPinning(productId: string): Widget -> bool {
    (w: Widget) => !Pins(w, productId)
  }

  function WidgetIdIsNot(id: string): Widget -> bool {
    (w: Widget) => w.id != id
  }

  /** `isProductPinned`: some widget is a product widget for `productId`. */
  function IsProductPinned(layout: seq<Widget>, productId: string): (b: bool)
    ensures b <==> exists i :: 0 <= i < |layout| && Pins(layout[i], productId)
  {
    if layout == [] then false
    else Pins(layout[0], productId) || IsProductPinned(layout[1..], productId)
  }

  /** The width `addWidget` gives a new widget. */
  function DefaultSpan(kind: WidgetType): (s: Span)
    ensures s == Full <==> kind == Opened || kind == LocationChart
  {
    if kind == Opened || kind == LocationChart then Full else Half
  }

  /** The widget that pins a product. */
  function PinWidget(id: string, productId: string): Widget {
    Widget(id, Product, map["productId" := productId], Some(Half))
  }

  /** `layout[i]` and `layout[j]` exchanged; everything else in place. */
  function Swap(s: seq<Widget>, i: nat, j: nat): (r: seq<Widget>)
    requires i < |s| && j < |s|
    ensures |r| == |s| && r[i] == s[j] && r[j] == s[i]
    ensures forall k :: 0 <= k < |s| && k != i && k != j ==> r[k] == s[k]
    ensures multiset(r) == multiset(s)
  {
    var r := s[i := s[j]][j := s[i]];
    assert multiset(s[i := s[j]]) == multiset(s) - multiset{s[i]} + multiset{s[j]};
    r
  }

  /** What could be read from storage: nothing (or an empty string), a
      value that does not parse, or a parsed layout. */
  datatype Stored = Missing | Malformed | Saved(layout: seq<Widget>)

  /** The layout `loadLayout` installs. */
  function Loaded(stored: Stored): seq<Widget> {
    if stored.Saved? then stored.layout else DefaultLayout
  }

  /** The default layout is what `addWidget` would have built, type for
      type, and pins no product. */
  lemma DefaultLayoutConsistent()
    ensures forall i :: 0 <= i < |DefaultLayout| ==>
      DefaultLayout[i].colSpan == Some(DefaultSpan(DefaultLayout[i].kind)) && DefaultLayout[i].kind != Product
  {
  }

  /** Unpinning removes every pin of the product. */
  lemma UnpinClears(layout: seq<Widget>, productId: string)
    ensures !IsProductPinned(Filter(layout, NotPinning(productId)), productId)
  {
    var r := Filter(layout, NotPinning(productId));
    forall i | 0 <= i < |r| ensures !Pins(r[i], productId) {
      assert NotPinning(productId)(r[i]);
    }
  }

  /** Pinning makes the product pinned. */
  lemma PinSets(layout: seq<Widget>, id: string, productId: string)
    ensures IsProductPinned(layout + [PinWidget(id, productId)], productId)
  {
    assert Pins((layout + [PinWidget(id, productId)])[|layout|], productId);
  }

  /** Pinning a product that is not pinned and then unpinning it restores
      the layout exactly. */
  lemma PinThenUnpin(layout: seq<Widget>, id: string, productId: string)
    requires !IsProductPinned(layout, productId)
    ensures Filter(layout + [PinWidget(id, productId)], NotPinning(productId)) == layout
  {
    FilterConcat(layout, [PinWidget(id, productId)], NotPinning(productId));
    FilterKeepsAll(layout, NotPinning(productId));
  }

  /** Moving a widget and moving it back restores the layout. */
  lemma MoveBack(s: seq<Widget>, i: nat, j: nat)
    requires i < |s| && j < |s|
    ensures Swap(Swap(s, i, j), j, i) == s
  {
  }

  class Board {
    var layout: seq<Widget>

    /** The module-level layout starts empty. */
    constructor ()
      ensures layout == []
    {
      layout := [];
    }

    /** `loadLayout`: the saved layout, or a copy of the default when
        nothing is saved or the saved value does not parse. */
    method LoadLayout(stored: Stored)
      modifies this
      ensures stored.Saved? ==> layout == stored.layout
      ensures !stored.Saved? ==> layout == DefaultLayout
    {
      match stored
      case Saved(ws) => layout := ws;
      case Malformed => layout := DefaultLayout;
      case Missing => layout := DefaultLayout;
    }

    /** `useDashboard()` loads the layout once, when it is still empty. */
    method Open(stored: Stored)
      modifies this
      ensures layout == if old(layout) == [] then Loaded(stored) else old(layout)
    {
      if |layout| == 0 {
        LoadLayout(stored);
      }
    }

    /** `toggleProductPin`: drops every pin of the product if there is one,
        otherwise appends one half-width pin widget with the fresh `id`. */
    method ToggleProductPin(productId: string, id: string)
      modifies this
      ensures old(IsProductPinned(layout, productId)) ==> layout == Filter(old(layout), NotPinning(productId))
      ensures !old(IsProductPinned(layout, productId)) ==> layout == old(layout) + [PinWidget(id, productId)]
      ensures IsProductPinned(layout, productId) == !old(IsProductPinned(layout, productId))
    {
      if IsProductPinned(layout, productId) {
        UnpinClears(layout, productId);
        layout := Filter(layout, NotPinning(productId));
      } else {
        PinSets(layout, id, productId);
        layout := layout + [PinWidget(id, productId)];
      }
    }

    /** `addWidget`: appends one widget with the fresh `id`; `Opened` and
        `LocationChart` get full width, every other type half width. */
    method AddWidget(kind: WidgetType, props: map<string, string>, id: string)
      modifies this
      ensures layout == old(layout) + [Widget(id, kind, props, Some(DefaultSpan(kind)))]
    {
      layout := layout + [Widget(id, kind, props, Some(DefaultSpan(kind)))];
    }

    /** `removeWidget`: drops every widget with the id, the rest in order. */
    method RemoveWidget(id: string)
      modifies this
      ensures layout == Filter(old(layout), WidgetIdIsNot(id))
    {
      layout := Filter(layout, WidgetIdIsNot(id));
    }

    /** `moveWidget`: exchanges the widget at `index` with its neighbour in
        `direction`, unless that neighbour would be outside the layout. */
    method MoveWidget(index: int, direction: int)
      requires direction == -1 || direction == 1
      requires 0 <= index < |layout|
      modifies this
      ensures var target := index + direction;
              layout == if 0 <= target < |old(layout)| then Swap(old(layout), index, target) else old(layout)
    {
      var newIndex := index + direction;
      if newIndex < 0 || newIndex >= |layout| {
        return;
      }
      var temp := layout[index];
      layout := layout[index := layout[newIndex]];
      layout := layout[newIndex := temp];
    }
  }
}

/** The 12 x 8 placement grid: what a drop on a cell does to the layout, and which
    items each cell shows. */
module Grid {
  import opened Json
  import opened App

  const Cols: nat := 12
  const Rows: nat := 8

  // ---------------------------------------------------------------------------
  // Dropping on a cell

  /** The two drag payloads; `getData` yields "" for a type that was not set. */
  datatype DropData = DropData(componentType: string, instanceId: string)

  /** The extra fields a new component of each type starts with. */
  function TypeDefaults(t: string): (r: seq<Prop>)
    ensures forall i :: 0 <= i < |r| ==> r[i].key !in BaseKeys
    ensures UniqueKeys(r)
  {
    match t
    case "lens" => [Prop("focalLength", JNum(50.0)), Prop("aperture", JNum(25.0))]
    case "mirror" => [Prop("angle", JNum(0.0)), Prop("reflectivity", JNum(0.95))]
    case "beamsplitter" => [Prop("splitRatio", JNum(0.5))]
    case "fiber" => [Prop("length", JNum(100.0)), Prop("coreDiameter", JNum(9.0))]
    case "detector" => [Prop("sensitivity", JNum(1.0)), Prop("noise", JNum(0.01))]
    case _ => []
  }

  /** The record literal before `...defaults`. */
  function NewBase(t: string, x: int, y: int, freshId: string): seq<Prop> {
    [ Prop("id", JStr(freshId)), Prop("type", JStr(t)),
      Prop("x", JNum(x as real)), Prop("y", JNum(y as real)),
      Prop("rotation", JNum(0.0)), Prop("label", JStr(t)), Prop("color", JStr("#ffcc00")) ]
  }

  /** `{ id: uid(), type, x, y, rotation: 0, label: type, color: '#ffcc00', ...defaults }`;
      `uid()` is the fresh id passed in. */
  function NewItem(t: string, x: int, y: int, freshId: string): (r: Json)
    ensures r == JObj(NewBase(t, x, y, freshId) + TypeDefaults(t))
  {
    var base := NewBase(t, x, y, freshId);
    var d := TypeDefaults(t);
    assert forall i, j :: 0 <= i < |base| && 0 <= j < |d| ==> base[i].key != d[j].key by {
      forall i, j | 0 <= i < |base| && 0 <= j < |d| ensures base[i].key != d[j].key {
        assert base[i].key == BaseKeys[i];
      }
    }
    AssignOverSameKeys(base, [], d);
    assert base + [] == base;
    JObj(Assign(base, d))
  }

  datatype DropAction = MoveTo(id: string) | AddNew(item: Json) | Ignore

  /** An instance id wins over a component type; with neither the drop is ignored. */
  function DropActionOf(data: DropData, x: int, y: int, freshId: string): DropAction {
    if data.instanceId != "" then MoveTo(data.instanceId)
    else if data.componentType != "" then AddNew(NewItem(data.componentType, x, y, freshId))
    else Ignore
  }

  /** `handleDrop(e, cellX, cellY)` against the layout state. */
  method HandleDrop(layout: Layout, data: DropData, x: int, y: int, freshId: string)
    modifies layout`items, layout`selectedId
    ensures DropActionOf(data, x, y, freshId).MoveTo? ==>
      && layout.items == Moved(old(layout.items), JStr(data.instanceId), JNum(x as real), JNum(y as real))
      && layout.selectedId == JStr(data.instanceId)
    ensures DropActionOf(data, x, y, freshId).AddNew? ==>
      && layout.items == old(layout.items) + [NewItem(data.componentType, x, y, freshId)]
      && layout.selectedId == JStr(freshId)
    ensures DropActionOf(data, x, y, freshId).Ignore? ==>
      layout.items == old(layout.items) && layout.selectedId == old(layout.selectedId)
  {
    var existingId := data.instanceId;
    if existingId != "" {
      layout.MoveItem(JStr(existingId), JNum(x as real), JNum(y as real));
      layout.SetSelectedId(JStr(existingId));
      return;
    }
    if data.componentType != "" {
      var newItem := NewItem(data.componentType, x, y, freshId);
      layout.AddItem(newItem);
      layout.SetSelectedId(JStr(freshId));
    }
  }

  /** A new item has the seven base fields, in order, then its type's defaults. */
  lemma NewItemShape(t: string, x: int, y: int, freshId: string)
    ensures var r := NewItem(t, x, y, freshId);
      && Canonical(r)
      && Get(r, "id") == Some(JStr(freshId))
      && Get(r, "x") == Some(JNum(x as real)) && Get(r, "y") == Some(JNum(y as real))
      && Get(r, "rotation") == Some(JNum(0.0))
      && Get(r, "label") == Some(JStr(t))
      && Get(r, "color") == Some(JStr("#ffcc00"))
  {
    var base, d := NewBase(t, x, y, freshId), TypeDefaults(t);
    var ps := base + d;
    assert forall i :: 0 <= i < |d| ==> d[i].key != "properties";
    BaseThenExtras(base, d);
    assert forall i :: 0 <= i < |base| ==> ps[i] == base[i];
    LookupAt(ps, 0);
    LookupAt(ps, 2);
    LookupAt(ps, 3);
    LookupAt(ps, 4);
    LookupAt(ps, 5);
    LookupAt(ps, 6);
  }

  /** The base fields followed by extra fields with other keys, distinct among
      themselves, make a canonical item. */
  lemma BaseThenExtras(base: seq<Prop>, d: seq<Prop>)
    requires |base| == |BaseKeys| && forall i :: 0 <= i < |base| ==> base[i].key == BaseKeys[i]
    requires UniqueKeys(d) && forall i :: 0 <= i < |d| ==> d[i].key !in BaseKeys && d[i].key != "properties"
    ensures Canonical(JObj(base + d))
  {
    var ps := base + d;
    assert forall i :: 0 <= i < |base| ==> ps[i] == base[i];
    assert UniqueKeys(ps) by {
      forall i, j | 0 <= i < j < |ps| ensures ps[i].key != ps[j].key {
        if j >= |base| && i < |base| {
          assert ps[j] == d[j - |base|] && ps[i].key == BaseKeys[i];
        } else if i >= |base| {
          assert ps[i] == d[i - |base|] && ps[j] == d[j - |base|];
        }
      }
    }
    assert "properties" !in Keys(ps) by {
      forall i | 0 <= i < |ps| ensures ps[i].key != "properties" {
        if i >= |base| {
          assert ps[i] == d[i - |base|];
        } else {
          assert ps[i].key == BaseKeys[i];
        }
      }
    }
  }

  /** The defaults of the five known types, and none for any other. */
  lemma TypeDefaultsTable(t: string)
    ensures TypeDefaults("lens") == [Prop("focalLength", JNum(50.0)), Prop("aperture", JNum(25.0))]
    ensures TypeDefaults("mirror") == [Prop("angle", JNum(0.0)), Prop("reflectivity", JNum(0.95))]
    ensures TypeDefaults("beamsplitter") == [Prop("splitRatio", JNum(0.5))]
    ensures TypeDefaults("fiber") == [Prop("length", JNum(100.0)), Prop("coreDiameter", JNum(9.0))]
    ensures TypeDefaults("detector") == [Prop("sensitivity", JNum(1.0)), Prop("noise", JNum(0.01))]
    ensures t !in {"lens", "mirror", "beamsplitter", "fiber", "detector"} ==> TypeDefaults(t) == []
  {
  }

  // ---------------------------------------------------------------------------
  // The cells

  datatype Cell = Cell(x: int, y: int, items: seq<Json>)

  /** `it.x === cellX && it.y === cellY`. */
  predicate OnCell(it: Json, x: int, y: int) {
    Get(it, "x") == Some(JNum(x as real)) && Get(it, "y") == Some(JNum(y as real))
  }

  /** `items.filter(it => it.x === cellX && it.y === cellY)`. */
  function CellItems(items: seq<Json>, x: int, y: int): (r: seq<Json>)
    ensures |r| <= |items|
  {
    if items == [] then []
    else (if OnCell(items[0], x, y) then [items[0]] else []) + CellItems(items[1..], x, y)
  }

  /** Cell k of the row-major enumeration: row k / 12, column k % 12. */
  function CellAt(items: seq<Json>, k: nat): Cell {
    Cell(k % 12, k / 12, CellItems(items, k % 12, k / 12))
  }

  function GridCells(items: seq<Json>): (cells: seq<Cell>)
    ensures |cells| == Rows * Cols
  {
    seq(96, k requires 0 <= k < 96 => CellAt(items, k))
  }

  /** The nested loops that build the cells, rows outside and columns inside. Reading
      a field of a null item throws, so the list holds none. */
  method Cells(items: seq<Json>) returns (cells: seq<Cell>)
    requires JNull !in items
    ensures cells == GridCells(items)
  {
    cells := [];
    for r := 0 to Rows
      invariant |cells| == 12 * r
      invariant forall k :: 0 <= k < |cells| ==> cells[k] == CellAt(items, k)
    {
      for c := 0 to Cols
        invariant |cells| == 12 * r + c
        invariant forall k :: 0 <= k < |cells| ==> cells[k] == CellAt(items, k)
      {
        var cellItems := CellItems(items, c, r);
        assert (12 * r + c) % 12 == c && (12 * r + c) / 12 == r;
        cells := cells + [Cell(c, r, cellItems)];
      }
    }
  }

  lemma {:induction false} CellItemsMembers(items: seq<Json>, x: int, y: int, it: Json)
    ensures it in CellItems(items, x, y) <==> it in items && OnCell(it, x, y)
    decreases |items|
  {
    if items != [] {
      CellItemsMembers(items[1..], x, y, it);
      assert it in items <==> it == items[0] || it in items[1..];
    }
  }

  /** The filter keeps list order: it distributes over concatenation. */
  lemma {:induction false} CellItemsConcat(a: seq<Json>, b: seq<Json>, x: int, y: int)
    ensures CellItems(a + b, x, y) == CellItems(a, x, y) + CellItems(b, x, y)
    decreases |a|
  {
    if a == [] {
      assert a + b == b;
    } else {
      var head := if OnCell(a[0], x, y) then [a[0]] else [];
      assert (a + b)[0] == a[0] && (a + b)[1..] == a[1..] + b;
      assert CellItems(a + b, x, y) == head + CellItems(a[1..] + b, x, y);
      CellItemsConcat(a[1..], b, x, y);
      assert head + (CellItems(a[1..], x, y) + CellItems(b, x, y)) ==
             (head + CellItems(a[1..], x, y)) + CellItems(b, x, y);
    }
  }

  /** Cell k sits at column k % 12 and row k / 12, and shows exactly the items placed
      there. */
  lemma CellContents(items: seq<Json>, k: nat, it: Json)
    requires k < 96
    ensures GridCells(items)[k].x == k % 12 && GridCells(items)[k].y == k / 12
    ensures it in GridCells(items)[k].items <==> it in items && OnCell(it, k % 12, k / 12)
  {
    CellItemsMembers(items, k % 12, k / 12, it);
  }

  /** No item shows in two cells. */
  lemma AtMostOneCell(items: seq<Json>, it: Json, k1: nat, k2: nat)
    requires k1 < 96 && k2 < 96
    requires it in GridCells(items)[k1].items && it in GridCells(items)[k2].items
    ensures k1 == k2
  {
    CellContents(items, k1, it);
    CellContents(items, k2, it);
    assert k1 == 12 * (k1 / 12) + k1 % 12 && k2 == 12 * (k2 / 12) + k2 % 12;
  }

  /** A number that is a whole number in [0, n). */
  predicate WholeBelow(v: Option<Json>, n: int) {
    v.Some? && v.value.JNum? && v.value.n.Floor as real == v.value.n && 0.0 <= v.value.n < n as real
  }

  /** An item shows in some cell exactly when its x is a whole number in 0..11 and
      its y a whole number in 0..7. */
  lemma ShownSomewhere(items: seq<Json>, it: Json)
    requires it in items
    ensures (exists k :: 0 <= k < 96 && it in GridCells(items)[k].items) <==>
            WholeBelow(Get(it, "x"), 12) && WholeBelow(Get(it, "y"), 8)
  {
    if WholeBelow(Get(it, "x"), 12) && WholeBelow(Get(it, "y"), 8) {
      ShownInItsCell(items, it);
    }
    if k :| 0 <= k < 96 && it in GridCells(items)[k].items {
      WholeWhenShown(items, it, k);
    }
  }

  /** An item at whole coordinates inside the grid shows in cell 12 * y + x. */
  lemma ShownInItsCell(items: seq<Json>, it: Json)
    requires it in items
    requires WholeBelow(Get(it, "x"), 12) && WholeBelow(Get(it, "y"), 8)
    ensures var k := 12 * Get(it, "y").value.n.Floor + Get(it, "x").value.n.Floor;
      0 <= k < 96 && it in GridCells(items)[k].items
  {
    var x, y := Get(it, "x").value.n.Floor, Get(it, "y").value.n.Floor;
    var k := 12 * y + x;
    assert k % 12 == x && k / 12 == y;
    CellContents(items, k, it);
  }

  /** An item shown in cell k has the coordinates of that cell. */
  lemma WholeWhenShown(items: seq<Json>, it: Json, k: nat)
    requires k < 96 && it in GridCells(items)[k].items
    ensures WholeBelow(Get(it, "x"), 12) && WholeBelow(Get(it, "y"), 8)
  {
    CellContents(items, k, it);
    assert ((k % 12) as real).Floor == k % 12 && ((k / 12) as real).Floor == k / 12;
  }
}

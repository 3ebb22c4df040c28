/** The settings panel: which item it edits, how a typed value becomes the one-key
    patch sent to the layout, and which fields each component type offers. */
module Settings {
  import opened Json
  import opened App
  import opened Grid

  // ---------------------------------------------------------------------------
  // The edited item

  /** `items.find(it => it.id === selectedId)`. */
  function SelectedItem(items: seq<Json>, selectedId: Json): (r: Option<Json>)
    ensures r.None? <==> forall i :: 0 <= i < |items| ==> !HasId(items[i], selectedId)
    ensures r.Some? ==> exists i :: 0 <= i < |items| && items[i] == r.value && HasId(r.value, selectedId) &&
                                  (forall j :: 0 <= j < i ==> !HasId(items[j], selectedId))
  {
    if items == [] then None
    else if HasId(items[0], selectedId) then Some(items[0])
    else
      var r := SelectedItem(items[1..], selectedId);
      assert forall i :: 0 < i < |items| ==> items[1..][i - 1] == items[i];
      r
  }

  // ---------------------------------------------------------------------------
  // Parsing a typed value

  const NumericFieldNames: set<string> := {
    "rotation", "focalLength", "aperture", "angle", "reflectivity",
    "splitRatio", "length", "coreDiameter", "sensitivity", "noise" }

  /** The white space and line terminators `parseInt` skips at the start. */
  predicate IsJsSpace(c: char) {
    || c == '\t' || c == '\n' || c as int == 0x0B || c as int == 0x0C || c == '\r' || c == ' '
    || c as int == 0xA0 || c as int == 0x1680 || 0x2000 <= c as int <= 0x200A
    || c as int == 0x2028 || c as int == 0x2029 || c as int == 0x202F || c as int == 0x205F
    || c as int == 0x3000 || c as int == 0xFEFF
  }

  function TrimStart(s: string): (r: string)
    ensures |r| <= |s|
    ensures r != [] ==> !IsJsSpace(r[0])
  {
    if s != [] && IsJsSpace(s[0]) then TrimStart(s[1..]) else s
  }

  /** Trimming drops exactly the white space in front: what is left is a suffix, and
      every character dropped is white space. */
  lemma {:induction false} TrimStartDropsSpace(s: string)
    ensures var r := TrimStart(s);
      r == s[|s| - |r|..] && forall i :: 0 <= i < |s| - |r| ==> IsJsSpace(s[i])
    decreases |s|
  {
    if s != [] && IsJsSpace(s[0]) {
      TrimStartDropsSpace(s[1..]);
      var r := TrimStart(s);
      assert s[1..][|s| - 1 - |r|..] == s[|s| - |r|..];
      forall i | 0 < i < |s| - |r| ensures IsJsSpace(s[i]) {
        assert s[i] == s[1..][i - 1];
      }
    }
  }

  /** The text after an optional leading sign. */
  function Unsigned(t: string): string {
    if t != [] && (t[0] == '-' || t[0] == '+') then t[1..] else t
  }

  /** `parseInt(s, 10)`: leading white space, an optional sign and the longest run of
      digits after it; None (NaN) when there is no digit. */
  function ParseInt(s: string): Option<int> {
    var t := TrimStart(s);
    var body := Unsigned(t);
    var n := DigitRun(body);
    if n == 0 then None
    else if t[0] == '-' then Some(-(DigitsValue(body[..n]) as int))
    else Some(DigitsValue(body[..n]))
  }

  /** The decimal text of an integer, as `String(n)` writes it. */
  function IntText(n: int): string {
    if n < 0 then "-" + NatText(-n) else NatText(n)
  }

  /** A run of digits parses to its value. */
  lemma ParseIntDigits(d: string)
    requires DigitRun(d) == |d| > 0
    ensures ParseInt(d) == Some(DigitsValue(d))
  {
    assert TrimStart(d) == d && Unsigned(d) == d by {
      assert IsDigit(d[0]);
    }
    assert d[..|d|] == d;
  }

  /** A minus sign followed by a run of digits parses to minus its value. */
  lemma ParseIntNegative(d: string)
    requires DigitRun(d) == |d| > 0
    ensures ParseInt("-" + d) == Some(-(DigitsValue(d) as int))
  {
    var s := "-" + d;
    assert TrimStart(s) == s && Unsigned(s) == d by {
      assert s[0] == '-' && s[1..] == d;
    }
    assert d[..|d|] == d;
  }

  /** Parsing the text of an integer gives the integer back. */
  lemma ParseIntText(n: int)
    ensures ParseInt(IntText(n)) == Some(n)
  {
    var m := if n < 0 then -n else n;
    NatTextValue(m);
    var d := NatText(m);
    if n < 0 {
      ParseIntNegative(d);
    } else {
      ParseIntDigits(d);
    }
  }

  /** Text after the digits is ignored and white space before them skipped. */
  lemma ParseIntPrefix()
    ensures ParseInt("  -7px") == Some(-7)
  {
    var s := "  -7px";
    assert IsJsSpace(s[0]) && IsJsSpace(s[1..][0]);
    assert s[1..][1..] == "-7px";
    assert !IsJsSpace('-');
    assert TrimStart(s) == "-7px";
    assert "-7px"[1..] == "7px";
    assert "7px"[1..] == "px";
    assert DigitRun("px") == 0;
    assert DigitRun("7px") == 1;
    assert "7px"[..1] == "7";
    assert "7"[..0] == "";
  }

  /** A decimal point ends the digits, and a text without digits is NaN. */
  lemma ParseIntStops()
    ensures ParseInt("12.9") == Some(12)
    ensures ParseInt("abc") == None
  {
    assert !IsJsSpace('1') && !IsJsSpace('a');
    assert "12.9"[1..] == "2.9" && "2.9"[1..] == ".9";
    assert DigitRun(".9") == 0;
    assert DigitRun("12.9") == 2;
    assert "12.9"[..2] == "12";
    assert "12"[..1] == "1";
    assert "1"[..0] == "";
  }

  /** What `parseFloat` makes of a text, None for NaN; it is passed in. */
  type FloatParser = string -> Option<real>

  /** The value `onChange` puts in the patch: rotation through `parseInt`, the other
      numeric fields through `parseFloat`, an empty text as "0", NaN as 0, and every
      other field the text itself. */
  function ParsedValue(name: string, value: string, parseFloat: FloatParser): (r: Json)
    ensures name !in NumericFieldNames ==> r == JStr(value)
    ensures name in NumericFieldNames ==> r.JNum?
    ensures name == "rotation" ==> r.n.Floor as real == r.n
  {
    if name !in NumericFieldNames then JStr(value)
    else
      var text := if value == "" then "0" else value;
      if name == "rotation" then
        match ParseInt(text) case Some(n) => JNum(n as real) case None => JNum(0.0)
      else
        match parseFloat(text) case Some(x) => JNum(x) case None => JNum(0.0)
  }

  /** Typing an integer into the rotation field stores that integer, and clearing it
      stores 0. */
  lemma RotationParses(n: int, parseFloat: FloatParser)
    ensures ParsedValue("rotation", IntText(n), parseFloat) == JNum(n as real)
    ensures ParsedValue("rotation", "", parseFloat) == JNum(0.0)
  {
    ParseIntText(n);
    ParseIntText(0);
    assert IntText(0) == "0";
  }

  /** A change on the panel: with no item selected nothing is rendered and nothing is
      sent; otherwise one update of the selected item's id with `{ [name]: value }`. */
  function OnChange(items: seq<Json>, selectedId: Json, name: string, value: string,
                    parseFloat: FloatParser): (r: Option<(Json, Json)>)
    ensures r.None? <==> SelectedItem(items, selectedId).None?
    ensures r.Some? ==> (r.value.0 == selectedId &&
                         r.value.1 == JObj([Prop(name, ParsedValue(name, value, parseFloat))]))
  {
    match SelectedItem(items, selectedId)
    case None => None
    case Some(item) => Some((ItemId(item).value, JObj([Prop(name, ParsedValue(name, value, parseFloat))])))
  }

  // ---------------------------------------------------------------------------
  // The rendered fields

  /** The inputs rendered for an item of a type (`item.type === '...'`). */
  function EditableFields(t: Option<Json>): (r: seq<string>)
    ensures |r| >= 3 && r[..3] == ["label", "rotation", "color"]
    ensures forall i :: 0 <= i < |r| ==> r[i] == "label" || r[i] == "color" || r[i] in NumericFieldNames
  {
    var extra :=
      if t == Some(JStr("lens")) then ["focalLength", "aperture"]
      else if t == Some(JStr("mirror")) then ["angle", "reflectivity"]
      else if t == Some(JStr("beamsplitter")) then ["splitRatio"]
      else if t == Some(JStr("fiber")) then ["length", "coreDiameter"]
      else if t == Some(JStr("detector")) then ["sensitivity", "noise"]
      else [];
    ["label", "rotation", "color"] + extra
  }

  /** The value an input shows: the item's own value, or the field's fallback. */
  function DisplayedValue(item: Json, name: string): Json
  {
    var v := Get(item, name);
    if name == "label" then OrElse(v, JStr(""))
    else if name == "color" then OrElse(v, JStr("#ffcc00"))
    else if name == "reflectivity" then Nullish(v, JNum(1.0))
    else if name == "splitRatio" then Nullish(v, JNum(0.5))
    else Nullish(v, JNum(0.0))
  }

  /** Every field the panel offers for an item just dropped on the grid is stored in the
      item, and the input shows the stored value rather than a fallback. */
  lemma FreshItemShowsItsFields(t: string, x: int, y: int, freshId: string, name: string)
    requires name in EditableFields(Some(JStr(t)))
    ensures Get(NewItem(t, x, y, freshId), name).Some?
    ensures DisplayedValue(NewItem(t, x, y, freshId), name) == Get(NewItem(t, x, y, freshId), name).value
  {
    FreshItemStores(t, x, y, freshId, name);
    ShowsStored(NewItem(t, x, y, freshId), name);
  }

  /** An item just dropped on the grid stores every field the panel offers for it: its
      label as a string, its colour as the default, the other fields as numbers. */
  lemma FreshItemStores(t: string, x: int, y: int, freshId: string, name: string)
    requires name in EditableFields(Some(JStr(t)))
    ensures var v := Get(NewItem(t, x, y, freshId), name);
      && v.Some?
      && (|| (name == "label" && v.value.JStr?)
          || (name == "color" && v.value == JStr("#ffcc00"))
          || (name != "label" && name != "color" && v.value.JNum?))
  {
    var it := NewItem(t, x, y, freshId);
    NewItemShape(t, x, y, freshId);
    if name != "label" && name != "rotation" && name != "color" {
      var j := ExtraFieldStored(t, name);
      var k := |NewBase(t, x, y, freshId)| + j;
      assert it.props[k] == TypeDefaults(t)[j];
      LookupAt(it.props, k);
    }
  }

  /** A stored number, a stored label, or the stored default colour is what the input shows. */
  lemma ShowsStored(item: Json, name: string)
    requires Get(item, name).Some?
    requires var v := Get(item, name).value;
      || (name == "label" && v.JStr?)
      || (name == "color" && v == JStr("#ffcc00"))
      || (name != "label" && name != "color" && v.JNum?)
    ensures DisplayedValue(item, name) == Get(item, name).value
  {
  }

  /** A type's own fields are among its drop defaults, each holding a number. */
  lemma ExtraFieldStored(t: string, name: string) returns (j: nat)
    requires name in EditableFields(Some(JStr(t)))
    requires name != "label" && name != "rotation" && name != "color"
    ensures j < |TypeDefaults(t)| && TypeDefaults(t)[j].key == name && TypeDefaults(t)[j].value.JNum?
  {
    TypeDefaultsTable(t);
    if t == "lens" {
      j := if name == "focalLength" then 0 else 1;
    } else if t == "mirror" {
      j := if name == "angle" then 0 else 1;
    } else if t == "beamsplitter" {
      j := 0;
    } else if t == "fiber" {
      j := if name == "length" then 0 else 1;
    } else if t == "detector" {
      j := if name == "sensitivity" then 0 else 1;
    } else {
      assert false;
    }
  }

  /** The fields offered by type: label, rotation and color for every item, then the
      type's own fields. */
  lemma FieldsByType(t: Json)
    ensures EditableFields(Some(JStr("lens"))) == ["label", "rotation", "color", "focalLength", "aperture"]
    ensures EditableFields(Some(JStr("mirror"))) == ["label", "rotation", "color", "angle", "reflectivity"]
    ensures EditableFields(Some(JStr("beamsplitter"))) == ["label", "rotation", "color", "splitRatio"]
    ensures EditableFields(Some(JStr("fiber"))) == ["label", "rotation", "color", "length", "coreDiameter"]
    ensures EditableFields(Some(JStr("detector"))) == ["label", "rotation", "color", "sensitivity", "noise"]
    ensures t !in {JStr("lens"), JStr("mirror"), JStr("beamsplitter"), JStr("fiber"), JStr("detector")} ==>
      EditableFields(Some(t)) == ["label", "rotation", "color"]
  {
  }

  // ---------------------------------------------------------------------------
  // Acting on the layout

  /** `onChange` wired to `updateItem`. */
  method Change(layout: Layout, name: string, value: string, parseFloat: FloatParser)
    returns (sent: Option<(Json, Json)>)
    modifies layout`items
    ensures sent == OnChange(old(layout.items), layout.selectedId, name, value, parseFloat)
    ensures sent.None? ==> layout.items == old(layout.items)
    ensures sent.Some? ==> layout.items == Updated(old(layout.items), sent.value.0, sent.value.1)
  {
    sent := OnChange(layout.items, layout.selectedId, name, value, parseFloat);
    if sent.Some? {
      layout.UpdateItem(sent.value.0, sent.value.1);
    }
  }

  /** The remove button, shown only while an item is selected. */
  method Remove(layout: Layout)
    modifies layout`items
    ensures SelectedItem(old(layout.items), layout.selectedId).None? ==> layout.items == old(layout.items)
    ensures SelectedItem(old(layout.items), layout.selectedId).Some? ==>
      layout.items == Removed(old(layout.items), layout.selectedId)
  {
    var item := SelectedItem(layout.items, layout.selectedId);
    if item.Some? {
      layout.RemoveItem(ItemId(item.value).value);
    }
  }

  /** After a change of field `name` (not the id), every item with the selected id
      reads the parsed value there and keeps its other fields; other items are untouched. */
  lemma ChangeEffect(items: seq<Json>, selectedId: Json, name: string, value: string,
                     parseFloat: FloatParser, i: nat, k: string)
    requires i < |items| && items[i].JObj? && UniqueKeys(items[i].props)
    requires SelectedItem(items, selectedId).Some? && name != "id"
    ensures var sent := OnChange(items, selectedId, name, value, parseFloat).value;
      var after := Updated(items, sent.0, sent.1);
      && (!HasId(items[i], selectedId) ==> after[i] == items[i])
      && (HasId(items[i], selectedId) ==>
            Get(after[i], k) == if k == name then Some(ParsedValue(name, value, parseFloat)) else Get(items[i], k))
  {
    var sent := OnChange(items, selectedId, name, value, parseFloat).value;
    assert Keys(sent.1.props) == [name];
    UpdateMergesPatch(items, sent.0, sent.1, i, k);
  }
}

/** The layout state of the client: the placed items, the selected id and the last
    simulation result, with the list operations the grid, the settings panel and
    the import/export buttons use. */
module App {
  import opened Json

  // ---------------------------------------------------------------------------
  // Items and ids

  /** `it.id`: None stands for `undefined`. */
  function ItemId(it: Json): Option<Json> {
    Get(it, "id")
  }

  /** `it.id === id`; ids are compared as JSON values. */
  predicate HasId(it: Json, id: Json) {
    ItemId(it) == Some(id)
  }

  predicate AllObjects(items: seq<Json>) {
    forall i :: 0 <= i < |items| ==> items[i].JObj?
  }

  /** `{ ...it, ...patch }`. */
  function Merge(it: Json, patch: Json): (r: Json)
    ensures r.JObj?
  {
    JObj(Assign(Assign([], SpreadEntries(it)), SpreadEntries(patch)))
  }

  // ---------------------------------------------------------------------------
  // The list operations as functions of the list

  /** `s.map(it => it.id === id ? { ...it, ...patch } : it)`. */
  function Updated(items: seq<Json>, id: Json, patch: Json): (r: seq<Json>)
    ensures |r| == |items|
    ensures AllObjects(items) ==> AllObjects(r)
  {
    seq(|items|, i requires 0 <= i < |items| =>
      if HasId(items[i], id) then Merge(items[i], patch) else items[i])
  }

  /** `updateItem(id, { x, y })`. */
  function Moved(items: seq<Json>, id: Json, x: Json, y: Json): (r: seq<Json>)
    ensures |r| == |items|
  {
    Updated(items, id, JObj([Prop("x", x), Prop("y", y)]))
  }

  /** `s.filter(it => it.id !== id)`. */
  function Removed(items: seq<Json>, id: Json): (r: seq<Json>)
    ensures |r| <= |items|
  {
    if items == [] then []
    else if HasId(items[0], id) then Removed(items[1..], id)
    else [items[0]] + Removed(items[1..], id)
  }

  // ---------------------------------------------------------------------------
  // Properties of the list operations

  /** Items without the id are untouched; an item with it reads every key of the
      patch from the patch and every other key from the item. */
  lemma UpdateMergesPatch(items: seq<Json>, id: Json, patch: Json, i: nat, k: string)
    requires i < |items| && items[i].JObj? && UniqueKeys(items[i].props)
    requires patch.JObj? && UniqueKeys(patch.props)
    ensures !HasId(items[i], id) ==> Updated(items, id, patch)[i] == items[i]
    ensures HasId(items[i], id) ==>
      Get(Updated(items, id, patch)[i], k) ==
        if k in Keys(patch.props) then Get(patch, k) else Get(items[i], k)
  {
    if HasId(items[i], id) {
      AssignFresh(items[i].props);
      LookupAssign(items[i].props, patch.props, k);
    }
  }

  /** An id no item carries leaves the list equal. */
  lemma UpdateUnknownId(items: seq<Json>, id: Json, patch: Json)
    requires forall i :: 0 <= i < |items| ==> !HasId(items[i], id)
    ensures Updated(items, id, patch) == items
  {
  }

  /** A patch without an `id` key keeps every item's id, so the updated items still
      match and the rest still do not. */
  lemma UpdateKeepsIds(items: seq<Json>, id: Json, patch: Json, i: nat)
    requires i < |items| && items[i].JObj? && UniqueKeys(items[i].props)
    requires patch.JObj? && UniqueKeys(patch.props) && "id" !in Keys(patch.props)
    ensures ItemId(Updated(items, id, patch)[i]) == ItemId(items[i])
  {
    UpdateMergesPatch(items, id, patch, i, "id");
  }

  /** An update keeps every item's keys distinct. */
  lemma UpdateKeepsUniqueKeys(items: seq<Json>, id: Json, patch: Json, i: nat)
    requires i < |items| && items[i].JObj? && UniqueKeys(items[i].props)
    ensures Updated(items, id, patch)[i].JObj? && UniqueKeys(Updated(items, id, patch)[i].props)
  {
    if HasId(items[i], id) {
      AssignFresh(items[i].props);
      UniqueKeysAssign(items[i].props, SpreadEntries(patch));
    }
  }

  /** A move changes `x` and `y` of the matching items and nothing else. */
  lemma MoveChangesOnlyPosition(items: seq<Json>, id: Json, x: Json, y: Json, i: nat, k: string)
    requires i < |items| && items[i].JObj? && UniqueKeys(items[i].props)
    ensures !HasId(items[i], id) ==> Moved(items, id, x, y)[i] == items[i]
    ensures HasId(items[i], id) ==>
      Get(Moved(items, id, x, y)[i], k) ==
        if k == "x" then Some(x) else if k == "y" then Some(y) else Get(items[i], k)
  {
    var patch := JObj([Prop("x", x), Prop("y", y)]);
    assert Keys(patch.props) == ["x", "y"];
    assert UniqueKeys(patch.props);
    assert Moved(items, id, x, y) == Updated(items, id, patch);
    assert Lookup(patch.props, "y") == Some(y);
    UpdateMergesPatch(items, id, patch, i, k);
  }

  /** The kept items are exactly those without the id. */
  lemma {:induction false} RemovedMembers(items: seq<Json>, id: Json, it: Json)
    ensures it in Removed(items, id) <==> it in items && !HasId(it, id)
    decreases |items|
  {
    if items != [] {
      RemovedMembers(items[1..], id, it);
      assert it in items <==> it == items[0] || it in items[1..];
    }
  }

  /** Removal distributes over concatenation: the kept items stay in their order. */
  lemma {:induction false} RemovedConcat(a: seq<Json>, b: seq<Json>, id: Json)
    ensures Removed(a + b, id) == Removed(a, id) + Removed(b, id)
    decreases |a|
  {
    if a == [] {
      assert a + b == b;
    } else {
      var x, a' := a[0], a[1..];
      assert a + b == [x] + (a' + b) && a == [x] + a';
      RemovedConcat(a', b, id);
      RemovedConcatHead(x, a', b, id);
    }
  }

  /** The induction step of RemovedConcat. */
  lemma RemovedConcatHead(x: Json, a: seq<Json>, b: seq<Json>, id: Json)
    requires Removed(a + b, id) == Removed(a, id) + Removed(b, id)
    ensures Removed([x] + (a + b), id) == Removed([x] + a, id) + Removed(b, id)
  {
    if HasId(x, id) {
      RemovedConsDropped(x, a + b, id);
      RemovedConsDropped(x, a, id);
    } else {
      RemovedConsKept(x, a + b, id);
      RemovedConsKept(x, a, id);
      SeqAssoc([x], Removed(a, id), Removed(b, id));
    }
  }

  /** The filter drops a head that has the id ... */
  lemma RemovedConsDropped(x: Json, rest: seq<Json>, id: Json)
    requires HasId(x, id)
    ensures Removed([x] + rest, id) == Removed(rest, id)
  {
    assert ([x] + rest)[1..] == rest;
  }

  /** ... and keeps one that does not. */
  lemma RemovedConsKept(x: Json, rest: seq<Json>, id: Json)
    requires !HasId(x, id)
    ensures Removed([x] + rest, id) == [x] + Removed(rest, id)
  {
    assert ([x] + rest)[0] == x && ([x] + rest)[1..] == rest;
  }

  /** Concatenation is associative. */
  lemma SeqAssoc(p: seq<Json>, q: seq<Json>, r: seq<Json>)
    ensures p + (q + r) == p + q + r
  {
  }

  /** Removing an id no item carries is a no-op. */
  lemma {:induction false} RemovedUnknownId(items: seq<Json>, id: Json)
    requires forall i :: 0 <= i < |items| ==> !HasId(items[i], id)
    ensures Removed(items, id) == items
    decreases |items|
  {
    if items != [] {
      RemovedUnknownId(items[1..], id);
      assert [items[0]] + items[1..] == items;
    }
  }

  /** Removal deletes exactly the items with the id: their number is the shrinkage. */
  function CountId(items: seq<Json>, id: Json): (n: nat)
    ensures n <= |items|
  {
    if items == [] then 0 else (if HasId(items[0], id) then 1 else 0) + CountId(items[1..], id)
  }

  lemma {:induction false} RemovedLength(items: seq<Json>, id: Json)
    ensures |Removed(items, id)| == |items| - CountId(items, id)
    decreases |items|
  {
    if items != [] {
      RemovedLength(items[1..], id);
    }
  }

  // ---------------------------------------------------------------------------
  // Import and export

  datatype ImportError =
    | NotAnArray      // "Invalid file format: components array missing"
    | NullValue       // the TypeError of reading a property of null

  datatype ImportResult = Imported(items: seq<Json>) | Failed(error: ImportError)

  const ArrayMissing: string := "Invalid file format: components array missing"

  /** The keys the normalisation writes first, in order. */
  const BaseKeys: seq<string> := ["id", "type", "x", "y", "rotation", "label", "color"]

  /** `typeof v === 'number' ? v : 0`. */
  function NumberOr0(v: Option<Json>): Json {
    if v.Some? && v.value.JNum? then v.value else JNum(0.0)
  }

  /** The generated id `imp-<now>-<idx>`. */
  function GeneratedId(now: nat, idx: nat): string {
    "imp-" + NatText(now) + "-" + NatText(idx)
  }

  /** The default record written before the spreads. */
  function BaseRecord(c: Json, now: nat, idx: nat): (r: seq<Prop>)
    ensures Keys(r) == BaseKeys
  {
    [ Prop("id", OrElse(Get(c, "id"), JStr(GeneratedId(now, idx)))),
      Prop("type", OrElse(Get(c, "type"), JStr("unknown"))),
      Prop("x", NumberOr0(Get(c, "x"))),
      Prop("y", NumberOr0(Get(c, "y"))),
      Prop("rotation", NumberOr0(Get(c, "rotation"))),
      Prop("label", OrElse(Get(c, "label"), OrElse(Get(c, "type"), JStr("component")))),
      Prop("color", OrElse(Get(c, "color"), JStr("#ffcc00"))) ]
  }

  /** The `...(c.properties || {})` entries. */
  function PropertyEntries(c: Json): seq<Prop> {
    SpreadEntries(OrElse(Get(c, "properties"), JObj([])))
  }

  /** One imported component: defaults, then `c.properties`, then `c` itself. */
  function Normalise(c: Json, now: nat, idx: nat): (r: Json)
    ensures r.JObj? && UniqueKeys(r.props)
  {
    var base := BaseRecord(c, now, idx);
    BaseUnique(base);
    UniqueKeysAssign(base, PropertyEntries(c));
    UniqueKeysAssign(Assign(base, PropertyEntries(c)), SpreadEntries(c));
    JObj(Assign(Assign(base, PropertyEntries(c)), SpreadEntries(c)))
  }

  /** `parsed.components || parsed`; reading a property of null throws. */
  function ComponentsIn(parsed: Json): Json {
    OrElse(Get(parsed, "components"), parsed)
  }

  function NormaliseAll(comps: seq<Json>, now: nat): (r: seq<Json>)
    ensures |r| == |comps|
    ensures forall i :: 0 <= i < |r| ==> r[i].JObj? && UniqueKeys(r[i].props)
    ensures forall i :: 0 <= i < |comps| && Canonical(comps[i]) ==> r[i] == comps[i]
  {
    NormaliseEachCanonical(comps, now);
    seq(|comps|, i requires 0 <= i < |comps| => Normalise(comps[i], now, i))
  }

  lemma NormaliseEachCanonical(comps: seq<Json>, now: nat)
    ensures forall i :: 0 <= i < |comps| && Canonical(comps[i]) ==> Normalise(comps[i], now, i) == comps[i]
  {
    forall i | 0 <= i < |comps| && Canonical(comps[i]) {
      NormaliseCanonical(comps[i], now, i);
    }
  }

  /** The import handler after JSON.parse: the component list must be an array, and
      `c.id` throws on a null entry. */
  function ImportFile(parsed: Json, now: nat): (r: ImportResult)
    ensures r.Imported? ==>
      && ComponentsIn(parsed).JArr?
      && |r.items| == |ComponentsIn(parsed).elems|
      && AllObjects(r.items)
  {
    if parsed.JNull? then Failed(NullValue)
    else
      var comps := ComponentsIn(parsed);
      if !comps.JArr? then Failed(NotAnArray)
      else if JNull in comps.elems then Failed(NullValue)
      else Imported(NormaliseAll(comps.elems, now))
  }

  /** The downloaded payload `{ meta, components: items }`; `meta` holds the export
      time and contact details and is passed in. */
  function ExportPayload(items: seq<Json>, meta: Json): (r: Json)
    ensures Get(r, "components") == Some(JArr(items))
    ensures Get(r, "meta") == Some(meta)
  {
    var ps := [Prop("meta", meta), Prop("components", JArr(items))];
    assert ps[1..] == [Prop("components", JArr(items))];
    assert Lookup(ps, "components") == Lookup(ps[1..], "components");
    JObj(ps)
  }

  /** An item as the client itself creates it: distinct keys, the seven base keys
      first and in order, and no `properties` key. */
  predicate Canonical(it: Json) {
    && it.JObj?
    && UniqueKeys(it.props)
    && |it.props| >= |BaseKeys|
    && (forall i :: 0 <= i < |BaseKeys| ==> it.props[i].key == BaseKeys[i])
    && "properties" !in Keys(it.props)
  }

  /** Any record with the base keys has distinct keys. */
  lemma BaseUnique(base: seq<Prop>)
    requires Keys(base) == BaseKeys
    ensures UniqueKeys(base)
  {
    forall i, j | 0 <= i < j < |base| ensures base[i].key != base[j].key {
      assert Keys(base)[i] == base[i].key && Keys(base)[j] == base[j].key;
    }
  }

  lemma NoPropertyEntries(c: Json)
    requires c.JObj? && "properties" !in Keys(c.props)
    ensures PropertyEntries(c) == []
  {
    assert Get(c, "properties").None?;
  }

  /** Spreading an object whose first keys are the base keys over a base record
      replaces every default in place. */
  lemma AssignOverBase(base: seq<Prop>, s: seq<Prop>)
    requires Keys(base) == BaseKeys && UniqueKeys(s) && |s| >= |BaseKeys|
    requires forall i :: 0 <= i < |BaseKeys| ==> s[i].key == BaseKeys[i]
    ensures Assign(Assign(base, []), s) == s
  {
    forall i | 0 <= i < |base| ensures base[i].key == s[i].key {
      assert Keys(base)[i] == base[i].key;
    }
    AssignOverSameKeys([], base, s);
    assert [] + base == base && [] + s == s;
  }

  lemma NormaliseCanonical(c: Json, now: nat, idx: nat)
    requires Canonical(c)
    ensures Normalise(c, now, idx) == c
  {
    NoPropertyEntries(c);
    AssignOverBase(BaseRecord(c, now, idx), c.props);
  }

  /** Importing an exported layout gives back the same items. */
  lemma ExportImportRoundTrip(items: seq<Json>, meta: Json, now: nat)
    requires forall i :: 0 <= i < |items| ==> Canonical(items[i])
    ensures ImportFile(ExportPayload(items, meta), now) == Imported(items)
  {
    var payload := ExportPayload(items, meta);
    assert ComponentsIn(payload) == JArr(items);
    assert JNull !in items by {
      forall i | 0 <= i < |items| ensures items[i] != JNull {
        assert items[i].JObj?;
      }
    }
    forall i | 0 <= i < |items| ensures Normalise(items[i], now, i) == items[i] {
      NormaliseCanonical(items[i], now, i);
    }
  }

  /** For an object entry, every key it has keeps its own value; a key it lacks is
      taken from `properties`, and failing that from the defaults. */
  lemma NormaliseLookup(c: Json, now: nat, idx: nat, k: string)
    requires c.JObj? && UniqueKeys(c.props)
    requires UniqueKeys(PropertyEntries(c))
    ensures Get(Normalise(c, now, idx), k) ==
      if k in Keys(c.props) then Get(c, k)
      else if k in Keys(PropertyEntries(c)) then Lookup(PropertyEntries(c), k)
      else Lookup(BaseRecord(c, now, idx), k)
  {
    var base := BaseRecord(c, now, idx);
    LookupAssign(Assign(base, PropertyEntries(c)), c.props, k);
    LookupAssign(base, PropertyEntries(c), k);
  }

  /** A base field the entry and its properties lack takes the base record's value. */
  lemma NormaliseField(c: Json, now: nat, idx: nat, i: nat)
    requires c.JObj? && UniqueKeys(c.props) && "properties" !in Keys(c.props)
    requires i < |BaseKeys| && BaseKeys[i] !in Keys(c.props)
    ensures Get(Normalise(c, now, idx), BaseKeys[i]) == Some(BaseRecord(c, now, idx)[i].value)
  {
    var base := BaseRecord(c, now, idx);
    NoPropertyEntries(c);
    BaseUnique(base);
    NormaliseLookup(c, now, idx, BaseKeys[i]);
    assert Keys(base)[i] == base[i].key;
    LookupAt(base, i);
  }

  /** The defaults of an entry that has none of the base fields and no properties. */
  lemma NormaliseDefaults(c: Json, now: nat, idx: nat)
    requires c.JObj? && UniqueKeys(c.props)
    requires forall k :: k in BaseKeys || k == "properties" ==> k !in Keys(c.props)
    ensures var r := Normalise(c, now, idx);
      && Get(r, "id") == Some(JStr(GeneratedId(now, idx)))
      && Get(r, "type") == Some(JStr("unknown"))
      && Get(r, "x") == Some(JNum(0.0)) && Get(r, "y") == Some(JNum(0.0))
      && Get(r, "rotation") == Some(JNum(0.0))
      && Get(r, "label") == Some(JStr("component"))
      && Get(r, "color") == Some(JStr("#ffcc00"))
  {
    assert Get(c, "id").None? && Get(c, "type").None? && Get(c, "x").None? && Get(c, "y").None?;
    assert Get(c, "rotation").None? && Get(c, "label").None? && Get(c, "color").None?;
    NormaliseField(c, now, idx, 0);
    NormaliseField(c, now, idx, 1);
    NormaliseField(c, now, idx, 2);
    NormaliseField(c, now, idx, 3);
    NormaliseField(c, now, idx, 4);
    NormaliseField(c, now, idx, 5);
    NormaliseField(c, now, idx, 6);
  }

  /** A failed import names its cause: a null file or entry, or a list that is not
      an array. */
  lemma ImportFailures(parsed: Json, now: nat)
    ensures ImportFile(parsed, now) == Failed(NullValue) <==>
      parsed.JNull? || (ComponentsIn(parsed).JArr? && JNull in ComponentsIn(parsed).elems)
    ensures ImportFile(parsed, now) == Failed(NotAnArray) <==>
      !parsed.JNull? && !ComponentsIn(parsed).JArr?
  {
  }

  // ---------------------------------------------------------------------------
  // The state

  class Layout {
    var items: seq<Json>
    var selectedId: Json
    var simulationResult: Json

    /** The list restored from storage (its read is not modelled), nothing selected,
        no result. */
    constructor(saved: seq<Json>)
      ensures items == saved && selectedId == JNull && simulationResult == JNull
    {
      items := saved;
      selectedId := JNull;
      simulationResult := JNull;
    }

    method AddItem(item: Json)
      modifies this`items
      ensures items == old(items) + [item]
    {
      items := items + [item];
    }

    method UpdateItem(id: Json, patch: Json)
      modifies this`items
      ensures items == Updated(old(items), id, patch)
    {
      items := Updated(items, id, patch);
    }

    method MoveItem(id: Json, x: Json, y: Json)
      modifies this`items
      ensures items == Moved(old(items), id, x, y)
    {
      UpdateItem(id, JObj([Prop("x", x), Prop("y", y)]));
    }

    method RemoveItem(id: Json)
      modifies this`items
      ensures items == Removed(old(items), id)
    {
      items := Removed(items, id);
    }

    method SetSelectedId(id: Json)
      modifies this`selectedId
      ensures selectedId == id
    {
      selectedId := id;
    }

    method SetSimulationResult(result: Json)
      modifies this`simulationResult
      ensures simulationResult == result
    {
      simulationResult := result;
    }

    /** The file reader's callback after JSON.parse: on success the list is replaced by
        the normalised components; on failure it is left as it was. */
    method Import(parsed: Json, now: nat) returns (error: Option<ImportError>)
      modifies this`items
      ensures ImportFile(parsed, now).Imported? ==>
        error == None && items == ImportFile(parsed, now).items
      ensures ImportFile(parsed, now).Failed? ==>
        error == Some(ImportFile(parsed, now).error) && items == old(items)
    {
      var result := ImportFile(parsed, now);
      if result.Imported? {
        items := result.items;
        error := None;
      } else {
        error := Some(result.error);
      }
    }

    function Export(meta: Json): (r: Json)
      reads this
      ensures Get(r, "components") == Some(JArr(items))
    {
      ExportPayload(items, meta)
    }
  }
}

/** Render configuration chosen after a scan: which object categories were
    detected in the captured room, which rows of the fixed configuration
    table are offered to the user, and how the two visibility switches of a
    row react to the user (RoomPlanExampleApp/views.swift). */
module Views {

  /** Stands for the UUID a configuration row receives when it is created. */
  type Id = nat

  /** One configuration row: a display name, the category key the renderer
      looks up, and whether the category is drawn on the tactile template
      and on the colour map. */
  datatype ObjectConfig = ObjectConfig(
    id: Id,
    name: string,
    category: string,
    renderInTemplate: bool,
    renderInColorMap: bool)

  /** The `==` of ObjectConfig: two rows are equal when their ids are. */
  predicate SameConfig(lhs: ObjectConfig, rhs: ObjectConfig)
    ensures lhs == rhs ==> SameConfig(lhs, rhs)
  {
    lhs.id == rhs.id
  }

  /** Object categories reported by the room scanner; `Unrecognized` stands for
      any category a later scanner may add. */
  datatype ObjectCategory =
    | Storage | Refrigerator | Stove | Bed | Sink | WasherDryer | Toilet | Bathtub
    | Oven | Dishwasher | Table | Sofa | Chair | Fireplace | Television | Stairs
    | Unrecognized

  /** What the filter needs of a captured room: how many windows and doors it
      has and the category of each furniture object, in scan order. */
  datatype CapturedRoom = CapturedRoom(windowCount: nat, doorCount: nat, objects: seq<ObjectCategory>)

  /** The rows offered after a scan, in this order; `ids` are the rows' UUIDs. */
  function AllObjectConfigs(ids: seq<Id>): (table: seq<ObjectConfig>)
    requires |ids| == 18
    ensures |table| == 18
    ensures forall i :: 0 <= i < 18 ==> table[i].id == ids[i]
  {
    [ ObjectConfig(ids[0], "Window", "Window", false, true),
      ObjectConfig(ids[1], "Stairs", "Stairs", true, true),
      ObjectConfig(ids[2], "Table", "Table", false, false),
      ObjectConfig(ids[3], "Chair", "Chair", false, false),
      ObjectConfig(ids[4], "Storage", "Storage", false, false),
      ObjectConfig(ids[5], "Toilet", "Toilet", false, false),
      ObjectConfig(ids[6], "Refrigerator", "Refrigetator", false, false),
      ObjectConfig(ids[7], "Stove", "Stove", false, false),
      ObjectConfig(ids[8], "Bed", "Bed", false, false),
      ObjectConfig(ids[9], "Sink", "Sink", false, false),
      ObjectConfig(ids[10], "Washer/Dryer", "Washmachine", false, false),
      ObjectConfig(ids[11], "Bathtub", "Bathtub", false, false),
      ObjectConfig(ids[12], "Oven", "Oven", false, false),
      ObjectConfig(ids[13], "Dishwasher", "Dishwasher", false, false),
      ObjectConfig(ids[14], "Sofa", "Sofa", false, false),
      ObjectConfig(ids[15], "Fireplace", "Fireplace", false, false),
      ObjectConfig(ids[16], "Television", "TV", false, false),
      ObjectConfig(ids[17], "Other Objects", "Object", false, false) ]
  }

  /** The key under which a scanned object's category is configured. */
  function CategoryName(category: ObjectCategory): (key: string)
    ensures key != "Wall" && key != "Window" && key != "Door"
    ensures key == "Object" <==> category == Unrecognized
  {
    match category
    case Storage => "Storage"
    case Refrigerator => "Refrigetator"
    case Stove => "Stove"
    case Bed => "Bed"
    case Sink => "Sink"
    case WasherDryer => "Washmachine"
    case Toilet => "Toilet"
    case Bathtub => "Bathtub"
    case Oven => "Oven"
    case Dishwasher => "Dishwasher"
    case Table => "Table"
    case Sofa => "Sofa"
    case Chair => "Chair"
    case Fireplace => "Fireplace"
    case Television => "TV"
    case Stairs => "Stairs"
    case Unrecognized => "Object"
  }

  /** The keys of the furniture objects of a scan. */
  function ObjectKeys(objects: seq<ObjectCategory>): set<string> {
    set c | c in objects :: CategoryName(c)
  }

  /** The category keys a captured room shows. */
  function DetectedCategories(room: CapturedRoom): (keys: set<string>)
    ensures "Wall" in keys
    ensures "Window" in keys <==> room.windowCount > 0
    ensures "Door" in keys <==> room.doorCount > 0
    ensures forall c :: c in room.objects ==> CategoryName(c) in keys
    ensures forall k :: k in keys && k != "Wall" && k != "Window" && k != "Door" ==>
              exists c :: c in room.objects && CategoryName(c) == k
  {
    {"Wall"}
    + (if room.windowCount > 0 then {"Window"} else {})
    + (if room.doorCount > 0 then {"Door"} else {})
    + ObjectKeys(room.objects)
  }

  /** Builds the set of detected keys the way the view model does: Wall
      always, Window and Door when present, then one key per scanned object. */
  method CollectDetectedCategories(room: CapturedRoom) returns (detected: set<string>)
    ensures detected == DetectedCategories(room)
  {
    detected := {};
    detected := detected + {"Wall"};
    if room.windowCount > 0 {
      detected := detected + {"Window"};
    }
    if room.doorCount > 0 {
      detected := detected + {"Door"};
    }
    ghost var fixedKeys := detected;
    var i := 0;
    while i < |room.objects|
      invariant i <= |room.objects|
      invariant detected == fixedKeys + ObjectKeys(room.objects[..i])
    {
      var categoryName := CategoryName(room.objects[i]);
      ObjectKeysPrefix(room.objects, i);
      detected := detected + {categoryName};
      i := i + 1;
    }
    assert room.objects[..i] == room.objects;
  }

  lemma ObjectKeysPrefix(objects: seq<ObjectCategory>, i: nat)
    requires i < |objects|
    ensures ObjectKeys(objects[..i + 1]) == ObjectKeys(objects[..i]) + {CategoryName(objects[i])}
  {
    assert objects[..i + 1] == objects[..i] + [objects[i]];
  }

  /** `s` is an order-preserving sublist of `t`. */
  predicate IsSublist<T(==)>(s: seq<T>, t: seq<T>)
    decreases |t|
  {
    if s == [] then true
    else if t == [] then false
    else if s[0] == t[0] then IsSublist(s[1..], t[1..])
    else IsSublist(s, t[1..])
  }

  /** The rows of `rows` whose category is one of `keys`, in their order. */
  function KeepCategories(rows: seq<ObjectConfig>, keys: set<string>): (kept: seq<ObjectConfig>)
    ensures IsSublist(kept, rows)
    ensures forall o :: o in kept ==> o in rows && o.category in keys
    ensures forall i :: 0 <= i < |rows| && rows[i].category in keys ==> rows[i] in kept
    ensures kept == [] <==> forall i :: 0 <= i < |rows| ==> rows[i].category !in keys
  {
    if rows == [] then []
    else if rows[0].category in keys then [rows[0]] + KeepCategories(rows[1..], keys)
    else KeepCategories(rows[1..], keys)
  }

  /** `KeepCategories` keeps every matching row as often as it occurs and
      drops every other row. */
  lemma {:induction false} KeepCategoriesCounts(rows: seq<ObjectConfig>, keys: set<string>)
    ensures forall o :: multiset(KeepCategories(rows, keys))[o] ==
              if o.category in keys then multiset(rows)[o] else 0
  {
    if rows != [] {
      KeepCategoriesCounts(rows[1..], keys);
      assert rows == [rows[0]] + rows[1..];
    }
  }

  /** What `objects` holds after a room has been filtered against `table`:
      the rows of detected categories, or the Wall rows if there are none. */
  function FilteredObjects(table: seq<ObjectConfig>, room: CapturedRoom): (objects: seq<ObjectConfig>)
    ensures IsSublist(objects, table)
    ensures forall o :: o in objects ==> o in table && o.category in DetectedCategories(room)
  {
    var kept := KeepCategories(table, DetectedCategories(room));
    if kept == [] then KeepCategories(table, {"Wall"}) else kept
  }

  /** Whatever the table, the Wall fallback never changes the outcome: Wall is
      always detected, so a table with a Wall row never yields an empty first
      pass. The result is exactly the table rows of detected categories. */
  lemma FallbackNeverApplies(table: seq<ObjectConfig>, room: CapturedRoom)
    ensures FilteredObjects(table, room) == KeepCategories(table, DetectedCategories(room))
  {
  }

  /** A table row ends up in `objects` iff its key was detected, as often as
      it occurs in the table, and `objects` lists those rows in table order. */
  lemma FilteredObjectsSpec(table: seq<ObjectConfig>, room: CapturedRoom)
    ensures IsSublist(FilteredObjects(table, room), table)
    ensures forall i :: 0 <= i < |table| ==>
              (table[i] in FilteredObjects(table, room) <==> table[i].category in DetectedCategories(room))
    ensures forall o :: multiset(FilteredObjects(table, room))[o] ==
              if o.category in DetectedCategories(room) then multiset(table)[o] else 0
  {
    FallbackNeverApplies(table, room);
    KeepCategoriesCounts(table, DetectedCategories(room));
  }

  /** Every key the scanner can produce names exactly one row of the table. */
  lemma CategoryNameInTable(ids: seq<Id>, c: ObjectCategory)
    requires |ids| == 18
    ensures exists i :: 0 <= i < 18 && AllObjectConfigs(ids)[i].category == CategoryName(c)
    ensures forall i, j ::
              (0 <= i < 18 && 0 <= j < 18 &&
               AllObjectConfigs(ids)[i].category == CategoryName(c) &&
               AllObjectConfigs(ids)[j].category == CategoryName(c)) ==> i == j
  {
    var t := AllObjectConfigs(ids);
    var i := match c
      case Stairs => 1
      case Table => 2
      case Chair => 3
      case Storage => 4
      case Toilet => 5
      case Refrigerator => 6
      case Stove => 7
      case Bed => 8
      case Sink => 9
      case WasherDryer => 10
      case Bathtub => 11
      case Oven => 12
      case Dishwasher => 13
      case Sofa => 14
      case Fireplace => 15
      case Television => 16
      case Unrecognized => 17;
    assert t[i].category == CategoryName(c);
    TableKeysDistinct(ids);
  }

  /** The table's category keys are pairwise distinct. */
  lemma TableKeysDistinct(ids: seq<Id>)
    requires |ids| == 18
    ensures forall i, j :: 0 <= i < j < 18 ==>
              AllObjectConfigs(ids)[i].category != AllObjectConfigs(ids)[j].category
  {
  }

  /** The table has neither a Wall nor a Door row. */
  lemma TableHasNoWallOrDoor(ids: seq<Id>)
    requires |ids| == 18
    ensures forall o :: o in AllObjectConfigs(ids) ==> o.category != "Wall" && o.category != "Door"
  {
  }

  /** Distinct scanner categories are configured under distinct keys. */
  lemma CategoryNameInjective(a: ObjectCategory, b: ObjectCategory)
    ensures CategoryName(a) == CategoryName(b) ==> a == b
  {
  }

  /** With the real table, `objects` is empty exactly when the room has no
      window and no furniture object: Wall and Door have no row, and the
      Wall fallback finds none either. */
  lemma EmptyExactlyWithoutWindowsAndObjects(ids: seq<Id>, room: CapturedRoom)
    requires |ids| == 18
    ensures FilteredObjects(AllObjectConfigs(ids), room) == [] <==>
              room.windowCount == 0 && room.objects == []
  {
    var t := AllObjectConfigs(ids);
    var keys := DetectedCategories(room);
    FallbackNeverApplies(t, room);
    if room.windowCount > 0 {
      assert t[0].category in keys;
      assert t[0] in KeepCategories(t, keys);
    } else if room.objects != [] {
      var c := room.objects[0];
      CategoryNameInTable(ids, c);
      var i :| 0 <= i < 18 && t[i].category == CategoryName(c);
      assert t[i] in KeepCategories(t, keys);
    } else {
      TableHasNoWallOrDoor(ids);
      assert forall k :: k in keys ==> k == "Wall" || k == "Door";
      assert forall i :: 0 <= i < 18 ==> t[i] in t;
    }
  }

  /** Every row of the table satisfies the row invariant below. */
  lemma TableRowsColorMapFollowsTemplate(ids: seq<Id>)
    requires |ids| == 18
    ensures forall o :: o in AllObjectConfigs(ids) ==> ColorMapFollowsTemplate(o)
  {
  }

  /** Row invariant: a category drawn on the template is drawn on the colour map. */
  predicate ColorMapFollowsTemplate(o: ObjectConfig) {
    o.renderInTemplate ==> o.renderInColorMap
  }

  /** The template switch flips `renderInTemplate`; its change handler then
      gives `renderInColorMap` the new value. */
  function TemplateToggled(o: ObjectConfig): (r: ObjectConfig)
    ensures ColorMapFollowsTemplate(r)
    ensures SameConfig(r, o) && r.name == o.name && r.category == o.category
  {
    var newValue := !o.renderInTemplate;
    if !newValue then o.(renderInTemplate := newValue, renderInColorMap := false)
    else o.(renderInTemplate := newValue, renderInColorMap := true)
  }

  /** The colour-map checkbox exists only while the template switch is off;
      pressing it flips `renderInColorMap`. */
  function ColorMapPressed(o: ObjectConfig): (r: ObjectConfig)
    ensures r.renderInTemplate ==> r == o
    ensures r.(renderInColorMap := o.renderInColorMap) == o
  {
    if !o.renderInTemplate then o.(renderInColorMap := !o.renderInColorMap) else o
  }

  /** Both flags end equal to the template switch's new position, and the
      row's identity, name and key are untouched. */
  lemma TemplateToggledEffect(o: ObjectConfig)
    ensures TemplateToggled(o).renderInTemplate == !o.renderInTemplate
    ensures TemplateToggled(o).renderInColorMap == !o.renderInTemplate
    ensures TemplateToggled(o).(renderInTemplate := o.renderInTemplate,
                                renderInColorMap := o.renderInColorMap) == o
  {
  }

  /** The checkbox changes the colour-map flag only while the template flag
      is off, pressing it twice restores the row, and nothing else changes. */
  lemma ColorMapPressedEffect(o: ObjectConfig)
    ensures ColorMapPressed(o).renderInColorMap != o.renderInColorMap <==> !o.renderInTemplate
    ensures ColorMapPressed(o).(renderInColorMap := o.renderInColorMap) == o
    ensures ColorMapPressed(ColorMapPressed(o)) == o
  {
  }

  /** Both row edits keep the row invariant. */
  lemma EditsKeepColorMapFollowsTemplate(o: ObjectConfig)
    requires ColorMapFollowsTemplate(o)
    ensures ColorMapFollowsTemplate(TemplateToggled(o))
    ensures ColorMapFollowsTemplate(ColorMapPressed(o))
  {
  }

  /** Equality of rows looks at the id only: an edited row is still equal to
      the original, and any two rows with one id are equal whatever they hold. */
  lemma SameConfigIgnoresContent(o: ObjectConfig, name: string, category: string, t: bool, c: bool)
    ensures SameConfig(o, ObjectConfig(o.id, name, category, t, c))
    ensures SameConfig(o, TemplateToggled(o)) && SameConfig(o, ColorMapPressed(o))
  {
  }

  /** Row equality is an equivalence relation. */
  lemma SameConfigIsEquivalence(a: ObjectConfig, b: ObjectConfig, c: ObjectConfig)
    ensures SameConfig(a, a)
    ensures SameConfig(a, b) ==> SameConfig(b, a)
    ensures SameConfig(a, b) && SameConfig(b, c) ==> SameConfig(a, c)
  {
  }

  /** The view model of the post-scan selection screen. */
  class ObjectSelectionViewModel {
    /** The rows the user is editing. */
    var objects: seq<ObjectConfig>
    /** The fixed table the rows are drawn from. */
    const allObjectConfigs: seq<ObjectConfig>
    ghost const rowIds: seq<Id>

    ghost predicate Valid()
      reads this
    {
      |rowIds| == 18 && allObjectConfigs == AllObjectConfigs(rowIds) &&
      forall o :: o in objects ==> ColorMapFollowsTemplate(o)
    }

    constructor (ids: seq<Id>)
      requires |ids| == 18
      ensures Valid()
      ensures objects == [] && allObjectConfigs == AllObjectConfigs(ids)
    {
      objects := [];
      allObjectConfigs := AllObjectConfigs(ids);
      rowIds := ids;
    }

    /** Replaces `objects` with the table rows of the categories found in
        `room`. The new value does not depend on the old one, so filtering the
        same room again leaves `objects` as it is. */
    method FilterDetectedObjects(room: CapturedRoom)
      requires Valid()
      modifies this`objects
      ensures Valid()
      ensures objects == FilteredObjects(allObjectConfigs, room)
    {
      var detectedCategories := CollectDetectedCategories(room);
      objects := KeepCategories(allObjectConfigs, detectedCategories);
      if objects == [] {
        objects := KeepCategories(allObjectConfigs, {"Wall"});
      }
      TableRowsColorMapFollowsTemplate(rowIds);
    }

    /** The user flips the template switch of row `index`. */
    method ToggleTemplate(index: nat)
      requires Valid() && index < |objects|
      modifies this`objects
      ensures Valid()
      ensures objects == old(objects)[index := TemplateToggled(old(objects)[index])]
    {
      var row := objects[index];
      row := row.(renderInTemplate := !row.renderInTemplate);
      if !row.renderInTemplate {
        row := row.(renderInColorMap := false);
      } else {
        row := row.(renderInColorMap := true);
      }
      objects := objects[index := row];
    }

    /** The user presses the colour-map checkbox of row `index`. */
    method PressColorMap(index: nat)
      requires Valid() && index < |objects|
      modifies this`objects
      ensures Valid()
      ensures objects == old(objects)[index := ColorMapPressed(old(objects)[index])]
    {
      if !objects[index].renderInTemplate {
        var row := objects[index];
        objects := objects[index := row.(renderInColorMap := !row.renderInColorMap)];
      }
    }
  }
}

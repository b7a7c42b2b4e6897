/** Render configuration chosen before a scan: the default table with every
    category switched on, lookup of a category's row, and how the two
    visibility switches of a row react to the user
    (RoomPlanExampleApp/renderOptions.swift). */
module RenderOptions {

  /** Stands for the UUID a configuration row receives when it is created. */
  type Id = nat

  datatype Option<T> = None | Some(value: T)

  /** One configuration row: a display name, the category key the renderer
      looks up, and whether the category is drawn on the tactile template
      and on the colour map. This version of the row defines no equality;
      Dafny's structural equality of rows is used only in the proofs. */
  datatype ObjectConfig = ObjectConfig(
    id: Id,
    name: string,
    category: string,
    renderInTemplate: bool,
    renderInColorMap: bool)

  /** The initial rows of the view model; `ids` are the rows' UUIDs. */
  function DefaultObjects(ids: seq<Id>): (table: seq<ObjectConfig>)
    requires |ids| == 20
    ensures |table| == 20
    ensures forall i :: 0 <= i < 20 ==> table[i].id == ids[i]
  {
    [ ObjectConfig(ids[0], "Wall", "Wall", true, true),
      ObjectConfig(ids[1], "Window", "Window", true, true),
      ObjectConfig(ids[2], "Door", "Door", true, true),
      ObjectConfig(ids[3], "Storage", "Storage", true, true),
      ObjectConfig(ids[4], "Refrigerator", "Refrigetator", true, true),
      ObjectConfig(ids[5], "Stove", "Stove", true, true),
      ObjectConfig(ids[6], "Bed", "Bed", true, true),
      ObjectConfig(ids[7], "Sink", "Sink", true, true),
      ObjectConfig(ids[8], "Washer/Dryer", "Washmachine", true, true),
      ObjectConfig(ids[9], "Toilet", "Toilet", true, true),
      ObjectConfig(ids[10], "Bathtub", "Bathtub", true, true),
      ObjectConfig(ids[11], "Oven", "Oven", true, true),
      ObjectConfig(ids[12], "Dishwasher", "Dishwasher", true, true),
      ObjectConfig(ids[13], "Table", "Table", true, true),
      ObjectConfig(ids[14], "Sofa", "Sofa", true, true),
      ObjectConfig(ids[15], "Chair", "Chair", true, true),
      ObjectConfig(ids[16], "Fireplace", "Fireplace", true, true),
      ObjectConfig(ids[17], "Television", "TV", true, true),
      ObjectConfig(ids[18], "Stairs", "Stairs", true, true),
      ObjectConfig(ids[19], "Other Objects", "Object", true, true) ]
  }

  /** The twenty category keys of the default table. */
  const DefaultKeys: set<string> :=
    {"Wall", "Window", "Door", "Storage", "Refrigetator", "Stove", "Bed", "Sink",
     "Washmachine", "Toilet", "Bathtub", "Oven", "Dishwasher", "Table", "Sofa",
     "Chair", "Fireplace", "TV", "Stairs", "Object"}

  /** The first row of `rows` whose key is `category`, if any. */
  function FirstWithCategory(rows: seq<ObjectConfig>, category: string): (r: Option<ObjectConfig>)
    ensures r.None? <==> forall i :: 0 <= i < |rows| ==> rows[i].category != category
    ensures r.Some? ==>
              exists i :: 0 <= i < |rows| && rows[i] == r.value && r.value.category == category &&
                forall j :: 0 <= j < i ==> rows[j].category != category
  {
    if rows == [] then None
    else if rows[0].category == category then Some(rows[0])
    else FirstWithCategory(rows[1..], category)
  }

  /** The position of a key in the default table (20 for a key it lacks). */
  ghost function DefaultPosition(category: string): nat {
    if category == "Wall" then 0
    else if category == "Window" then 1
    else if category == "Door" then 2
    else if category == "Storage" then 3
    else if category == "Refrigetator" then 4
    else if category == "Stove" then 5
    else if category == "Bed" then 6
    else if category == "Sink" then 7
    else if category == "Washmachine" then 8
    else if category == "Toilet" then 9
    else if category == "Bathtub" then 10
    else if category == "Oven" then 11
    else if category == "Dishwasher" then 12
    else if category == "Table" then 13
    else if category == "Sofa" then 14
    else if category == "Chair" then 15
    else if category == "Fireplace" then 16
    else if category == "TV" then 17
    else if category == "Stairs" then 18
    else if category == "Object" then 19
    else 20
  }

  /** Each row of the default table sits at the position of its key. */
  lemma DefaultPositions(ids: seq<Id>)
    requires |ids| == 20
    ensures forall i :: 0 <= i < 20 ==> DefaultPosition(DefaultObjects(ids)[i].category) == i
  {
    var t := DefaultObjects(ids);
    forall i | 0 <= i < 20
      ensures DefaultPosition(t[i].category) == i
    {
    }
  }

  /** The default table's twenty keys are pairwise distinct. */
  lemma DefaultKeysDistinct(ids: seq<Id>)
    requires |ids| == 20
    ensures forall i, j :: 0 <= i < j < 20 ==>
              DefaultObjects(ids)[i].category != DefaultObjects(ids)[j].category
  {
    DefaultPositions(ids);
  }

  /** Every row of the default table starts with both flags on. */
  lemma DefaultFlagsOn(ids: seq<Id>)
    requires |ids| == 20
    ensures forall o :: o in DefaultObjects(ids) ==> o.renderInTemplate && o.renderInColorMap
  {
  }

  /** A key is one of the twenty exactly when it has a position. */
  lemma DefaultKeysPositioned(category: string)
    ensures category in DefaultKeys <==> DefaultPosition(category) < 20
  {
  }

  /** A row with the key makes the lookup succeed. */
  lemma FoundAt(rows: seq<ObjectConfig>, i: nat, category: string)
    requires i < |rows| && rows[i].category == category
    ensures FirstWithCategory(rows, category).Some?
  {
  }

  /** Each of the twenty keys has a row in the default table. */
  lemma DefaultKeysFound(ids: seq<Id>, category: string)
    requires |ids| == 20
    requires DefaultPosition(category) < 20
    ensures FirstWithCategory(DefaultObjects(ids), category).Some?
  {
    var t := DefaultObjects(ids);
    if category == "Wall" {
      FoundAt(t, 0, category);
    } else if category == "Window" {
      FoundAt(t, 1, category);
    } else if category == "Door" {
      FoundAt(t, 2, category);
    } else if category == "Storage" {
      FoundAt(t, 3, category);
    } else if category == "Refrigetator" {
      FoundAt(t, 4, category);
    } else if category == "Stove" {
      FoundAt(t, 5, category);
    } else if category == "Bed" {
      FoundAt(t, 6, category);
    } else if category == "Sink" {
      FoundAt(t, 7, category);
    } else if category == "Washmachine" {
      FoundAt(t, 8, category);
    } else if category == "Toilet" {
      FoundAt(t, 9, category);
    } else if category == "Bathtub" {
      FoundAt(t, 10, category);
    } else if category == "Oven" {
      FoundAt(t, 11, category);
    } else if category == "Dishwasher" {
      FoundAt(t, 12, category);
    } else if category == "Table" {
      FoundAt(t, 13, category);
    } else if category == "Sofa" {
      FoundAt(t, 14, category);
    } else if category == "Chair" {
      FoundAt(t, 15, category);
    } else if category == "Fireplace" {
      FoundAt(t, 16, category);
    } else if category == "TV" {
      FoundAt(t, 17, category);
    } else if category == "Stairs" {
      FoundAt(t, 18, category);
    } else if category == "Object" {
      FoundAt(t, 19, category);
    }
  }

  /** Only the twenty keys have a row in the default table. */
  lemma DefaultOnlyKeysFound(ids: seq<Id>, category: string)
    requires |ids| == 20
    ensures FirstWithCategory(DefaultObjects(ids), category).Some? ==> category in DefaultKeys
  {
    var t := DefaultObjects(ids);
    DefaultPositions(ids);
    DefaultKeysPositioned(category);
    if FirstWithCategory(t, category).Some? {
      var i :| 0 <= i < 20 && t[i].category == category;
      assert DefaultPosition(category) == i;
    }
  }

  /** Over the default table a key is found exactly when it is one of the
      twenty keys, and the row found carries that key. */
  lemma DefaultLookup(ids: seq<Id>, category: string)
    requires |ids| == 20
    ensures FirstWithCategory(DefaultObjects(ids), category).Some? <==> category in DefaultKeys
    ensures FirstWithCategory(DefaultObjects(ids), category).Some? ==>
              FirstWithCategory(DefaultObjects(ids), category).value.category == category
  {
    DefaultKeysPositioned(category);
    if category in DefaultKeys {
      DefaultKeysFound(ids, category);
    }
    DefaultOnlyKeysFound(ids, category);
  }

  /** Lookup goes by key, not by display name: "Refrigerator" is no key,
      while "Refrigetator" finds the row displayed as "Refrigerator". */
  lemma LookupIsByKey(ids: seq<Id>)
    requires |ids| == 20
    ensures FirstWithCategory(DefaultObjects(ids), "Refrigerator").None?
    ensures FirstWithCategory(DefaultObjects(ids), "Refrigetator") == Some(DefaultObjects(ids)[4])
    ensures DefaultObjects(ids)[4].name == "Refrigerator"
  {
    DefaultLookup(ids, "Refrigerator");
    DefaultKeysDistinct(ids);
  }

  /** The template switch flips `renderInTemplate`; when it is turned off
      its change handler turns `renderInColorMap` on. */
  function TemplateToggled(o: ObjectConfig): (r: ObjectConfig)
    ensures !r.renderInTemplate ==> r.renderInColorMap
    ensures r.id == o.id && r.name == o.name && r.category == o.category
  {
    var newValue := !o.renderInTemplate;
    if !newValue then o.(renderInTemplate := newValue, renderInColorMap := true)
    else o.(renderInTemplate := newValue)
  }

  /** The colour-map checkbox exists only while the template switch is off;
      pressing it flips `renderInColorMap`. */
  function ColorMapPressed(o: ObjectConfig): (r: ObjectConfig)
    ensures r.renderInTemplate ==> r == o
    ensures r.(renderInColorMap := o.renderInColorMap) == o
  {
    if !o.renderInTemplate then o.(renderInColorMap := !o.renderInColorMap) else o
  }

  /** Turning the template off forces the colour map on; turning it on leaves
      the colour map as it was; name, key and id never change. */
  lemma TemplateToggledEffect(o: ObjectConfig)
    ensures TemplateToggled(o).renderInTemplate == !o.renderInTemplate
    ensures o.renderInTemplate ==> TemplateToggled(o).renderInColorMap
    ensures !o.renderInTemplate ==> TemplateToggled(o).renderInColorMap == o.renderInColorMap
    ensures TemplateToggled(o).(renderInTemplate := o.renderInTemplate,
                                renderInColorMap := o.renderInColorMap) == o
  {
  }

  /** The checkbox changes the colour-map flag only while the template flag
      is off, pressing it twice restores the row, and nothing else changes. */
  lemma ColorMapPressedEffect(o: ObjectConfig)
    ensures ColorMapPressed(o).renderInColorMap != o.renderInColorMap <==> !o.renderInTemplate
    ensures ColorMapPressed(o).(renderInColorMap := o.renderInColorMap) == o
    ensures ColorMapPressed(ColorMapPressed(o)) == o
  {
  }

  /** Unlike the post-scan screen, these switches do not keep "drawn on the
      template implies drawn on the colour map": from a default row, turning
      the template off, unticking the colour map and turning the template on
      again leaves a row drawn on the template only. */
  lemma TemplateOnlyRowReachable(o: ObjectConfig)
    requires o.renderInTemplate && o.renderInColorMap
    ensures var r := TemplateToggled(ColorMapPressed(TemplateToggled(o)));
            r.renderInTemplate && !r.renderInColorMap
  {
  }

  /** Editing a row's flags never changes which keys a lookup finds. */
  lemma EditsKeepLookup(rows: seq<ObjectConfig>, index: nat, category: string)
    requires index < |rows|
    ensures FirstWithCategory(rows[index := TemplateToggled(rows[index])], category).Some? ==
            FirstWithCategory(rows, category).Some?
    ensures FirstWithCategory(rows[index := ColorMapPressed(rows[index])], category).Some? ==
            FirstWithCategory(rows, category).Some?
  {
    var a := rows[index := TemplateToggled(rows[index])];
    var b := rows[index := ColorMapPressed(rows[index])];
    assert forall i :: 0 <= i < |rows| ==> a[i].category == rows[i].category;
    assert forall i :: 0 <= i < |rows| ==> b[i].category == rows[i].category;
  }

  /** The view model of the pre-scan selection screen. */
  class ObjectSelectionViewModel {
    /** The rows the user is editing, initially the default table. */
    var objects: seq<ObjectConfig>

    constructor (ids: seq<Id>)
      requires |ids| == 20
      ensures objects == DefaultObjects(ids)
    {
      objects := DefaultObjects(ids);
    }

    /** The first row configured under `category`, or none. */
    function GetConfig(category: string): (r: Option<ObjectConfig>)
      reads this
      ensures r.Some? ==> r.value in objects && r.value.category == category
      ensures r.None? <==> forall o :: o in objects ==> o.category != category
    {
      FirstWithCategory(objects, category)
    }

    /** The user flips the template switch of row `index`. */
    method ToggleTemplate(index: nat)
      requires index < |objects|
      modifies this`objects
      ensures objects == old(objects)[index := TemplateToggled(old(objects)[index])]
    {
      var row := objects[index];
      row := row.(renderInTemplate := !row.renderInTemplate);
      if !row.renderInTemplate {
        row := row.(renderInColorMap := true);
      }
      objects := objects[index := row];
    }

    /** The user presses the colour-map checkbox of row `index`. */
    method PressColorMap(index: nat)
      requires index < |objects|
      modifies this`objects
      ensures objects == old(objects)[index := ColorMapPressed(old(objects)[index])]
    {
      if !objects[index].renderInTemplate {
        var row := objects[index];
        objects := objects[index := row.(renderInColorMap := !row.renderInColorMap)];
      }
    }
  }
}

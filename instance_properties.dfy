/**
 * The property grid of the scene editor's selected instances
 * (newIDE/app/src/InstancesEditor/InstancePropertiesEditor/index.js),
 * with the widgets reduced to the values they are given.
 *
 * A field of the grid reads a value from every selected instance and shows
 * the common value; an edit writes one value to every selected instance and
 * then notifies the host once.  Custom properties are stored as strings and
 * coerced when read and written.
 */
module InstancePropertiesEditor {
  import opened Wrappers

  /** A JavaScript number: NaN, or a finite value (infinities and -0 are not distinguished). */
  datatype Number = NaN | Finite(r: real)

  /** The JavaScript values the grid reads and writes. */
  datatype Value = Bool(b: bool) | Num(n: Number) | Str(s: string)

  /** JavaScript's `===` on these values: NaN is unequal to everything, itself included. */
  predicate StrictEquals(a: Value, b: Value)
    ensures StrictEquals(a, b) ==> a == b
    ensures a == b && a != Num(NaN) ==> StrictEquals(a, b)
    ensures a == Num(NaN) ==> !StrictEquals(a, b)
  {
    a == b && a != Num(NaN)
  }

  /** The host's number conversions, which this model leaves uninterpreted: `parseFloat` and `'' + n`. */
  datatype NumberConversions = NumberConversions(parseFloat: string -> Number, toString: Number -> string)

  /** `n || 0`: NaN and 0 are falsy and become 0. */
  function OrZero(n: Number): (r: Number)
    ensures r != NaN
    ensures n == NaN || n == Finite(0.0) ==> r == Finite(0.0)
    ensures n != NaN && n != Finite(0.0) ==> r == n
  {
    if n == NaN || n == Finite(0.0) then Finite(0.0) else n
  }

  /**
   * A selected instance, as the accessors the grid uses see it.  Its custom
   * properties are the declared type of each property and the string stored
   * for it.
   */
  datatype Instance = Instance(
    objectName: string,
    x: Number,
    y: Number,
    angle: Number,
    zOrder: Number,
    layer: string,
    locked: bool,
    hasCustomSize: bool,
    customWidth: Number,
    customHeight: Number,
    propertyTypes: map<string, string>,
    propertyValues: map<string, string>)

  /** The getter/setter pair of a field: one per built-in field, and one per custom property. */
  datatype Accessor =
    | ObjectName | X | Y | Angle | ZOrder | Layer | Locked
    | HasCustomSize | CustomWidth | CustomHeight
    | Custom(name: string, valueType: string)

  /** The values a setter takes: the host's built-in setters are typed, `updateCustomProperty` takes anything. */
  predicate Accepts(acc: Accessor, v: Value) {
    match acc
    case ObjectName => v.Str?
    case Layer => v.Str?
    case Locked => v.Bool?
    case HasCustomSize => v.Bool?
    case Custom(_, _) => true
    case _ => v.Num?
  }

  /** The string stored for a custom property; a property the instance lacks reads as empty. */
  function StoredProperty(inst: Instance, name: string): string {
    if name in inst.propertyValues then inst.propertyValues[name] else ""
  }

  /** A custom property's getValue: `'true'` alone is true; numbers are parsed; other types stay strings. */
  function DecodeCustom(conv: NumberConversions, valueType: string, raw: string): (v: Value)
    ensures valueType == "boolean" ==> (v == Bool(true) <==> raw == "true")
    ensures valueType == "boolean" ==> v.Bool?
    ensures valueType == "number" ==> v == Num(conv.parseFloat(raw))
    ensures valueType != "boolean" && valueType != "number" ==> v == Str(raw)
  {
    if valueType == "boolean" then Bool(raw == "true")
    else if valueType == "number" then Num(conv.parseFloat(raw))
    else Str(raw)
  }

  /** A custom property's setValue: booleans become `'1'`/`'0'`, everything else `'' + newValue`. */
  function EncodeCustom(conv: NumberConversions, v: Value): (raw: string)
    ensures v.Bool? ==> raw == if v.b then "1" else "0"
    ensures v.Str? ==> raw == v.s
    ensures v.Num? ==> raw == conv.toString(v.n)
  {
    match v
    case Bool(b) => if b then "1" else "0"
    case Num(n) => conv.toString(n)
    case Str(s) => s
  }

  /** Two accessors read and write the same stored datum: equal, or custom accessors of one property name. */
  predicate SameStorage(a: Accessor, b: Accessor) {
    a == b || (a.Custom? && b.Custom? && a.name == b.name)
  }

  /** The getValue of a field. */
  function GetValue(conv: NumberConversions, inst: Instance, acc: Accessor): (v: Value)
    ensures !acc.Custom? ==> Accepts(acc, v)
    ensures acc.Custom? && acc.valueType == "boolean" ==> v.Bool?
    ensures acc.Custom? && acc.valueType != "boolean" && acc.valueType != "number" ==> v.Str?
    ensures acc.Custom? ==> v == DecodeCustom(conv, acc.valueType, StoredProperty(inst, acc.name))
  {
    match acc
    case ObjectName => Str(inst.objectName)
    case X => Num(inst.x)
    case Y => Num(inst.y)
    case Angle => Num(inst.angle)
    case ZOrder => Num(inst.zOrder)
    case Layer => Str(inst.layer)
    case Locked => Bool(inst.locked)
    case HasCustomSize => Bool(inst.hasCustomSize)
    case CustomWidth => Num(inst.customWidth)
    case CustomHeight => Num(inst.customHeight)
    case Custom(name, valueType) => DecodeCustom(conv, valueType, StoredProperty(inst, name))
  }

  /** The setValue of a field. */
  function SetValue(conv: NumberConversions, inst: Instance, acc: Accessor, v: Value): (r: Instance)
    requires Accepts(acc, v)
    ensures r.propertyTypes == inst.propertyTypes
    ensures forall other :: !SameStorage(acc, other) ==> GetValue(conv, r, other) == GetValue(conv, inst, other)
  {
    match acc
    case ObjectName => inst.(objectName := v.s)
    case X => inst.(x := v.n)
    case Y => inst.(y := v.n)
    case Angle => inst.(angle := v.n)
    case ZOrder => inst.(zOrder := v.n)
    case Layer => inst.(layer := v.s)
    case Locked => inst.(locked := v.b)
    case HasCustomSize => inst.(hasCustomSize := v.b)
    case CustomWidth => inst.(customWidth := v.n)
    case CustomHeight => inst.(customHeight := v.n)
    case Custom(name, _) => inst.(propertyValues := inst.propertyValues[name := EncodeCustom(conv, v)])
  }

  /** What a field reads back after `v` was written through it; it does not depend on the instance. */
  function ReadBack(conv: NumberConversions, acc: Accessor, v: Value): Value {
    match acc
    case Custom(_, valueType) => DecodeCustom(conv, valueType, EncodeCustom(conv, v))
    case _ => v
  }

  /** Reading a field right after writing it gives ReadBack, whatever the instance was. */
  lemma SetThenGet(conv: NumberConversions, inst: Instance, acc: Accessor, v: Value)
    requires Accepts(acc, v)
    ensures GetValue(conv, SetValue(conv, inst, acc, v), acc) == ReadBack(conv, acc, v)
  {
  }

  /** Built-in fields, and custom properties of a string type, give back what was written. */
  lemma RoundTripWhereItHolds(conv: NumberConversions, acc: Accessor, v: Value)
    requires Accepts(acc, v)
    requires acc.Custom? ==> v.Str? && acc.valueType != "boolean" && acc.valueType != "number"
    ensures ReadBack(conv, acc, v) == v
  {
  }

  /**
   * A boolean custom property written through the grid always reads back
   * false: it is stored as `'1'` or `'0'` but only `'true'` reads as true.
   */
  lemma CustomBooleanReadsBackFalse(conv: NumberConversions, name: string, b: bool)
    ensures ReadBack(conv, Custom(name, "boolean"), Bool(b)) == Bool(false)
    ensures b ==> ReadBack(conv, Custom(name, "boolean"), Bool(b)) != Bool(b)
  {
  }

  /** A custom setValue updates that one property of that instance and nothing else. */
  lemma CustomSetTouchesOneProperty(conv: NumberConversions, inst: Instance, name: string, valueType: string, v: Value)
    ensures var r := SetValue(conv, inst, Custom(name, valueType), v);
      && r.propertyValues.Keys == inst.propertyValues.Keys + {name}
      && r.propertyValues[name] == EncodeCustom(conv, v)
      && (forall other :: other in inst.propertyValues && other != name ==>
            r.propertyValues[other] == inst.propertyValues[other])
      && r.(propertyValues := inst.propertyValues) == inst
  {
  }

  // ---------------------------------------------------------------------
  // The value shown for a field over the selection
  // ---------------------------------------------------------------------

  /** Every selected instance yields, under `===`, the first instance's value. */
  predicate SelectionAgrees(conv: NumberConversions, instances: seq<Instance>, acc: Accessor)
    requires |instances| > 0
  {
    forall i :: 1 <= i < |instances| ==>
      StrictEquals(GetValue(conv, instances[0], acc), GetValue(conv, instances[i], acc))
  }

  /** The value shown for a field: the common value, else the default if one is given, else the first value. */
  function FieldValue(conv: NumberConversions, instances: seq<Instance>, acc: Accessor, defaultValue: Option<Value>): (r: Value)
    requires |instances| > 0
    ensures |instances| == 1 ==> r == GetValue(conv, instances[0], acc)
    ensures r != GetValue(conv, instances[0], acc) ==>
      defaultValue == Some(r) &&
      (exists i :: 1 <= i < |instances| &&
        !StrictEquals(GetValue(conv, instances[0], acc), GetValue(conv, instances[i], acc)))
  {
    var first := GetValue(conv, instances[0], acc);
    if SelectionAgrees(conv, instances, acc) then first else defaultValue.GetOr(first)
  }

  /** When every instance yields the same value (other than NaN), that value is shown. */
  lemma FieldValueOfUniformSelection(conv: NumberConversions, instances: seq<Instance>, acc: Accessor,
                                     defaultValue: Option<Value>, v: Value)
    requires |instances| > 0 && v != Num(NaN)
    requires forall i :: 0 <= i < |instances| ==> GetValue(conv, instances[i], acc) == v
    ensures FieldValue(conv, instances, acc, defaultValue) == v
  {
  }

  /** When some instance differs from the first under `===`, the default is shown if given, and otherwise the first instance's value. */
  lemma FieldValueOfMixedSelection(conv: NumberConversions, instances: seq<Instance>, acc: Accessor,
                                   defaultValue: Option<Value>, i: nat)
    requires 1 <= i < |instances| && !StrictEquals(GetValue(conv, instances[0], acc), GetValue(conv, instances[i], acc))
    ensures defaultValue.Some? ==> FieldValue(conv, instances, acc, defaultValue) == defaultValue.value
    ensures defaultValue.None? ==> FieldValue(conv, instances, acc, defaultValue) == GetValue(conv, instances[0], acc)
  {
  }

  /** _getFieldValue: the loop that compares each instance's value with the first and stops at a mismatch. */
  method GetFieldValue(conv: NumberConversions, instances: seq<Instance>, getter: Accessor, defaultValue: Option<Value>)
    returns (value: Value)
    requires |instances| > 0
    ensures value == FieldValue(conv, instances, getter, defaultValue)
  {
    value := GetValue(conv, instances[0], getter);
    var i := 1;
    while i < |instances|
      invariant 1 <= i <= |instances|
      invariant value == GetValue(conv, instances[0], getter)
      invariant forall j :: 1 <= j < i ==>
        StrictEquals(GetValue(conv, instances[0], getter), GetValue(conv, instances[j], getter))
    {
      if !StrictEquals(value, GetValue(conv, instances[i], getter)) {
        if defaultValue.Some? {
          value := defaultValue.value;
        }
        break;
      }
      i := i + 1;
    }
  }

  // ---------------------------------------------------------------------
  // The schema and its rendering
  // ---------------------------------------------------------------------

  /**
   * An entry of a field schema.  `getter` is present when the entry has a
   * getValue/setValue pair; `hasChildren` says whether it has a `children`
   * list (an empty list counts).
   */
  datatype Entry = Entry(
    name: string,
    valueType: string,
    disabled: bool,
    getter: Option<Accessor>,
    hasChildren: bool,
    children: seq<Entry>)

  function FieldEntry(name: string, valueType: string, disabled: bool, acc: Accessor): Entry {
    Entry(name, valueType, disabled, Some(acc), false, [])
  }

  function GroupEntry(name: string, children: seq<Entry>): Entry {
    Entry(name, "", false, None, true, children)
  }

  /** The built-in fields of every instance. */
  function BuiltinSchema(): (r: seq<Entry>)
    ensures |r| == 8 && forall i :: 0 <= i < 7 ==> r[i].getter.Some? && !r[i].hasChildren
    ensures r[7].name == "Custom size" && r[7].getter.None? && r[7].hasChildren && |r[7].children| == 3
    ensures forall i :: 0 <= i < 3 ==> r[7].children[i].getter.Some? && !r[7].children[i].hasChildren
  {
    [ FieldEntry("Object name", "string", true, ObjectName),
      FieldEntry("X", "number", false, X),
      FieldEntry("Y", "number", false, Y),
      FieldEntry("Angle", "number", false, Angle),
      FieldEntry("Z Order", "number", false, ZOrder),
      FieldEntry("Layer", "string", false, Layer),
      FieldEntry("Locked", "boolean", false, Locked),
      GroupEntry("Custom size", [
        FieldEntry("Enabled?", "boolean", false, HasCustomSize),
        FieldEntry("Width", "number", false, CustomWidth),
        FieldEntry("Height", "number", false, CustomHeight)])]
  }

  /** The placeholder a string field shows for a mixed selection. */
  const MultipleValues := "(Multiple values)"

  /** An edit widget with the value it is given. */
  datatype Widget =
    | Checkbox(caption: string, value: Value, disabled: bool)
    | NumberField(caption: string, value: Value, disabled: bool)
    | TextField(caption: string, value: Value, disabled: bool)

  /** What rendering one schema entry gives: an edit widget, a titled section, or nothing. */
  datatype Rendered = EditField(widget: Widget) | Section(title: string, items: seq<Rendered>) | Nothing

  /** _renderEditField, without its change handlers (see PropertiesEditor). */
  function RenderEditField(conv: NumberConversions, instances: seq<Instance>, field: Entry): (w: Widget)
    requires |instances| > 0 && field.getter.Some?
    ensures w.caption == field.name && w.disabled == field.disabled
    ensures w.Checkbox? <==> field.valueType == "boolean"
    ensures w.NumberField? <==> field.valueType == "number"
    ensures w.TextField? ==> w.value == FieldValue(conv, instances, field.getter.value, Some(Str(MultipleValues)))
    ensures !w.TextField? ==> w.value == FieldValue(conv, instances, field.getter.value, None)
  {
    var acc := field.getter.value;
    if field.valueType == "boolean" then
      Checkbox(field.name, FieldValue(conv, instances, acc, None), field.disabled)
    else if field.valueType == "number" then
      NumberField(field.name, FieldValue(conv, instances, acc, None), field.disabled)
    else
      TextField(field.name, FieldValue(conv, instances, acc, Some(Str(MultipleValues))), field.disabled)
  }

  /** One schema entry: a getter makes a widget; otherwise children make a section; otherwise nothing. */
  function RenderEntry(conv: NumberConversions, instances: seq<Instance>, entry: Entry): (r: Rendered)
    requires |instances| > 0
    ensures entry.getter.Some? ==> r == EditField(RenderEditField(conv, instances, entry))
    ensures entry.getter.None? && entry.hasChildren ==>
      r == Section(entry.name, RenderFields(conv, instances, entry.children))
    ensures entry.getter.None? && !entry.hasChildren ==> r == Nothing
    decreases entry, 1
  {
    if entry.getter.Some? then EditField(RenderEditField(conv, instances, entry))
    else if entry.hasChildren then Section(entry.name, RenderFields(conv, instances, entry.children))
    else Nothing
  }

  /** _renderFields: one result per entry, in order. */
  function RenderFields(conv: NumberConversions, instances: seq<Instance>, schema: seq<Entry>): (r: seq<Rendered>)
    requires |instances| > 0
    ensures |r| == |schema|
    ensures forall i :: 0 <= i < |schema| ==> r[i] == RenderEntry(conv, instances, schema[i])
    decreases schema, 0
  {
    if schema == [] then []
    else [RenderEntry(conv, instances, schema[0])] + RenderFields(conv, instances, schema[1..])
  }

  /** The number of entries with a getter, groups included at every depth. */
  function FieldCount(schema: seq<Entry>): nat
    decreases schema, 0
  {
    if schema == [] then 0 else EntryFieldCount(schema[0]) + FieldCount(schema[1..])
  }

  function EntryFieldCount(entry: Entry): nat
    decreases entry, 1
  {
    if entry.getter.Some? then 1
    else if entry.hasChildren then FieldCount(entry.children)
    else 0
  }

  /** The number of edit widgets in a rendering, sections included at every depth. */
  function WidgetCount(items: seq<Rendered>): nat
    decreases items, 0
  {
    if items == [] then 0 else ItemWidgetCount(items[0]) + WidgetCount(items[1..])
  }

  function ItemWidgetCount(item: Rendered): nat
    decreases item, 1
  {
    match item
    case EditField(_) => 1
    case Section(_, items) => WidgetCount(items)
    case Nothing => 0
  }

  /** Rendering makes exactly one widget for every entry with a getter, however deep. */
  lemma {:induction false} RenderFieldsWidgetCount(conv: NumberConversions, instances: seq<Instance>, schema: seq<Entry>)
    requires |instances| > 0
    ensures WidgetCount(RenderFields(conv, instances, schema)) == FieldCount(schema)
    decreases schema, 0
  {
    if schema != [] {
      RenderEntryWidgetCount(conv, instances, schema[0]);
      RenderFieldsWidgetCount(conv, instances, schema[1..]);
      var r := RenderFields(conv, instances, schema);
      assert r[1..] == RenderFields(conv, instances, schema[1..]);
    }
  }

  lemma {:induction false} RenderEntryWidgetCount(conv: NumberConversions, instances: seq<Instance>, entry: Entry)
    requires |instances| > 0
    ensures ItemWidgetCount(RenderEntry(conv, instances, entry)) == EntryFieldCount(entry)
    decreases entry, 1
  {
    if entry.getter.None? && entry.hasChildren {
      RenderFieldsWidgetCount(conv, instances, entry.children);
    }
  }

  // ---------------------------------------------------------------------
  // Custom properties as fields
  // ---------------------------------------------------------------------

  /** Code-point order on strings, a proper prefix first: the order of the host's property map. */
  predicate StringLess(a: string, b: string) {
    if a == [] then b != []
    else if b == [] then false
    else if a[0] != b[0] then a[0] < b[0]
    else StringLess(a[1..], b[1..])
  }

  lemma {:induction false} StringLessIrreflexive(a: string)
    ensures !StringLess(a, a)
  {
    if a != [] {
      StringLessIrreflexive(a[1..]);
    }
  }

  lemma {:induction false} StringLessTransitive(a: string, b: string, c: string)
    requires StringLess(a, b) && StringLess(b, c)
    ensures StringLess(a, c)
  {
    if a != [] && b != [] && c != [] && a[0] == b[0] && b[0] == c[0] {
      StringLessTransitive(a[1..], b[1..], c[1..]);
    }
  }

  lemma {:induction false} StringLessTotal(a: string, b: string)
    requires a != b
    ensures StringLess(a, b) || StringLess(b, a)
  {
    if a != [] && b != [] && a[0] == b[0] {
      assert a == [a[0]] + a[1..] && b == [b[0]] + b[1..];
      StringLessTotal(a[1..], b[1..]);
    }
  }

  /** The least name of a non-empty set of names. */
  ghost function Least(names: set<string>): (k: string)
    requires names != {}
    ensures k in names
    ensures forall j :: j in names && j != k ==> StringLess(k, j)
    decreases names
  {
    var x :| x in names;
    if names == {x} then x
    else
      var m := Least(names - {x});
      if StringLess(x, m) then
        LeastBelow(names - {x}, m, x);
        x
      else
        StringLessTotal(x, m);
        m
  }

  /** A name below the least of a set is below every member. */
  lemma LeastBelow(names: set<string>, m: string, x: string)
    requires m in names && StringLess(x, m)
    requires forall j :: j in names && j != m ==> StringLess(m, j)
    ensures forall j :: j in names ==> StringLess(x, j)
  {
    forall j | j in names ensures StringLess(x, j) {
      if j != m {
        StringLessTransitive(x, m, j);
      }
    }
  }

  /** The names of a set in increasing order, as the host's ordered map lists its keys. */
  ghost function SortedKeys(names: set<string>): (r: seq<string>)
    ensures |r| == |names|
    ensures forall k :: k in r <==> k in names
    ensures forall i, j :: 0 <= i < j < |r| ==> StringLess(r[i], r[j])
    decreases names
  {
    if names == {} then []
    else
      var k := Least(names);
      [k] + SortedKeys(names - {k})
  }

  function LowerChar(c: char): char {
    if 'A' <= c <= 'Z' then (c as int - 'A' as int + 'a' as int) as char else c
  }

  /** `toLowerCase`, on the ASCII letters. */
  function ToLower(s: string): (r: string)
    ensures |r| == |s| && forall i :: 0 <= i < |s| ==> r[i] == LowerChar(s[i])
    ensures forall i :: 0 <= i < |s| && 'A' <= s[i] <= 'Z' ==> r[i] as int == s[i] as int + 32
    ensures forall i :: 0 <= i < |s| && !('A' <= s[i] <= 'Z') ==> r[i] == s[i]
    ensures forall i :: 0 <= i < |r| ==> !('A' <= r[i] <= 'Z')
  {
    seq(|s|, i requires 0 <= i < |s| => LowerChar(s[i]))
  }

  /** An illustration: the declared type names the host uses become the value types the grid dispatches on. */
  lemma ToLowerExamples()
    ensures ToLower("Boolean") == "boolean" && ToLower("number") == "number" && ToLower("Choice") == "choice"
  {
  }

  /** The field made for the custom property `name` of type `typeName`. */
  function CustomEntry(name: string, typeName: string): (e: Entry)
    ensures e.name == name && e.valueType == ToLower(typeName) && !e.disabled && !e.hasChildren
    ensures e.getter == Some(Custom(name, e.valueType))
  {
    var valueType := ToLower(typeName);
    FieldEntry(name, valueType, false, Custom(name, valueType))
  }

  /** The fields made for the custom properties `names`, in that order. */
  function CustomFieldsOf(names: seq<string>, types: map<string, string>): (r: seq<Entry>)
    requires forall i :: 0 <= i < |names| ==> names[i] in types
    ensures |r| == |names|
    ensures forall i :: 0 <= i < |names| ==> r[i] == CustomEntry(names[i], types[names[i]])
  {
    if names == [] then [] else [CustomEntry(names[0], types[names[0]])] + CustomFieldsOf(names[1..], types)
  }

  /** The custom-property fields of an instance, one per declared property, in key order. */
  ghost function CustomFields(inst: Instance): (r: seq<Entry>)
    ensures |r| == |inst.propertyTypes|
    ensures forall i :: 0 <= i < |r| ==> r[i].name in inst.propertyTypes
    ensures forall i :: 0 <= i < |r| ==> r[i] == CustomEntry(r[i].name, inst.propertyTypes[r[i].name])
    ensures forall i, j :: 0 <= i < j < |r| ==> StringLess(r[i].name, r[j].name)
    ensures forall name :: name in inst.propertyTypes ==> exists i :: 0 <= i < |r| && r[i].name == name
  {
    var names := SortedKeys(inst.propertyTypes.Keys);
    CustomFieldsNames(names, inst.propertyTypes);
    CustomFieldsOf(names, inst.propertyTypes)
  }

  lemma CustomFieldsNames(names: seq<string>, types: map<string, string>)
    requires forall i :: 0 <= i < |names| ==> names[i] in types
    requires forall name :: name in types ==> name in names
    ensures var r := CustomFieldsOf(names, types);
      && (forall i :: 0 <= i < |r| ==> r[i].name == names[i])
      && (forall i :: 0 <= i < |r| ==> r[i].name in types && r[i] == CustomEntry(r[i].name, types[r[i].name]))
      && (forall name :: name in types ==> exists i :: 0 <= i < |r| && r[i].name == name)
  {
    var r := CustomFieldsOf(names, types);
    forall i | 0 <= i < |r| ensures r[i].name == names[i] {
      assert r[i] == CustomEntry(names[i], types[names[i]]);
    }
    forall name | name in types ensures exists i :: 0 <= i < |r| && r[i].name == name {
      var i :| 0 <= i < |names| && names[i] == name;
      assert r[i].name == name;
    }
  }

  /** render: nothing without instances, else the built-in schema then the first instance's custom fields. */
  ghost function Render(conv: NumberConversions, instances: seq<Instance>): (r: Option<seq<Rendered>>)
    ensures r.None? <==> instances == []
    ensures r.Some? ==> |r.value| == |BuiltinSchema()| + |instances[0].propertyTypes|
    ensures r.Some? ==> r.value == RenderFields(conv, instances, BuiltinSchema() + CustomFields(instances[0]))
  {
    if instances == [] then None
    else Some(RenderFields(conv, instances, BuiltinSchema() + CustomFields(instances[0])))
  }

  /** Every entry of the rendered schema has a setter that takes the values its widget's handler writes. */
  ghost predicate HandlerTyped(entry: Entry) {
    entry.getter.Some? ==>
      if entry.valueType == "boolean" then forall b: bool :: Accepts(entry.getter.value, Bool(b))
      else if entry.valueType == "number" then forall n: Number :: Accepts(entry.getter.value, Num(n))
      else forall s: string :: Accepts(entry.getter.value, Str(s))
  }

  /** The built-in fields' handlers write values their setters take. */
  lemma BuiltinHandlersTyped()
    ensures forall i :: 0 <= i < 7 ==> HandlerTyped(BuiltinSchema()[i])
    ensures forall i :: 0 <= i < 3 ==> HandlerTyped(BuiltinSchema()[7].children[i])
  {
    var s := BuiltinSchema();
    assert HandlerTyped(s[0]) && HandlerTyped(s[1]) && HandlerTyped(s[2]) && HandlerTyped(s[3]);
    assert HandlerTyped(s[4]) && HandlerTyped(s[5]) && HandlerTyped(s[6]);
    var c := s[7].children;
    assert HandlerTyped(c[0]) && HandlerTyped(c[1]) && HandlerTyped(c[2]);
  }

  /** Custom fields take any value. */
  lemma CustomHandlersTyped(name: string, typeName: string)
    ensures HandlerTyped(CustomEntry(name, typeName))
  {
  }

  // ---------------------------------------------------------------------
  // Batch edits
  // ---------------------------------------------------------------------

  /** Every instance of `s` after writing `v` through the field. */
  function SetAll(conv: NumberConversions, s: seq<Instance>, acc: Accessor, v: Value): (r: seq<Instance>)
    requires Accepts(acc, v)
    ensures |r| == |s| && forall i :: 0 <= i < |s| ==> r[i] == SetValue(conv, s[i], acc, v)
  {
    seq(|s|, i requires 0 <= i < |s| => SetValue(conv, s[i], acc, v))
  }

  /**
   * After a batch edit every instance yields the same value, so the field
   * then shows it (unless it is NaN, which `===` never matches).
   */
  lemma FieldValueAfterEdit(conv: NumberConversions, s: seq<Instance>, acc: Accessor, v: Value,
                            defaultValue: Option<Value>)
    requires |s| > 0 && Accepts(acc, v)
    ensures forall i :: 0 <= i < |s| ==> GetValue(conv, SetAll(conv, s, acc, v)[i], acc) == ReadBack(conv, acc, v)
    ensures ReadBack(conv, acc, v) != Num(NaN) ==>
      FieldValue(conv, SetAll(conv, s, acc, v), acc, defaultValue) == ReadBack(conv, acc, v)
  {
    var r := SetAll(conv, s, acc, v);
    forall i | 0 <= i < |s| ensures GetValue(conv, r[i], acc) == ReadBack(conv, acc, v) {
      SetThenGet(conv, s[i], acc, v);
    }
  }

  /** A checked custom boolean shows unchecked right after the edit. */
  lemma CheckedCustomBooleanShowsUnchecked(conv: NumberConversions, s: seq<Instance>, name: string)
    requires |s| > 0
    ensures FieldValue(conv, SetAll(conv, s, Custom(name, "boolean"), Bool(true)), Custom(name, "boolean"), None)
      == Bool(false)
  {
    FieldValueAfterEdit(conv, s, Custom(name, "boolean"), Bool(true), None);
  }

  /**
   * The grid's edit handlers over the selection.  `instances` holds the
   * selected instances, which the handlers update in place; `modifications`
   * records each call of the host's onInstancesModified callback with the
   * instances it was given.
   */
  class PropertiesEditor {
    const conv: NumberConversions
    const instances: array<Instance>
    var modifications: seq<seq<Instance>>

    constructor (conv: NumberConversions, instances: array<Instance>)
      ensures this.conv == conv && this.instances == instances && modifications == []
    {
      this.conv := conv;
      this.instances := instances;
      modifications := [];
    }

    /** The `forEach` of the handlers: writes `v` through the field on every selected instance. */
    method WriteAll(acc: Accessor, v: Value)
      requires Accepts(acc, v)
      modifies instances
      ensures instances[..] == SetAll(conv, old(instances[..]), acc, v)
    {
      var i := 0;
      while i < instances.Length
        invariant 0 <= i <= instances.Length
        invariant forall j :: 0 <= j < i ==> instances[j] == SetValue(conv, old(instances[j]), acc, v)
        invariant forall j :: i <= j < instances.Length ==> instances[j] == old(instances[j])
      {
        instances[i] := SetValue(conv, instances[i], acc, v);
        i := i + 1;
      }
    }

    /** The checkbox handler: writes `!!newValue` everywhere, then notifies once (the checkbox delivers a boolean, which `!!` keeps). */
    method OnCheck(field: Entry, newValue: bool)
      requires field.getter.Some? && Accepts(field.getter.value, Bool(newValue))
      modifies instances, this`modifications
      ensures instances[..] == SetAll(conv, old(instances[..]), field.getter.value, Bool(newValue))
      ensures modifications == old(modifications) + [instances[..]]
    {
      WriteAll(field.getter.value, Bool(newValue));
      modifications := modifications + [instances[..]];
    }

    /** The number handler: writes `parseFloat(newValue) || 0` everywhere, then notifies once. */
    method OnNumberChange(field: Entry, newValue: string)
      requires field.getter.Some? && Accepts(field.getter.value, Num(OrZero(conv.parseFloat(newValue))))
      modifies instances, this`modifications
      ensures instances[..] ==
        SetAll(conv, old(instances[..]), field.getter.value, Num(OrZero(conv.parseFloat(newValue))))
      ensures modifications == old(modifications) + [instances[..]]
    {
      WriteAll(field.getter.value, Num(OrZero(conv.parseFloat(newValue))));
      modifications := modifications + [instances[..]];
    }

    /** The text handler: writes `newValue || ''` everywhere, then notifies once (the field delivers a string; only '' is falsy). */
    method OnTextChange(field: Entry, newValue: string)
      requires field.getter.Some? && Accepts(field.getter.value, Str(newValue))
      modifies instances, this`modifications
      ensures instances[..] == SetAll(conv, old(instances[..]), field.getter.value, Str(newValue))
      ensures modifications == old(modifications) + [instances[..]]
    {
      WriteAll(field.getter.value, Str(if newValue != "" then newValue else ""));
      modifications := modifications + [instances[..]];
    }
  }
}

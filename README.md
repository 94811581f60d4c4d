# GDevelop: sprite points, joystick axes and the instance property grid

This project models three small pieces of GDevelop in Dafny and proves their properties.

- **Sprite** (`GDCpp/GDCpp/Sprite.cpp`). A sprite keeps a list of named points. Two more points are reserved: "Origin" and "Centre" are answered from their own fields, not from the list. `AddPoint` refuses any name that `HasPoint` already knows, reserved names included. `DelPoint` erases by name inside an index loop. `HasPoint` and both `GetPoint` overloads look at the reserved names first and then search the list. The model is the class `Sprites.Sprite`. Its `points` field is a `seq<Point>` that the methods reassign. `Valid()` says the stored names are distinct and none is reserved. The constructor establishes it; `AddPoint` and `DelPoint` keep it.
- **Joystick axes** (`GDCpp/GDCpp/BuiltinExtensions/JoystickTools.cpp`). A name table maps nine axis names to eight axes. "AxisPOV" is the deprecated spelling of "AxisPovX". `GetJoystickAxisValue` returns 0 for an unknown name. `JoystickAxisValueToVariable` does nothing for an unknown name. For a known name it writes the device reading into one scene variable. The device is a function parameter `position`. The scene's variables are a `map<string, real>`.
- **Instance property grid** (`newIDE/app/src/InstancesEditor/InstancePropertiesEditor/index.js`). The widgets are reduced to the values they are given.
  - `_getFieldValue` becomes the loop `GetFieldValue`. It is proved equal to `FieldValue`: the common value, else the default, else the first value. Values are compared with JavaScript's `===`, under which NaN is unequal to itself.
  - `_renderFields` becomes `RenderFields` over an `Entry` schema tree. Each entry gives an edit widget, a section or nothing.
  - The edit handlers are methods of `PropertiesEditor`. They write one value to every selected instance in place. Then they record one call of the host's modification callback.
  - Custom properties are strings. A boolean is written as `'1'`/`'0'` but reads as true only for `'true'`. `CustomBooleanReadsBackFalse` proves that any boolean written this way reads back as false.

Two things the code does, proved as stated:
- `DelPoint` increments its index even after an erase, so after each erase it skips the next entry (`DelPointSkipsFollowingDuplicate`). Under `Valid()` names are distinct, so this never matters. There `DelPoint` removes exactly the point with that name and keeps the rest in order (`DelPointResultDistinct`, `WithoutDistinct`).
- The reserved points are built with the names "origine" and "centre", not "Origin" and "Centre". So `GetPoint("Origin")` returns a point whose name is "origine". `AddPoint`'s contract promises a point with the wanted name only for names that are not reserved.

Three more facts about the property grid's code:
- A boolean custom property is written as `'1'` or `'0'` and read as true only for `'true'`. Under the host model described under "## Left out", where the host stores and returns a custom property's string exactly as given, it therefore does not round-trip (`CustomBooleanReadsBackFalse`).
- A mixed selection with no default shows the first instance's value (`FieldValueOfMixedSelection`).
- Whether a numeric custom property round-trips depends on `parseFloat` and `'' + n`. They are the uninterpreted parameters of `NumberConversions`, so that round trip is not proved.

## Model

| member | source | states |
|---|---|---|
| Sprites.FirstIndexOf | GDCpp/GDCpp/Sprite.cpp:59-63 | the index found is that of a point with the name and no earlier point has it; none is found exactly when no point has the name |
| Sprites.Without | GDCpp/GDCpp/Sprite.cpp:31-38 | the intended removal: the result holds exactly the points of the list not named `name` |
| Sprites.WithoutAbsent | GDCpp/GDCpp/Sprite.cpp:31-38 | removing a name that no point carries leaves the list unchanged |
| Sprites.WithoutKeepsInvariant | GDCpp/GDCpp/Sprite.cpp:31-38 | removing by name keeps the stored names distinct and unreserved |
| Sprites.WithoutDistinct | GDCpp/GDCpp/Sprite.cpp:31-38 | with distinct names, removal takes out the one point with the name (the rest keep their order), or leaves the list unchanged when no point has it |
| Sprites.DelPointResult | GDCpp/GDCpp/Sprite.cpp:33-37 | what the erase loop as written leaves of the list; it is never longer than the list |
| Sprites.DelPointResultMembers | GDCpp/GDCpp/Sprite.cpp:33-37 | whatever the names, the erase loop keeps every point not named `name` and adds no point |
| Sprites.DelPointResultDistinct | GDCpp/GDCpp/Sprite.cpp:33-37 | with distinct names, the erase loop as written leaves exactly the points not named `name` |
| Sprites.DelPointSkipsFollowingDuplicate | GDCpp/GDCpp/Sprite.cpp:33-37 | the erase loop skips the entry after an erased one: of two adjacent points with one name the second survives, although a removal by name would leave nothing |
| Sprites.DelPointStep | GDCpp/GDCpp/Sprite.cpp:35-36 | one turn of the erase loop (erase at i when the name matches, then move on) keeps what the loop will leave unchanged |
| Sprites.DelPointValid | GDCpp/GDCpp/Sprite.cpp:31-38 | on a list satisfying the invariant, DelPoint removes exactly the named points, keeps the invariant, and changes nothing for a reserved name |
| Sprites.Sprite.constructor | GDCpp/GDCpp/Sprite.cpp:10-16 | a new sprite has no stored points, no image of its own, an automatic collision mask and centre, and the points "origine" and "centre" |
| Sprites.Sprite.Lookup | GDCpp/GDCpp/Sprite.cpp:54-66 | "Origin" and "Centre" are answered first; a name that is not reserved but is stored designates a stored point, the first with that name; the bad point exactly when the name is not a point name |
| Sprites.Sprite.HasPoint | GDCpp/GDCpp/Sprite.cpp:40-52 | true exactly when the name is reserved or some stored point has it |
| Sprites.Sprite.GetPoint | GDCpp/GDCpp/Sprite.cpp:54-66 | the const overload returns the point Lookup designates (origine, centre, the first match, or the bad point) |
| Sprites.Sprite.GetPointRef | GDCpp/GDCpp/Sprite.cpp:68-80 | the non-const overload returns a reference to the same point Lookup designates, so the two overloads agree |
| Sprites.Sprite.AddPoint | GDCpp/GDCpp/Sprite.cpp:25-29 | appends the point exactly when its name was not already a point name, and otherwise changes nothing; keeps the invariant; afterwards the name is known and, for an unreserved name, looks up a point with that name (the new point itself when it was appended) |
| Sprites.Sprite.DelPoint | GDCpp/GDCpp/Sprite.cpp:31-38 | the list becomes what the erase loop as written leaves; under the invariant that is the list without the named point, the invariant is kept, and a reserved name changes nothing |
| Sprites.Sprite.SetCentreAutomatic | GDCpp/GDCpp/Sprite.cpp:92-100 | returns true and sets the flag; when enabled, the centre moves to half the bounds' width and height; when disabled, the centre is unchanged |
| Sprites.Sprite.GetCollisionMask | GDCpp/GDCpp/Sprite.cpp:112-129 | an automatic mask is the single rectangle (0,0),(w,0),(w,h),(0,h) of the sprite's bounds; otherwise the custom mask |
| JoystickTools.AxisName | GDCpp/GDCpp/BuiltinExtensions/JoystickTools.cpp:19-27 | every axis has a recognised name that is not the deprecated one |
| JoystickTools.AxisFromName | GDCpp/GDCpp/BuiltinExtensions/JoystickTools.cpp:19-28 | a name is decoded exactly when it is one of the nine table names; a decoded name is the axis's own name or the deprecated "AxisPOV" for PovX |
| JoystickTools.AxisNameRoundTrip | GDCpp/GDCpp/BuiltinExtensions/JoystickTools.cpp:19-27 | each axis is decoded from its own name |
| JoystickTools.NineAxisNames | GDCpp/GDCpp/BuiltinExtensions/JoystickTools.cpp:19-27 | the table recognises exactly nine names |
| JoystickTools.OnlyAliasShares | GDCpp/GDCpp/BuiltinExtensions/JoystickTools.cpp:25-26 | two different recognised names decode to one axis only when they are "AxisPOV" and "AxisPovX" |
| JoystickTools.ExactMatchOnly | GDCpp/GDCpp/BuiltinExtensions/JoystickTools.cpp:19-27 | an illustration of exact matching on chosen inputs: changed case, surrounding spaces or a near spelling are not recognised |
| JoystickTools.GetJoystickAxisValue | GDCpp/GDCpp/BuiltinExtensions/JoystickTools.cpp:16-31 | an unknown name gives 0; a known name gives the device reading for that joystick and the decoded axis |
| JoystickTools.UnknownAxisIgnoresDevice | GDCpp/GDCpp/BuiltinExtensions/JoystickTools.cpp:28 | for an unknown name the result is the same whatever the device reports |
| JoystickTools.JoystickAxisValueToVariable | GDCpp/GDCpp/BuiltinExtensions/JoystickTools.cpp:33-52 | an unknown name leaves the variables unchanged; a known name sets only the named variable (creating it if absent) to GetJoystickAxisValue's result; every other variable is unchanged |
| InstancePropertiesEditor.OrZero | newIDE/app/src/InstancesEditor/InstancePropertiesEditor/index.js:118 | the falsy-to-zero coercion of a parsed number is never NaN, turns NaN and 0 into 0, and keeps every truthy number |
| InstancePropertiesEditor.StrictEquals | newIDE/app/src/InstancesEditor/InstancePropertiesEditor/index.js:86 | JavaScript's `===` on grid values: strictly equal values are equal, equal values other than NaN are strictly equal, and NaN is strictly equal to nothing |
| InstancePropertiesEditor.GetValue | newIDE/app/src/InstancesEditor/InstancePropertiesEditor/index.js:16-76 | a built-in getter yields a value of its field's type; a custom boolean property reads as a boolean (lines 182-195); a custom property whose type is neither boolean nor number reads as a string; every custom property reads as the coercion DecodeCustom of the string stored under its name |
| InstancePropertiesEditor.SetValue | newIDE/app/src/InstancesEditor/InstancePropertiesEditor/index.js:17-77 | writing through one field (built-in, or custom at lines 196-206) changes no value read through a field with other storage, and leaves the declared custom types alone |
| InstancePropertiesEditor.DecodeCustom | newIDE/app/src/InstancesEditor/InstancePropertiesEditor/index.js:182-195 | a boolean custom property reads true exactly when its string is 'true'; a number property is parsed; any other type is the string itself |
| InstancePropertiesEditor.EncodeCustom | newIDE/app/src/InstancesEditor/InstancePropertiesEditor/index.js:196-203 | booleans are stored as '1' or '0'; strings are stored as they are; numbers are stored as their string conversion |
| InstancePropertiesEditor.SetThenGet | newIDE/app/src/InstancesEditor/InstancePropertiesEditor/index.js:182-206 | reading a field right after writing it gives a value that depends only on the field and the value written, not on the instance |
| InstancePropertiesEditor.RoundTripWhereItHolds | newIDE/app/src/InstancesEditor/InstancePropertiesEditor/index.js:11-80 | under the host model described under "## Left out" (each built-in setter writes a plain record field; custom strings are stored as given), built-in fields and custom properties of a string type read back what was written |
| InstancePropertiesEditor.CustomBooleanReadsBackFalse | newIDE/app/src/InstancesEditor/InstancePropertiesEditor/index.js:188-200 | a boolean custom property written through the grid reads back false, so a written true does not round-trip |
| InstancePropertiesEditor.CustomSetTouchesOneProperty | newIDE/app/src/InstancesEditor/InstancePropertiesEditor/index.js:196-206 | a custom setValue stores the encoded string under that property name and changes nothing else of the instance |
| InstancePropertiesEditor.FieldValue | newIDE/app/src/InstancesEditor/InstancePropertiesEditor/index.js:83-93 | a single instance shows its own value; the shown value differs from the first instance's only when a default is given, and then it is the default and some instance differs from the first under `===` |
| InstancePropertiesEditor.FieldValueOfUniformSelection | newIDE/app/src/InstancesEditor/InstancePropertiesEditor/index.js:83-93 | if every instance yields the same value (not NaN), that value is shown, whatever the default |
| InstancePropertiesEditor.FieldValueOfMixedSelection | newIDE/app/src/InstancesEditor/InstancePropertiesEditor/index.js:83-93 | if some instance differs from the first under `===` (so also when the values are NaN), the default is shown when one is given, and otherwise the first instance's value |
| InstancePropertiesEditor.GetFieldValue | newIDE/app/src/InstancesEditor/InstancePropertiesEditor/index.js:83-93 | the compare-and-break loop returns FieldValue: the common value under `===`, else the default if given, else the first value |
| InstancePropertiesEditor.BuiltinSchema | newIDE/app/src/InstancesEditor/InstancePropertiesEditor/index.js:11-80 | eight entries: seven fields with getters, then the group "Custom size" without a getter, holding three fields with getters |
| InstancePropertiesEditor.RenderEditField | newIDE/app/src/InstancesEditor/InstancePropertiesEditor/index.js:95-147 | value type 'boolean' gives a checkbox and 'number' a number field, both with no default; any other type gives a text field whose default is '(Multiple values)'; the widget has the field's name and disabled flag |
| InstancePropertiesEditor.RenderEntry | newIDE/app/src/InstancesEditor/InstancePropertiesEditor/index.js:150-164 | an entry with a getter becomes an edit widget; otherwise an entry with children becomes a section titled with its name whose items are the rendering of its children; otherwise nothing |
| InstancePropertiesEditor.RenderFields | newIDE/app/src/InstancesEditor/InstancePropertiesEditor/index.js:149-165 | one result per schema entry, in order, each the rendering of that entry |
| InstancePropertiesEditor.RenderFieldsWidgetCount | newIDE/app/src/InstancesEditor/InstancePropertiesEditor/index.js:149-165 | rendering makes exactly one edit widget per entry with a getter, at any depth of grouping |
| InstancePropertiesEditor.RenderEntryWidgetCount | newIDE/app/src/InstancesEditor/InstancePropertiesEditor/index.js:151-163 | the same count for a single entry and its children |
| InstancePropertiesEditor.SortedKeys | newIDE/app/src/InstancesEditor/InstancePropertiesEditor/index.js:173 | the property names are listed once each, in increasing key order |
| InstancePropertiesEditor.ToLower | newIDE/app/src/InstancesEditor/InstancePropertiesEditor/index.js:177 | lower-casing keeps the length, maps every ASCII capital to its small letter, keeps every other character, and leaves no ASCII capital |
| InstancePropertiesEditor.ToLowerExamples | newIDE/app/src/InstancesEditor/InstancePropertiesEditor/index.js:177 | an illustration on chosen inputs: a declared type 'Boolean' becomes the value type 'boolean' |
| InstancePropertiesEditor.CustomEntry | newIDE/app/src/InstancesEditor/InstancePropertiesEditor/index.js:175-207 | the field of one custom property has the property's name and lower-cased type, is enabled, has no children, and reads and writes through the custom accessor of that name and type |
| InstancePropertiesEditor.CustomFieldsOf | newIDE/app/src/InstancesEditor/InstancePropertiesEditor/index.js:174-208 | one custom field per property name, in the given order |
| InstancePropertiesEditor.CustomFields | newIDE/app/src/InstancesEditor/InstancePropertiesEditor/index.js:172-208 | one field per declared custom property of the instance, in key order, each with the lower-cased type and the custom accessor |
| InstancePropertiesEditor.Render | newIDE/app/src/InstancesEditor/InstancePropertiesEditor/index.js:167-218 | no instances gives nothing; otherwise the rendering of the built-in schema followed by the first instance's custom fields |
| InstancePropertiesEditor.BuiltinHandlersTyped | newIDE/app/src/InstancesEditor/InstancePropertiesEditor/index.js:11-80 | every built-in field's widget handler writes a value its setter takes |
| InstancePropertiesEditor.CustomHandlersTyped | newIDE/app/src/InstancesEditor/InstancePropertiesEditor/index.js:196-206 | custom fields take any value their handler writes |
| InstancePropertiesEditor.SetAll | newIDE/app/src/InstancesEditor/InstancePropertiesEditor/index.js:103 | every instance of the selection, and only it, gets the setter applied with the one value |
| InstancePropertiesEditor.FieldValueAfterEdit | newIDE/app/src/InstancesEditor/InstancePropertiesEditor/index.js:102-105 | after a batch edit every instance yields the same read-back value, and the field then shows it unless it is NaN |
| InstancePropertiesEditor.CheckedCustomBooleanShowsUnchecked | newIDE/app/src/InstancesEditor/InstancePropertiesEditor/index.js:188-200 | checking a custom boolean property makes its checkbox show unchecked |
| InstancePropertiesEditor.PropertiesEditor.WriteAll | newIDE/app/src/InstancesEditor/InstancePropertiesEditor/index.js:103 | the forEach writes the value through the setter on every selected instance in place |
| InstancePropertiesEditor.PropertiesEditor.OnCheck | newIDE/app/src/InstancesEditor/InstancePropertiesEditor/index.js:102-105 | the boolean edit gives every instance the new value and then notifies the host exactly once, with the updated instances |
| InstancePropertiesEditor.PropertiesEditor.OnNumberChange | newIDE/app/src/InstancesEditor/InstancePropertiesEditor/index.js:116-119 | the number edit writes the parsed number, with NaN and 0 made 0, to every instance and then notifies the host exactly once |
| InstancePropertiesEditor.PropertiesEditor.OnTextChange | newIDE/app/src/InstancesEditor/InstancePropertiesEditor/index.js:137-140 | the string edit gives every instance the new string and then notifies the host exactly once |

## Left out

- Textures: `LoadImage` and `MakeSpriteOwnsItsImage` (GDCpp/GDCpp/Sprite.cpp:82-90, 102-110) deal with the graphics library's textures and shared ownership. The sprite's local bounds are a field that nothing in the model changes.
- Floating point: point coordinates, bounds, axis readings, variables and JavaScript numbers are reals. Halving in `SetCentreAutomatic` is exact. Infinities and -0 are not modelled.
- `Point` and `Polygon2d` come from headers that are not part of this model. The point constructor that takes a name is taken to place the point at (0, 0).
- `Valid()` is preserved by the operations modelled here. Code outside Sprite.cpp that changes the point list directly is not part of this model.
- The static bad point is shared by all sprites, and the non-const `GetPoint` returns a mutable reference to it. The model says which point a reference designates (`PointSlot`). Writes made through such a reference are not modelled.
- `JoystickButtonDown` and the device calls (GDCpp/GDCpp/BuiltinExtensions/JoystickTools.cpp:11-14, 30, 49) are device input. The axis reading is the parameter `position`; the button wrapper is not modelled.
- A scene variable is modelled by the number it holds. Other contents of a variable (strings, children) are not modelled.
- React rendering: JSX, widget styles, `Subheader`, the left margin and the element keys (index.js:153-160, 210-216) are not modelled.
- `parseFloat` and the number-to-string conversion `'' + n` are the uninterpreted parameters of `NumberConversions`.
- The host's instance accessors and `updateCustomProperty` are foreign calls. An instance is a record with one field per accessor, plus two maps for its custom properties: declared types and stored strings. A property missing from another selected instance reads as the empty string. `updateCustomProperty` stores the string under the name.
- The selection is an array of separate instance records. Selecting the same instance twice (aliasing) is not modelled.
- A null `instances` prop is treated like an empty array.
- `toLowerCase` is modelled on the ASCII letters only.
- The edit handlers take the types their widgets deliver: a boolean from the checkbox and a string from the text fields. On those types `!!newValue` and `newValue || ''` return `newValue` unchanged.

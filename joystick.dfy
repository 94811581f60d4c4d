/**
 * Joystick axis reading (GDCpp/GDCpp/BuiltinExtensions/JoystickTools.cpp).
 *
 * Both entry points decode an axis name with the same table and then ask
 * the device for the position of that axis.  The device is a parameter
 * `position`: the reading the graphics library reports for a joystick
 * number and an axis.
 */
module JoystickTools {
  import opened Wrappers

  /** The axes of a joystick, as the graphics library numbers them. */
  datatype Axis = X | Y | Z | R | U | V | PovX | PovY

  /** Every axis name the table recognises; "AxisPOV" is the deprecated spelling of "AxisPovX". */
  const AxisNames: set<string> :=
    {"AxisX", "AxisY", "AxisZ", "AxisR", "AxisU", "AxisV", "AxisPOV", "AxisPovX", "AxisPovY"}

  /** The current name of each axis. */
  function AxisName(axis: Axis): (name: string)
    ensures name in AxisNames && name != "AxisPOV"
  {
    match axis
    case X => "AxisX"
    case Y => "AxisY"
    case Z => "AxisZ"
    case R => "AxisR"
    case U => "AxisU"
    case V => "AxisV"
    case PovX => "AxisPovX"
    case PovY => "AxisPovY"
  }

  /** The name-to-axis table both entry points share; names are compared exactly. */
  function AxisFromName(axisStr: string): (r: Option<Axis>)
    ensures r.Some? <==> axisStr in AxisNames
    ensures r.Some? ==> axisStr == AxisName(r.value) || (axisStr == "AxisPOV" && r.value == PovX)
  {
    if axisStr == "AxisX" then Some(X)
    else if axisStr == "AxisY" then Some(Y)
    else if axisStr == "AxisZ" then Some(Z)
    else if axisStr == "AxisR" then Some(R)
    else if axisStr == "AxisU" then Some(U)
    else if axisStr == "AxisV" then Some(V)
    else if axisStr == "AxisPOV" then Some(PovX)
    else if axisStr == "AxisPovX" then Some(PovX)
    else if axisStr == "AxisPovY" then Some(PovY)
    else None
  }

  /** Each axis is decoded from its own name. */
  lemma AxisNameRoundTrip(axis: Axis)
    ensures AxisFromName(AxisName(axis)) == Some(axis)
  {
  }

  /** Exactly nine names are recognised. */
  lemma NineAxisNames()
    ensures |AxisNames| == 9
  {
  }

  /** Two recognised names decode to the same axis only when they are equal or are the two PovX spellings. */
  lemma OnlyAliasShares(s: string, t: string)
    requires AxisFromName(s).Some? && AxisFromName(s) == AxisFromName(t) && s != t
    ensures {s, t} == {"AxisPOV", "AxisPovX"}
  {
  }

  /** An illustration of exact matching (AxisFromName's first ensures states it in general): no case folding, no trimming. */
  lemma ExactMatchOnly()
    ensures AxisFromName("axisx") == None && AxisFromName("AXISX") == None
    ensures AxisFromName(" AxisX") == None && AxisFromName("AxisX ") == None
    ensures AxisFromName("AxisPov") == None && AxisFromName("AxisPOVX") == None
  {
  }

  /** GetJoystickAxisValue: the position of the named axis, or 0 for an unknown name. */
  function GetJoystickAxisValue(joystick: nat, axisStr: string, position: (nat, Axis) -> real): (v: real)
    ensures axisStr !in AxisNames ==> v == 0.0
    ensures axisStr in AxisNames ==> v == position(joystick, AxisFromName(axisStr).value)
  {
    match AxisFromName(axisStr)
    case None => 0.0
    case Some(axis) => position(joystick, axis)
  }

  /** An unknown axis name is answered without consulting the device. */
  lemma UnknownAxisIgnoresDevice(joystick: nat, axisStr: string, p: (nat, Axis) -> real, q: (nat, Axis) -> real)
    requires axisStr !in AxisNames
    ensures GetJoystickAxisValue(joystick, axisStr, p) == GetJoystickAxisValue(joystick, axisStr, q) == 0.0
  {
  }

  /** The scene's variable container; each variable is modelled by the number it holds. */
  class RuntimeScene {
    var variables: map<string, real>

    constructor (variables: map<string, real>)
      ensures this.variables == variables
    {
      this.variables := variables;
    }
  }

  /**
   * JoystickAxisValueToVariable: stores the position of the named axis in
   * the named scene variable, creating it if absent; an unknown axis name
   * leaves the variables alone.
   */
  method JoystickAxisValueToVariable(scene: RuntimeScene, joystick: nat, axisStr: string, variable: string,
                                     position: (nat, Axis) -> real)
    modifies scene
    ensures axisStr !in AxisNames ==> scene.variables == old(scene.variables)
    ensures axisStr in AxisNames ==>
      scene.variables == old(scene.variables)[variable := GetJoystickAxisValue(joystick, axisStr, position)]
    ensures forall name :: name != variable ==>
      (name in scene.variables <==> name in old(scene.variables)) &&
      (name in scene.variables ==> scene.variables[name] == old(scene.variables)[name])
  {
    var axis: Axis;
    if axisStr == "AxisX" { axis := X; }
    else if axisStr == "AxisY" { axis := Y; }
    else if axisStr == "AxisZ" { axis := Z; }
    else if axisStr == "AxisR" { axis := R; }
    else if axisStr == "AxisU" { axis := U; }
    else if axisStr == "AxisV" { axis := V; }
    else if axisStr == "AxisPOV" { axis := PovX; }
    else if axisStr == "AxisPovX" { axis := PovX; }
    else if axisStr == "AxisPovY" { axis := PovY; }
    else { return; }

    scene.variables := scene.variables[variable := position(joystick, axis)];
  }
}

/**
 * The named-point table and the collision mask of a sprite
 * (GDCpp/GDCpp/Sprite.cpp).
 *
 * A sprite keeps two reserved points, reached by the names "Origin" and
 * "Centre", outside its list of other points.  The list is a vector that
 * AddPoint appends to and DelPoint erases from in place; the lookups are
 * index loops that stop at the first point with the wanted name.
 */
module Sprites {
  import opened Wrappers

  /** A named point; its coordinates are floats in the source. */
  datatype Point = Point(name: string, x: real, y: real)

  datatype Vector2 = Vector2(x: real, y: real)

  datatype Polygon = Polygon(vertices: seq<Vector2>)

  /** The local bounds of the sprite's texture, as the graphics library reports them. */
  datatype Bounds = Bounds(width: real, height: real)

  /** Which point a reference returned by a lookup designates. */
  datatype PointSlot = OriginSlot | CentreSlot | StoredSlot(index: nat) | BadPointSlot

  /** The names answered before the list is searched. */
  predicate IsReserved(name: string) {
    name == "Origin" || name == "Centre"
  }

  /** The one point, shared by all sprites, that a failed lookup returns. */
  const BadPoint := Point("", 0.0, 0.0)

  /** No two points of `s` have the same name. */
  predicate NamesDistinct(s: seq<Point>) {
    forall i, j :: 0 <= i < j < |s| ==> s[i].name != s[j].name
  }

  /** No point of `s` carries a reserved name. */
  predicate NoReservedNames(s: seq<Point>) {
    forall i :: 0 <= i < |s| ==> !IsReserved(s[i].name)
  }

  /** The index of the first point of `s` named `name`, as the lookup loops find it. */
  function FirstIndexOf(s: seq<Point>, name: string): (r: Option<nat>)
    ensures r.Some? ==> r.value < |s| && s[r.value].name == name
    ensures r.Some? ==> forall j :: 0 <= j < r.value ==> s[j].name != name
    ensures r.None? <==> forall j :: 0 <= j < |s| ==> s[j].name != name
  {
    if s == [] then None
    else if s[0].name == name then Some(0)
    else match FirstIndexOf(s[1..], name)
      case None => None
      case Some(k) => Some(k + 1)
  }

  /** The points of `s` not named `name`, in their order in `s`. */
  function Without(s: seq<Point>, name: string): (r: seq<Point>)
    ensures |r| <= |s|
    ensures forall p :: p in r <==> p in s && p.name != name
  {
    if s == [] then []
    else if s[0].name == name then Without(s[1..], name)
    else [s[0]] + Without(s[1..], name)
  }

  /**
   * What the erase loop of DelPoint leaves of `s`: after erasing a point it
   * still steps its index forward, so the point that moved into the erased
   * position is kept without being examined.
   */
  function DelPointResult(s: seq<Point>, name: string): (r: seq<Point>)
    ensures |r| <= |s|
  {
    if s == [] then []
    else if s[0].name != name then [s[0]] + DelPointResult(s[1..], name)
    else if |s| == 1 then []
    else [s[1]] + DelPointResult(s[2..], name)
  }

  /**
   * Whatever the names, the erase loop only removes points: it keeps every
   * point not named `name`, and keeps nothing that was not there.
   */
  lemma {:induction false} DelPointResultMembers(s: seq<Point>, name: string)
    ensures forall p :: p in DelPointResult(s, name) ==> p in s
    ensures forall p :: p in s && p.name != name ==> p in DelPointResult(s, name)
  {
    if s == [] {
    } else if s[0].name != name {
      DelPointResultMembers(s[1..], name);
      assert s == [s[0]] + s[1..];
    } else if |s| > 1 {
      DelPointResultMembers(s[2..], name);
      assert s == [s[0], s[1]] + s[2..];
    }
  }

  /** Every suffix of a list with distinct names has distinct names. */
  lemma DistinctSuffix(s: seq<Point>, k: nat)
    requires NamesDistinct(s) && k <= |s|
    ensures NamesDistinct(s[k..])
  {
    forall a, b | 0 <= a < b < |s[k..]| ensures s[k..][a].name != s[k..][b].name {
      assert s[k..][a] == s[k + a] && s[k..][b] == s[k + b];
    }
  }

  /** Removing the points of one name keeps the names of the others distinct and unreserved. */
  lemma {:induction false} WithoutKeepsInvariant(s: seq<Point>, name: string)
    requires NamesDistinct(s) && NoReservedNames(s)
    ensures NamesDistinct(Without(s, name)) && NoReservedNames(Without(s, name))
  {
    if s != [] {
      DistinctSuffix(s, 1);
      WithoutKeepsInvariant(s[1..], name);
      var rest := Without(s[1..], name);
      if s[0].name != name {
        forall j | 0 <= j < |rest| ensures rest[j].name != s[0].name {
          assert rest[j] in s[1..];
        }
        assert Without(s, name) == [s[0]] + rest;
      }
    }
  }

  /** Removing a name no point carries changes nothing. */
  lemma {:induction false} WithoutAbsent(s: seq<Point>, name: string)
    requires forall j :: 0 <= j < |s| ==> s[j].name != name
    ensures Without(s, name) == s
  {
    if s != [] {
      assert s[0].name != name;
      forall j | 0 <= j < |s[1..]| ensures s[1..][j].name != name {
        assert s[1..][j] == s[1 + j];
      }
      WithoutAbsent(s[1..], name);
      assert s == [s[0]] + s[1..];
    }
  }

  /**
   * With distinct names, removing by name takes out the one point with
   * that name, if any, and keeps the others in their order.
   */
  lemma {:induction false} WithoutDistinct(s: seq<Point>, name: string)
    requires NamesDistinct(s)
    ensures FirstIndexOf(s, name).None? ==> Without(s, name) == s
    ensures FirstIndexOf(s, name).Some? ==>
      var k := FirstIndexOf(s, name).value;
      Without(s, name) == s[..k] + s[k + 1..]
  {
    if FirstIndexOf(s, name).None? {
      WithoutAbsent(s, name);
    } else if s[0].name == name {
      forall j | 0 <= j < |s[1..]| ensures s[1..][j].name != name {
        assert s[1..][j] == s[1 + j];
      }
      WithoutAbsent(s[1..], name);
    } else {
      DistinctSuffix(s, 1);
      WithoutDistinct(s[1..], name);
      WithoutShift(s, name, FirstIndexOf(s[1..], name).value);
    }
  }

  /** Removing a point past a kept first point: the removal from the tail, with the head in front. */
  lemma WithoutShift(s: seq<Point>, name: string, k: nat)
    requires 0 < |s| && s[0].name != name && k + 1 < |s|
    requires Without(s[1..], name) == s[1..][..k] + s[1..][k + 1..]
    ensures Without(s, name) == s[..k + 1] + s[k + 2..]
  {
    assert s[..k + 1] == [s[0]] + s[1..][..k];
    assert s[k + 2..] == s[1..][k + 1..];
  }

  /** With distinct names the erase loop leaves exactly the points not named `name`. */
  lemma {:induction false} DelPointResultDistinct(s: seq<Point>, name: string)
    requires NamesDistinct(s)
    ensures DelPointResult(s, name) == Without(s, name)
  {
    if s == [] {
    } else if s[0].name != name {
      DistinctSuffix(s, 1);
      DelPointResultDistinct(s[1..], name);
    } else if |s| > 1 {
      DistinctSuffix(s, 2);
      DelPointResultDistinct(s[2..], name);
      assert s[1..][1..] == s[2..];
      assert s[1].name != name;
    }
  }

  /**
   * The erase loop skips the entry that follows an erased one: of two
   * consecutive points with the same name, the second survives.
   */
  lemma DelPointSkipsFollowingDuplicate(p: Point, q: Point)
    requires p.name == q.name
    ensures DelPointResult([p, q], p.name) == [q]
    ensures Without([p, q], p.name) == []
  {
    assert [p, q][1..] == [q];
    assert [p, q][2..] == [];
  }

  /** One turn of the erase loop at index `i`, stated over the part still to be examined. */
  lemma DelPointStep(s: seq<Point>, i: nat, name: string)
    requires i < |s|
    ensures var t := if s[i].name == name then s[..i] + s[i + 1..] else s;
      && (i + 1 <= |t| ==> t[..i + 1] + DelPointResult(t[i + 1..], name) == s[..i] + DelPointResult(s[i..], name))
      && (i + 1 > |t| ==> t == s[..i] + DelPointResult(s[i..], name))
  {
    if s[i].name == name {
      var t := s[..i] + s[i + 1..];
      if i + 1 < |s| {
        assert s[i..][1..][1..] == s[i + 2..];
        assert t[..i + 1] == s[..i] + [s[i + 1]];
        assert t[i + 1..] == s[i + 2..];
      } else {
        assert t == s[..i];
      }
    } else {
      assert s[i..][1..] == s[i + 1..];
      assert s[..i + 1] == s[..i] + [s[i]];
    }
  }

  /** On a list with distinct, unreserved names, DelPoint removes exactly the points named `name`. */
  lemma DelPointValid(s: seq<Point>, name: string)
    requires NamesDistinct(s) && NoReservedNames(s)
    ensures DelPointResult(s, name) == Without(s, name)
    ensures NamesDistinct(Without(s, name)) && NoReservedNames(Without(s, name))
    ensures IsReserved(name) ==> Without(s, name) == s
  {
    DelPointResultDistinct(s, name);
    WithoutKeepsInvariant(s, name);
    WithoutDistinct(s, name);
  }

  /** The mask made when the collision mask is automatic: the texture's bounding rectangle. */
  function BoundingRectangle(b: Bounds): Polygon {
    Polygon([Vector2(0.0, 0.0), Vector2(b.width, 0.0), Vector2(b.width, b.height), Vector2(0.0, b.height)])
  }

  class Sprite {
    /** The points other than the reserved ones. */
    var points: seq<Point>
    /** The point answered for "Origin". */
    var origine: Point
    /** The point answered for "Centre". */
    var centre: Point
    var automaticCentre: bool
    var automaticCollisionMask: bool
    var hasItsOwnImage: bool
    var customCollisionMask: seq<Polygon>
    /** The texture's local bounds; loading textures is not part of this model. */
    var localBounds: Bounds

    /** The invariant the constructor establishes and AddPoint and DelPoint keep. */
    ghost predicate Valid()
      reads this
    {
      NamesDistinct(points) && NoReservedNames(points)
    }

    /** A sprite with no points, an automatic centre and collision mask, and no image of its own. */
    constructor ()
      ensures Valid() && points == []
      ensures !hasItsOwnImage && automaticCollisionMask && automaticCentre
      ensures origine == Point("origine", 0.0, 0.0) && centre == Point("centre", 0.0, 0.0)
      ensures customCollisionMask == [] && localBounds == Bounds(0.0, 0.0)
    {
      points := [];
      origine := Point("origine", 0.0, 0.0);
      centre := Point("centre", 0.0, 0.0);
      automaticCentre := true;
      automaticCollisionMask := true;
      hasItsOwnImage := false;
      customCollisionMask := [];
      localBounds := Bounds(0.0, 0.0);
    }

    /** `name` is reserved or names a stored point. */
    ghost predicate IsPointName(name: string)
      reads this
    {
      IsReserved(name) || exists i :: 0 <= i < |points| && points[i].name == name
    }

    /** The point a lookup of `name` designates: reserved names first, then the first stored match. */
    function Lookup(name: string): (slot: PointSlot)
      reads this
      ensures name == "Origin" ==> slot == OriginSlot
      ensures name == "Centre" ==> slot == CentreSlot
      ensures slot.StoredSlot? ==> !IsReserved(name) && slot.index < |points|
      ensures slot.StoredSlot? ==> points[slot.index].name == name
      ensures slot.StoredSlot? ==> forall j :: 0 <= j < slot.index ==> points[j].name != name
      ensures slot == BadPointSlot <==> !IsPointName(name)
      ensures !IsReserved(name) && IsPointName(name) ==> slot.StoredSlot?
    {
      if name == "Origin" then OriginSlot
      else if name == "Centre" then CentreSlot
      else match FirstIndexOf(points, name)
        case Some(k) => StoredSlot(k)
        case None => BadPointSlot
    }

    /** The point a slot designates. */
    function PointAt(slot: PointSlot): Point
      reads this
      requires slot.StoredSlot? ==> slot.index < |points|
    {
      match slot
      case OriginSlot => origine
      case CentreSlot => centre
      case StoredSlot(k) => points[k]
      case BadPointSlot => BadPoint
    }

    method HasPoint(name: string) returns (b: bool)
      ensures b <==> IsPointName(name)
    {
      if name == "Origin" { return true; }
      if name == "Centre" { return true; }
      var i := 0;
      while i < |points|
        invariant 0 <= i <= |points|
        invariant forall j :: 0 <= j < i ==> points[j].name != name
      {
        if name == points[i].name { return true; }
        i := i + 1;
      }
      return false;
    }

    /** The const overload: the value of the designated point. */
    method GetPoint(name: string) returns (p: Point)
      ensures p == PointAt(Lookup(name))
    {
      if name == "Origin" { return origine; }
      if name == "Centre" { return centre; }
      var i := 0;
      while i < |points|
        invariant 0 <= i <= |points|
        invariant forall j :: 0 <= j < i ==> points[j].name != name
      {
        if name == points[i].name { return points[i]; }
        i := i + 1;
      }
      return BadPoint;
    }

    /** The non-const overload: which point the returned reference designates. */
    method GetPointRef(name: string) returns (slot: PointSlot)
      ensures slot == Lookup(name)
      ensures slot.StoredSlot? ==> slot.index < |points|
    {
      if name == "Origin" { return OriginSlot; }
      if name == "Centre" { return CentreSlot; }
      var i := 0;
      while i < |points|
        invariant 0 <= i <= |points|
        invariant forall j :: 0 <= j < i ==> points[j].name != name
      {
        if name == points[i].name { return StoredSlot(i); }
        i := i + 1;
      }
      return BadPointSlot;
    }

    method AddPoint(point: Point)
      modifies this`points
      ensures points == if old(IsPointName(point.name)) then old(points) else old(points) + [point]
      ensures old(Valid()) ==> Valid()
      ensures IsPointName(point.name)
      ensures !IsReserved(point.name) ==> PointAt(Lookup(point.name)).name == point.name
      ensures !old(IsPointName(point.name)) ==> PointAt(Lookup(point.name)) == point
    {
      var known := HasPoint(point.name);
      if !known {
        points := points + [point];
        assert points[|points| - 1] == point;
      }
    }

    method DelPoint(name: string)
      modifies this`points
      ensures points == DelPointResult(old(points), name)
      ensures old(Valid()) ==> Valid() && points == Without(old(points), name)
      ensures old(Valid()) && IsReserved(name) ==> points == old(points)
    {
      var i := 0;
      while i < |points|
        invariant i <= |points| ==> points[..i] + DelPointResult(points[i..], name) == DelPointResult(old(points), name)
        invariant i > |points| ==> points == DelPointResult(old(points), name)
      {
        DelPointStep(points, i, name);
        if name == points[i].name {
          points := points[..i] + points[i + 1..];
        }
        i := i + 1;
      }
      if i == |points| {
        assert points[i..] == [] && points[..i] == points;
      }
      if old(Valid()) {
        DelPointValid(old(points), name);
      }
    }

    /** Switches the automatic centre; when on, the centre moves to the middle of the bounds. */
    method SetCentreAutomatic(enabled: bool) returns (ok: bool)
      modifies this`automaticCentre, this`centre
      ensures ok && automaticCentre == enabled
      ensures centre.name == old(centre).name
      ensures enabled ==> centre.x * 2.0 == localBounds.width && centre.y * 2.0 == localBounds.height
      ensures !enabled ==> centre == old(centre)
    {
      automaticCentre := enabled;
      if automaticCentre {
        centre := centre.(x := localBounds.width / 2.0, y := localBounds.height / 2.0);
      }
      return true;
    }

    function GetCollisionMask(): (mask: seq<Polygon>)
      reads this
      ensures automaticCollisionMask ==> mask == [BoundingRectangle(localBounds)]
      ensures !automaticCollisionMask ==> mask == customCollisionMask
    {
      if automaticCollisionMask then [BoundingRectangle(localBounds)] else customCollisionMask
    }
  }
}

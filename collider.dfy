/**
 * ColliderComponent of engine/component/builtin/colliderComponent.py: a
 * collision shape with a layer and a mask of layers, and the set of
 * colliders it is touching, kept up to date by check_collision_with with
 * enter, stay and exit callbacks.
 *
 * The geometric test (bounding boxes, circle distances) depends on the
 * actors' transforms and on floating point; it is a parameter of the
 * operations that need it. The callbacks are modelled by whether they are
 * set, and their calls are recorded in order.
 */
module Colliders {
  import opened Wrappers

  datatype ColliderType = Rectangle | Circle | Point
  {
    /** The enum's value, which serialize stores. */
    function Value(): string
    {
      match this
      case Rectangle => "rectangle"
      case Circle => "circle"
      case Point => "point"
    }
  }

  /** ColliderType(value): the member with that value, or the ValueError of the enum lookup. */
  function TypeOf(value: string): (r: Result<ColliderType>)
    ensures r.Ok? ==> r.value.Value() == value
    ensures r.Err? ==> r.error.ValueError?
  {
    if value == "rectangle" then Ok(Rectangle)
    else if value == "circle" then Ok(Circle)
    else if value == "point" then Ok(Point)
    else Err(ValueError("'" + value + "' is not a valid ColliderType"))
  }

  /** serialize then deserialize gives back the type. */
  lemma TypeRoundTrip(t: ColliderType)
    ensures TypeOf(t.Value()) == Ok(t)
  {
  }

  /** The methods the base class, Component of engine/component/component.py, defines. */
  const BaseMethods: set<string> := {"__init__", "setActor", "update", "render"}

  /**
   * serialize as written, over the set of methods the base class defines:
   * the base class's serialize is called first and its dict gets the type's
   * value; a base class without that method raises AttributeError.
   */
  function SerializeAsWritten(base: set<string>, t: ColliderType): (r: Result<map<string, string>>)
    ensures r.Ok? <==> "serialize" in base
    ensures r.Ok? ==> "collider_type" in r.value && r.value["collider_type"] == t.Value()
  {
    if "serialize" !in base then Err(AttributeError("'super' object has no attribute 'serialize'"))
    else Ok(map["collider_type" := t.Value()])
  }

  /** deserialize as written: the base class's deserialize is called before the type is read. */
  function DeserializeAsWritten(base: set<string>, data: map<string, string>): (r: Result<Option<ColliderType>>)
    ensures "deserialize" !in base ==> r.Err? && r.error.AttributeError?
    ensures r.Ok? ==> "deserialize" in base
    ensures "deserialize" in base && "collider_type" in data ==>
      (r.Ok? <==> TypeOf(data["collider_type"]).Ok?) && (r.Ok? ==> r.value == Some(TypeOf(data["collider_type"]).value))
    ensures "deserialize" in base && "collider_type" !in data ==> r == Ok(None)
  {
    if "deserialize" !in base then Err(AttributeError("'super' object has no attribute 'deserialize'"))
    else if "collider_type" !in data then Ok(None)
    else
      var t := TypeOf(data["collider_type"]);
      if t.Err? then Err(t.error) else Ok(Some(t.value))
  }

  /** As written, both directions raise AttributeError, so no collider is saved or loaded. */
  lemma SaveAndLoadRaiseAsWritten(t: ColliderType, data: map<string, string>)
    ensures SerializeAsWritten(BaseMethods, t) == Err(AttributeError("'super' object has no attribute 'serialize'"))
    ensures DeserializeAsWritten(BaseMethods, data) == Err(AttributeError("'super' object has no attribute 'deserialize'"))
  {
    // every base method's name is shorter than both names looked up
    assert forall m :: m in BaseMethods ==> |m| < |"serialize"|;
  }

  function Pow2(k: nat): (r: nat)
    ensures 0 < r
  {
    if k == 0 then 1 else 2 * Pow2(k - 1)
  }

  /**
   * mask & (1 << layer) is non-zero: bit `layer` of the mask, for any
   * integer mask in two's complement, the floor division being Dafny's
   * Euclidean one for a positive divisor.
   */
  predicate HasBit(mask: int, layer: nat)
  {
    (mask / Pow2(layer)) % 2 == 1
  }

  /** The default mask, 0xFFFFFFFF, holds exactly the layers 0 to 31. */
  const DefaultMask: int := 0xFFFF_FFFF

  lemma {:induction false} Pow2Add(a: nat, b: nat)
    ensures Pow2(a + b) == Pow2(a) * Pow2(b)
    decreases a
  {
    if a > 0 {
      Pow2Add(a - 1, b);
      assert Pow2(a + b) == 2 * Pow2(a - 1 + b);
    }
  }

  lemma {:induction false} Pow2Grows(a: nat, b: nat)
    requires a <= b
    ensures Pow2(a) <= Pow2(b)
    decreases b
  {
    if a < b {
      Pow2Grows(a, b - 1);
    }
  }

  lemma Pow2Of32()
    ensures Pow2(32) == DefaultMask + 1
  {
    assert Pow2(8) == 256;
    Pow2Add(8, 8);
    Pow2Add(16, 16);
  }

  lemma DefaultMaskBits(layer: nat)
    ensures HasBit(DefaultMask, layer) <==> layer < 32
  {
    Pow2Of32();
    LowBits(32, layer);
  }

  /** 2^n - 1 has exactly the bits 0 to n - 1. */
  lemma LowBits(n: nat, layer: nat)
    ensures HasBit(Pow2(n) - 1, layer) <==> layer < n
  {
    if layer < n {
      LowBitSet(n, layer);
    } else {
      LowBitClear(n, layer);
    }
  }

  lemma LowBitSet(n: nat, layer: nat)
    requires layer < n
    ensures HasBit(Pow2(n) - 1, layer)
  {
    var p := Pow2(layer);
    var half := Pow2(n - layer - 1);
    Pow2Add(n - layer, layer);
    assert Pow2(n) == (2 * half) * p;
    OddQuotient(half, p);
  }

  /** (2hp - 1) / p is 2h - 1, an odd number. */
  lemma OddQuotient(h: int, p: int)
    requires 1 <= h && 0 < p
    ensures ((2 * h) * p - 1) / p == 2 * h - 1 && (2 * h - 1) % 2 == 1
  {
    assert (2 * h - 1) * p + (p - 1) == (2 * h) * p - 1;
    QuotientOf((2 * h) * p - 1, p, 2 * h - 1, p - 1);
  }

  lemma LowBitClear(n: nat, layer: nat)
    requires n <= layer
    ensures !HasBit(Pow2(n) - 1, layer)
  {
    Pow2Grows(n, layer);
    QuotientOf(Pow2(n) - 1, Pow2(layer), 0, Pow2(n) - 1);
  }

  lemma QuotientOf(n: int, d: int, q: int, r: int)
    requires 0 < d && 0 <= r < d && n == q * d + r
    ensures n / d == q
  {
    var q2, r2 := n / d, n % d;
    assert (q - q2) * d == r2 - r;
    if q2 < q {
      MulAtLeast(q - q2, d);
    } else if q < q2 {
      MulAtLeast(q2 - q, d);
    }
  }

  lemma MulAtLeast(k: int, d: int)
    requires 1 <= k && 0 < d
    ensures d <= k * d
  {
    assert k * d == (k - 1) * d + d;
    assert 0 <= (k - 1) * d;
  }

  /**
   * The layer test of overlaps_with: this collider's mask must hold the
   * other's layer, then the other's mask this layer; a negative layer is
   * the ValueError of a negative shift.
   */
  function LayersMatch(mask: int, layer: int, otherMask: int, otherLayer: int): (r: Result<bool>)
    ensures r.Err? <==> otherLayer < 0 || (0 <= otherLayer && HasBit(mask, otherLayer) && layer < 0)
    ensures r.Err? ==> r.error == ValueError("negative shift count")
    ensures r == Ok(true) <==> 0 <= layer && 0 <= otherLayer && HasBit(mask, otherLayer) && HasBit(otherMask, layer)
  {
    if otherLayer < 0 then Err(ValueError("negative shift count"))
    else if !HasBit(mask, otherLayer) then Ok(false)
    else if layer < 0 then Err(ValueError("negative shift count"))
    else Ok(HasBit(otherMask, layer))
  }

  /** The test is the same from either side, whenever both layers are valid. */
  lemma LayersMatchSymmetric(mask: int, layer: int, otherMask: int, otherLayer: int)
    requires 0 <= layer && 0 <= otherLayer
    ensures LayersMatch(mask, layer, otherMask, otherLayer) == LayersMatch(otherMask, otherLayer, mask, layer)
  {
  }

  /** Two colliders left at the default mask meet on any layers below 32, and never on higher ones. */
  lemma DefaultMasksMatch(layer: nat, otherLayer: nat)
    ensures LayersMatch(DefaultMask, layer, DefaultMask, otherLayer) == Ok(layer < 32 && otherLayer < 32)
  {
    DefaultMaskBits(layer);
    DefaultMaskBits(otherLayer);
  }

  /** overlaps_with: False without an actor on either side or when the layers do not match; else the shapes decide. */
  function Overlaps(hasActor: bool, otherHasActor: bool, mask: int, layer: int, otherMask: int, otherLayer: int, touching: bool)
    : (r: Result<bool>)
    ensures !hasActor || !otherHasActor ==> r == Ok(false)
    ensures r == Ok(true) <==> hasActor && otherHasActor && LayersMatch(mask, layer, otherMask, otherLayer) == Ok(true) && touching
    ensures r.Err? <==> hasActor && otherHasActor && LayersMatch(mask, layer, otherMask, otherLayer).Err?
  {
    if !hasActor || !otherHasActor then Ok(false)
    else
      var m := LayersMatch(mask, layer, otherMask, otherLayer);
      if m.Err? then Err(m.error)
      else if !m.value then Ok(false)
      else Ok(touching)
  }

  /** A callback of check_collision_with, with the collider it receives. */
  datatype Contact<C> = Enter(other: C) | Stay(other: C) | Exit(other: C)

  /**
   * check_collision_with on the set of current contacts: a new overlap is
   * added, an ended one is removed, and the event follows.
   */
  function Contacts<C>(current: set<C>, other: C, colliding: bool): (r: (set<C>, Option<Contact<C>>))
    ensures other in r.0 <==> colliding
    ensures r.0 - {other} == current - {other}
    ensures r.1 == Some(Enter(other)) <==> colliding && other !in current
    ensures r.1 == Some(Stay(other)) <==> colliding && other in current
    ensures r.1 == Some(Exit(other)) <==> !colliding && other in current
    ensures r.1.None? <==> !colliding && other !in current
  {
    if colliding && other !in current then (current + {other}, Some(Enter(other)))
    else if colliding then (current, Some(Stay(other)))
    else if other in current then (current - {other}, Some(Exit(other)))
    else (current, None)
  }

  /** A second check with the same outcome keeps the contacts and reports a stay, or nothing. */
  lemma ContactsSettle<C>(current: set<C>, other: C, colliding: bool)
    ensures var c := Contacts(current, other, colliding);
      var d := Contacts(c.0, other, colliding);
      d.0 == c.0 && (colliding ==> d.1 == Some(Stay(other))) && (!colliding ==> d.1.None?)
  {
  }

  class ColliderComponent {
    var colliderType: ColliderType
    var width: real
    var height: real
    var radius: real
    var isTrigger: bool
    var collisionLayer: int
    var collisionMask: int
    var hasActor: bool
    var currentCollisions: set<ColliderComponent>
    var onCollisionEnter: bool
    var onCollisionStay: bool
    var onCollisionExit: bool
    /** The contact callbacks run so far, in order. */
    var contacts: seq<Contact<ColliderComponent>>

    /** ColliderComponent(collider_type, width, height, radius): layer 0, every layer of the default mask, no contacts. */
    constructor (colliderType: ColliderType, width: real, height: real, radius: real)
      ensures this.colliderType == colliderType && this.width == width && this.height == height && this.radius == radius
      ensures !isTrigger && collisionLayer == 0 && collisionMask == DefaultMask && !hasActor
      ensures currentCollisions == {} && !onCollisionEnter && !onCollisionStay && !onCollisionExit && contacts == []
    {
      this.colliderType, this.width, this.height, this.radius := colliderType, width, height, radius;
      isTrigger, collisionLayer, collisionMask, hasActor := false, 0, DefaultMask, false;
      currentCollisions := {};
      onCollisionEnter, onCollisionStay, onCollisionExit := false, false, false;
      contacts := [];
    }

    /** overlaps_with, the shapes' own test given as touching. */
    function OverlapsWith(other: ColliderComponent, touching: bool): (r: Result<bool>)
      reads this, other
      ensures r == Overlaps(hasActor, other.hasActor, collisionMask, collisionLayer, other.collisionMask, other.collisionLayer, touching)
    {
      if !hasActor || !other.hasActor then Ok(false)
      else if other.collisionLayer < 0 then Err(ValueError("negative shift count"))
      else if !HasBit(collisionMask, other.collisionLayer) then Ok(false)
      else if collisionLayer < 0 then Err(ValueError("negative shift count"))
      else if !HasBit(other.collisionMask, collisionLayer) then Ok(false)
      else Ok(touching)
    }

    /** check_collision_with: the contact set and callbacks follow the overlap; an error in overlaps_with changes nothing. */
    method CheckCollisionWith(other: ColliderComponent, touching: bool) returns (r: Result<bool>)
      modifies this
      ensures var o := old(OverlapsWith(other, touching));
        (o.Err? ==> r == o && unchanged(this))
        && (o.Ok? ==> r == Ok(true) && currentCollisions == Contacts(old(currentCollisions), other, o.value).0)
      ensures r.Ok? ==> contacts == old(contacts) + ContactCalls(Contacts(old(currentCollisions), other, old(OverlapsWith(other, touching)).value).1)
      ensures r.Ok? ==> (other in currentCollisions <==> old(OverlapsWith(other, touching)) == Ok(true))
      ensures colliderType == old(colliderType) && collisionLayer == old(collisionLayer) && collisionMask == old(collisionMask)
      ensures hasActor == old(hasActor) && width == old(width) && height == old(height) && radius == old(radius)
      ensures onCollisionEnter == old(onCollisionEnter) && onCollisionStay == old(onCollisionStay) && onCollisionExit == old(onCollisionExit)
    {
      var o := OverlapsWith(other, touching);
      if o.Err? {
        return Err(o.error);
      }
      var isColliding := o.value;
      var wasColliding := other in currentCollisions;
      if isColliding && !wasColliding {
        currentCollisions := currentCollisions + {other};
        if onCollisionEnter {
          contacts := contacts + [Enter(other)];
        }
      } else if isColliding && wasColliding {
        if onCollisionStay {
          contacts := contacts + [Stay(other)];
        }
      } else if !isColliding && wasColliding {
        currentCollisions := currentCollisions - {other};
        if onCollisionExit {
          contacts := contacts + [Exit(other)];
        }
      }
      r := Ok(true);
    }

    /** The calls an event makes: the callback set for its kind, if any. */
    function ContactCalls(e: Option<Contact<ColliderComponent>>): seq<Contact<ColliderComponent>>
      reads this
    {
      match e
      case None => []
      case Some(Enter(_)) => if onCollisionEnter then [e.value] else []
      case Some(Stay(_)) => if onCollisionStay then [e.value] else []
      case Some(Exit(_)) => if onCollisionExit then [e.value] else []
    }

    /** get_all_collisions: the current contacts, as a set of their own. */
    function AllCollisions(): (r: set<ColliderComponent>)
      reads this
      ensures r == currentCollisions
    {
      currentCollisions
    }

    /** is_colliding_with_layer: the loop over the contacts, stopping at the first on the layer. */
    method IsCollidingWithLayer(layer: int) returns (r: bool)
      ensures r <==> exists c :: c in currentCollisions && c.collisionLayer == layer
    {
      var rest := currentCollisions;
      while rest != {}
        invariant rest <= currentCollisions
        invariant forall c :: c in currentCollisions - rest ==> c.collisionLayer != layer
        decreases |rest|
      {
        var c :| c in rest;
        if c.collisionLayer == layer {
          return true;
        }
        rest := rest - {c};
      }
      return false;
    }

    /** set_size: width and height (height defaulting to the width) for a rectangle, the radius for a circle, nothing for a point. */
    method SetSize(w: real, h: Option<real>)
      modifies this
      ensures colliderType == Rectangle ==> width == w && height == h.GetOr(w) && radius == old(radius)
      ensures colliderType == Circle ==> radius == w && width == old(width) && height == old(height)
      ensures colliderType == Point ==> width == old(width) && height == old(height) && radius == old(radius)
      ensures colliderType == old(colliderType) && currentCollisions == old(currentCollisions) && contacts == old(contacts)
      ensures collisionLayer == old(collisionLayer) && collisionMask == old(collisionMask) && hasActor == old(hasActor)
    {
      if colliderType == Rectangle {
        width := w;
        height := if h.Some? then h.value else w;
      } else if colliderType == Circle {
        radius := w;
      }
    }

    /**
     * deserialize (the part of it this class adds): the type from its
     * value when the data has one, then no contacts. An unknown value
     * raises before the contacts are cleared.
     */
    method Deserialize(typeValue: Option<string>) returns (r: Result<bool>)
      modifies this
      ensures typeValue.Some? && TypeOf(typeValue.value).Err? ==> r == Err(TypeOf(typeValue.value).error) && unchanged(this)
      ensures r.Ok? <==> typeValue.None? || TypeOf(typeValue.value).Ok?
      ensures r.Ok? ==>
        currentCollisions == {} && colliderType == (if typeValue.Some? then TypeOf(typeValue.value).value else old(colliderType))
      ensures width == old(width) && height == old(height) && radius == old(radius) && contacts == old(contacts)
      ensures collisionLayer == old(collisionLayer) && collisionMask == old(collisionMask) && hasActor == old(hasActor)
    {
      if typeValue.Some? {
        var t := TypeOf(typeValue.value);
        if t.Err? {
          return Err(t.error);
        }
        colliderType := t.value;
      }
      currentCollisions := {};
      r := Ok(true);
    }
  }
}

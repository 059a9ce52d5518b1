/**
 * The wood colliders of src/wood.ts: a registry that every created wood is
 * appended to, and a broadcast update of their material parameters in which
 * each field is overwritten exactly when its update is present.
 *
 * The physics engine is abstracted to what this file observes of it: a world
 * that hands out collider handles, and colliders whose material, rotation and
 * interaction groups can be set in place. The renderer's graphics are values
 * describing the rectangle drawn, kept in a map from collider handle.
 */
module Wood {

  /** Collider sizes and style (src/consts.ts:6-10). */
  const WOOD_COLOR: nat := 0x8b4513
  const WOOD_WIDTH: real := 5.0
  const RAMP_LENGTH: real := 100.0
  const PLATFORM_LENGTH: real := 100.0

  /** Border radius of every wood's rounded box (src/wood.ts:44). */
  const WOOD_BORDER_RADIUS: real := 5.0

  /** Collision and solver groups of the platform and the ramp (src/wood.ts:83-86). */
  const PLATFORM_RAMP_GROUPS: nat := 0x000d0004

  /** The engine's groups for a collider that interacts with everything. */
  const ALL_GROUPS: nat := 0xffff_ffff

  type Handle = nat

  datatype Option<T> = None | Some(value: T)

  /** How the engine combines two touching surfaces' coefficients. */
  datatype CombineRule = Average | Min | Multiply | Max

  /** The combine rule used for wood friction and restitution (src/consts.ts:5). */
  const COMBINE_RULE: CombineRule := Average

  /** The tunable parameters read by this file (src/controls.ts:3-9). */
  datatype Tunables = Tunables(woodDensity: real, woodFriction: real, woodRestitution: real, rampAngle: real)

  /** A partial update of the wood material; `None` is an undefined field. */
  datatype ParameterUpdates = ParameterUpdates(restitution: Option<real>, friction: Option<real>, density: Option<real>)

  const NoUpdates: ParameterUpdates := ParameterUpdates(None, None, None)

  /** The material fields of a collider. */
  datatype Material = Material(restitution: real, friction: real, density: real)

  /** A filled rectangle drawn at (x, y). */
  datatype Graphic = Rect(x: real, y: real, width: real, height: real, fill: nat)

  /** The description of a collider built by `RAPIER.ColliderDesc.roundCuboid(...)` and its setters. */
  datatype ColliderDesc = RoundCuboid(
    halfWidth: real, halfHeight: real, borderRadius: real,
    material: Material, restitutionRule: CombineRule, frictionRule: CombineRule,
    rotation: real)

  /** The material a new wood gets from the tunables. */
  function TunedMaterial(t: Tunables): Material {
    Material(t.woodRestitution, t.woodFriction, t.woodDensity)
  }

  /** One wood's material after `updates`: each field is set iff its update is defined. */
  function Apply(m: Material, u: ParameterUpdates): (r: Material)
    ensures u.restitution.Some? ==> r.restitution == u.restitution.value
    ensures u.restitution.None? ==> r.restitution == m.restitution
    ensures u.friction.Some? ==> r.friction == u.friction.value
    ensures u.friction.None? ==> r.friction == m.friction
    ensures u.density.Some? ==> r.density == u.density.value
    ensures u.density.None? ==> r.density == m.density
  {
    var restitution := if u.restitution.Some? then u.restitution.value else m.restitution;
    var friction := if u.friction.Some? then u.friction.value else m.friction;
    var density := if u.density.Some? then u.density.value else m.density;
    Material(restitution, friction, density)
  }

  /** The materials of a whole registry after `updates`, entry by entry and in order. */
  function ApplyAll(ms: seq<Material>, u: ParameterUpdates): (r: seq<Material>)
    ensures |r| == |ms|
    ensures forall i :: 0 <= i < |ms| ==> r[i] == Apply(ms[i], u)
  {
    if ms == [] then [] else [Apply(ms[0], u)] + ApplyAll(ms[1..], u)
  }

  /** Applying the same updates twice leaves the material as applying them once. */
  lemma ApplyIdempotent(m: Material, u: ParameterUpdates)
    ensures Apply(Apply(m, u), u) == Apply(m, u)
  {
  }

  /** Broadcasting the same updates twice leaves the registry as broadcasting them once. */
  lemma {:induction false} ApplyAllIdempotent(ms: seq<Material>, u: ParameterUpdates)
    ensures ApplyAll(ApplyAll(ms, u), u) == ApplyAll(ms, u)
  {
    if ms != [] {
      ApplyAllIdempotent(ms[1..], u);
      ApplyIdempotent(ms[0], u);
      assert ApplyAll(ms, u) == [Apply(ms[0], u)] + ApplyAll(ms[1..], u);
      assert ApplyAll(ms, u)[1..] == ApplyAll(ms[1..], u);
    }
  }

  /** An update with no field defined changes no material. */
  lemma {:induction false} ApplyAllNoUpdates(ms: seq<Material>)
    ensures ApplyAll(ms, NoUpdates) == ms
  {
    if ms != [] {
      ApplyAllNoUpdates(ms[1..]);
      assert ms == [ms[0]] + ms[1..];
    }
  }

  /** A collider in the engine: its handle and shape are fixed, the rest is settable. */
  class Collider {
    const handle: Handle
    const halfWidth: real
    const halfHeight: real
    const borderRadius: real
    const restitutionRule: CombineRule
    const frictionRule: CombineRule
    var restitution: real
    var friction: real
    var density: real
    var rotation: real
    var collisionGroups: nat
    var solverGroups: nat

    /** A collider built from `desc`, with the engine's default groups. */
    constructor (handle: Handle, desc: ColliderDesc)
      ensures this.handle == handle
      ensures halfWidth == desc.halfWidth && halfHeight == desc.halfHeight && borderRadius == desc.borderRadius
      ensures restitutionRule == desc.restitutionRule && frictionRule == desc.frictionRule
      ensures GetMaterial() == desc.material && rotation == desc.rotation
      ensures collisionGroups == ALL_GROUPS && solverGroups == ALL_GROUPS
    {
      this.handle := handle;
      halfWidth, halfHeight, borderRadius := desc.halfWidth, desc.halfHeight, desc.borderRadius;
      restitutionRule, frictionRule := desc.restitutionRule, desc.frictionRule;
      restitution, friction, density := desc.material.restitution, desc.material.friction, desc.material.density;
      rotation := desc.rotation;
      collisionGroups, solverGroups := ALL_GROUPS, ALL_GROUPS;
    }

    function GetMaterial(): Material
      reads this
    {
      Material(restitution, friction, density)
    }

    method SetRestitution(v: real)
      modifies this`restitution
      ensures restitution == v
    {
      restitution := v;
    }

    method SetFriction(v: real)
      modifies this`friction
      ensures friction == v
    {
      friction := v;
    }

    method SetDensity(v: real)
      modifies this`density
      ensures density == v
    {
      density := v;
    }

    method SetCollisionGroups(g: nat)
      modifies this`collisionGroups
      ensures collisionGroups == g
    {
      collisionGroups := g;
    }

    method SetSolverGroups(g: nat)
      modifies this`solverGroups
      ensures solverGroups == g
    {
      solverGroups := g;
    }
  }

  /** The physics world, as far as creating colliders goes: it never hands out a handle twice. */
  class World {
    var nextHandle: Handle

    constructor ()
      ensures nextHandle == 0
    {
      nextHandle := 0;
    }

    method CreateCollider(desc: ColliderDesc) returns (c: Collider)
      modifies this
      ensures fresh(c) && c.handle == old(nextHandle) && nextHandle == old(nextHandle) + 1
      ensures c.halfWidth == desc.halfWidth && c.halfHeight == desc.halfHeight && c.borderRadius == desc.borderRadius
      ensures c.restitutionRule == desc.restitutionRule && c.frictionRule == desc.frictionRule
      ensures c.GetMaterial() == desc.material && c.rotation == desc.rotation
      ensures c.collisionGroups == ALL_GROUPS && c.solverGroups == ALL_GROUPS
    {
      c := new Collider(nextHandle, desc);
      nextHandle := nextHandle + 1;
    }
  }

  /** `BodiesMap`: the graphic drawn for each collider handle. */
  class BodiesMap {
    var graphics: map<Handle, Graphic>

    constructor ()
      ensures graphics == map[]
    {
      graphics := map[];
    }

    method Set(h: Handle, g: Graphic)
      modifies this
      ensures graphics == old(graphics)[h := g]
    {
      graphics := graphics[h := g];
    }
  }

  /** Every handle with a graphic was handed out by `world`, so the world's next handle is fresh. */
  ghost predicate HandlesIssued(world: World, bodies: BodiesMap)
    reads world, bodies
  {
    forall h :: h in bodies.graphics ==> h < world.nextHandle
  }

  /** The module-level `woods` list: every wood collider created, in creation order. */
  class WoodRegistry {
    var woods: seq<Collider>

    constructor ()
      ensures woods == []
    {
      woods := [];
    }

    /** The materials of the registered woods, in registry order. */
    ghost function Materials(): seq<Material>
      reads this, woods
    {
      seq(|woods|, i reads this, woods requires 0 <= i < |woods| => woods[i].GetMaterial())
    }

    /**
     * `updateWoodParameters`: on every registered wood, set each material field
     * whose update is defined; nothing else changes.
     */
    method UpdateWoodParameters(u: ParameterUpdates)
      modifies woods
      ensures woods == old(woods)
      ensures Materials() == ApplyAll(old(Materials()), u)
      ensures forall i :: 0 <= i < |woods| ==>
        woods[i].rotation == old(woods[i].rotation) &&
        woods[i].collisionGroups == old(woods[i].collisionGroups) &&
        woods[i].solverGroups == old(woods[i].solverGroups)
    {
      var i := 0;
      while i < |woods|
        invariant 0 <= i <= |woods|
        invariant forall c :: c in woods ==>
          c.GetMaterial() == if c in woods[..i] then Apply(old(c.GetMaterial()), u) else old(c.GetMaterial())
        invariant forall c :: c in woods ==>
          c.rotation == old(c.rotation) &&
          c.collisionGroups == old(c.collisionGroups) &&
          c.solverGroups == old(c.solverGroups)
      {
        var wood := woods[i];
        if u.restitution.Some? {
          wood.SetRestitution(u.restitution.value);
        }
        if u.friction.Some? {
          wood.SetFriction(u.friction.value);
        }
        if u.density.Some? {
          wood.SetDensity(u.density.value);
        }
        assert woods[..i + 1] == woods[..i] + [wood];
        i := i + 1;
      }
      assert woods[..i] == woods;
    }

    /**
     * `createWood`: create a rounded-box collider with the wood material from
     * `tunables` and rotation `angle`, register it, and give its handle a
     * `w` by `h` rectangle graphic.
     */
    method CreateWood(tunables: Tunables, world: World, bodies: BodiesMap, w: real, h: real, angle: real)
      returns (collider: Collider)
      requires HandlesIssued(world, bodies)
      modifies this, world, bodies
      ensures fresh(collider)
      ensures woods == old(woods) + [collider]
      ensures collider.handle == old(world.nextHandle) && collider.handle !in old(bodies.graphics)
      ensures world.nextHandle == old(world.nextHandle) + 1
      ensures collider.halfWidth == w && collider.halfHeight == h && collider.borderRadius == WOOD_BORDER_RADIUS
      ensures collider.restitutionRule == COMBINE_RULE && collider.frictionRule == COMBINE_RULE
      ensures collider.GetMaterial() == TunedMaterial(tunables) && collider.rotation == angle
      ensures collider.collisionGroups == ALL_GROUPS && collider.solverGroups == ALL_GROUPS
      ensures bodies.graphics == old(bodies.graphics)[collider.handle := Rect(0.0, 0.0, w, h, WOOD_COLOR)]
      ensures HandlesIssued(world, bodies)
    {
      var desc := RoundCuboid(w, h, WOOD_BORDER_RADIUS, TunedMaterial(tunables), COMBINE_RULE, COMBINE_RULE, angle);
      collider := world.CreateCollider(desc);
      woods := woods + [collider];
      var gfx := Rect(0.0, 0.0, w, h, WOOD_COLOR);
      bodies.Set(collider.handle, gfx);
    }

    /**
     * `createPlatformRamp`: a flat platform and then a ramp at `angle`, both
     * registered, both put in the platform-and-ramp interaction groups.
     */
    method CreatePlatformRamp(tunables: Tunables, world: World, bodies: BodiesMap, angle: real)
      returns (platform: Collider, ramp: Collider)
      requires HandlesIssued(world, bodies)
      modifies this, world, bodies
      ensures fresh(platform) && fresh(ramp) && platform != ramp
      ensures woods == old(woods) + [platform, ramp]
      ensures platform.handle == old(world.nextHandle) && ramp.handle == old(world.nextHandle) + 1
      ensures world.nextHandle == old(world.nextHandle) + 2
      ensures platform.halfWidth == PLATFORM_LENGTH && platform.halfHeight == WOOD_WIDTH && platform.rotation == 0.0
      ensures ramp.halfWidth == RAMP_LENGTH && ramp.halfHeight == WOOD_WIDTH && ramp.rotation == angle
      ensures platform.GetMaterial() == TunedMaterial(tunables) && ramp.GetMaterial() == TunedMaterial(tunables)
      ensures platform.collisionGroups == PLATFORM_RAMP_GROUPS && platform.solverGroups == PLATFORM_RAMP_GROUPS
      ensures ramp.collisionGroups == PLATFORM_RAMP_GROUPS && ramp.solverGroups == PLATFORM_RAMP_GROUPS
      ensures bodies.graphics == old(bodies.graphics)
        [platform.handle := Rect(0.0, 0.0, PLATFORM_LENGTH, WOOD_WIDTH, WOOD_COLOR)]
        [ramp.handle := Rect(0.0, 0.0, RAMP_LENGTH, WOOD_WIDTH, WOOD_COLOR)]
      ensures HandlesIssued(world, bodies)
    {
      platform := CreateWood(tunables, world, bodies, PLATFORM_LENGTH, WOOD_WIDTH, 0.0);
      ramp := CreateWood(tunables, world, bodies, RAMP_LENGTH, WOOD_WIDTH, angle);

      platform.SetCollisionGroups(PLATFORM_RAMP_GROUPS);
      platform.SetSolverGroups(PLATFORM_RAMP_GROUPS);
      ramp.SetCollisionGroups(PLATFORM_RAMP_GROUPS);
      ramp.SetSolverGroups(PLATFORM_RAMP_GROUPS);
    }
  }
}

/** The constraint graph records and the solver tuning state of phyz::PhysicsEngine
    (ConstraintPhysics/src/PhysicsEngine.h). Bodies, graph nodes, edges and the
    engine are objects that the engine updates in place, so they are classes;
    the constraint records an edge collects are values. */
module Phyz {
  import opened Linear

  datatype Option<T> = None | Some(value: T)

  /** How a joint corrects position error: with pseudo-velocities, or by moving
      the slave body onto the master. */
  datatype PosErrorResolutionMode = PsuedoVelocity | MasterSlave

  datatype BroadPhaseStructure = NoBroadPhase | Octree | AabbTree | TestCompare

  /** The kinds of user constraint a ConstraintID can name. */
  datatype ConstraintType = Distance | Ball | Hinge | Slider | Spring | SlidingHinge | Weld

  /** The handle given out for a user constraint. The default-constructed handle
      leaves its type unset, modelled as None. */
  datatype ConstraintID = ConstraintID(kind: Option<ConstraintType>, uniqueID: int)

  /** ConstraintID(): a handle that names no constraint. */
  function DefaultConstraintID(): (r: ConstraintID)
    ensures r.uniqueID < 0 && r.kind.None?
  {
    ConstraintID(None, -1)
  }

  /** The part of phyz::RigidBody the constraint graph refers to. Bodies are
      compared by identity. */
  class RigidBody {
    var id: int
    var mass: real
    var fixed: bool
  }

  /** Point keys name points tracked on a body (RigidBody::PKey). */
  type PKey = int

  /** The data fields of the constraint records an edge lists; the solver
      objects inside them (ContactConstraint, DistanceConstraint, Motor, ...)
      are not part of this model. */
  datatype Contact = Contact(b1: RigidBody, b2: RigidBody, memoryLife: int, isLiveContact: bool)

  datatype DistanceJoint = DistanceJoint(b1: RigidBody, b2: RigidBody, targetDistance: real,
                                         b1PointKey: PKey, b2PointKey: PKey, posCorrectHardness: real,
                                         posErrorMode: PosErrorResolutionMode, b1Master: bool, uniqueID: int)

  datatype BallSocket = BallSocket(b1: RigidBody, b2: RigidBody, b1PointKey: PKey, b2PointKey: PKey,
                                   posCorrectHardness: real, posErrorMode: PosErrorResolutionMode,
                                   b1Master: bool, uniqueID: int)

  datatype HingeJoint = HingeJoint(b1: RigidBody, b2: RigidBody, b1PointKey: PKey, b2PointKey: PKey,
                                   b1RotAxisBodySpace: Vec3, b2RotAxisBodySpace: Vec3,
                                   posCorrectHardness: real, rotCorrectHardness: real,
                                   posErrorMode: PosErrorResolutionMode, b1Master: bool, uniqueID: int)

  datatype SliderJoint = SliderJoint(b1: RigidBody, b2: RigidBody, b1PointKey: PKey, b2PointKey: PKey,
                                     b1SlideAxisBodySpace: Vec3, b2SlideAxisBodySpace: Vec3,
                                     posCorrectHardness: real, rotCorrectHardness: real,
                                     posErrorMode: PosErrorResolutionMode, b1Master: bool, uniqueID: int)

  datatype SlidingHingeJoint = SlidingHingeJoint(b1: RigidBody, b2: RigidBody, b1PointKey: PKey, b2PointKey: PKey,
                                                 b1SlideAxisBodySpace: Vec3, b2SlideAxisBodySpace: Vec3,
                                                 posCorrectHardness: real, rotCorrectHardness: real,
                                                 posErrorMode: PosErrorResolutionMode, b1Master: bool, uniqueID: int)

  datatype WeldJoint = WeldJoint(b1: RigidBody, b2: RigidBody, b1PointKey: PKey, b2PointKey: PKey,
                                 posCorrectHardness: real, rotCorrectHardness: real,
                                 posErrorMode: PosErrorResolutionMode, b1Master: bool, uniqueID: int)

  datatype SpringLink = SpringLink(b1: RigidBody, b2: RigidBody, b1PointKey: PKey, b2PointKey: PKey,
                                   stiffness: real, damping: real, restingLength: real, uniqueID: int)

  /** The eight lists of an edge: contacts, and one list per ConstraintType. */
  datatype EdgeList = Contacts | Joints(t: ConstraintType)

  /** A list takes part in holonomic clustering when it holds user joints that
      are not springs: contacts and springs are not position constraints. */
  predicate IsHolonomicList(l: EdgeList) {
    l.Joints? && l.t != Spring
  }

  /** The state a solver island shares among the edges of one holonomic cluster. */
  class HolonomicSystemNodes {
    var constraintsChangedFlag: bool
    var edgeRemovedFlag: bool
    var memberEdges: seq<SharedConstraintsEdge>
  }

  /** A body in the constraint graph, with the edges that touch it. */
  class ConstraintGraphNode {
    var b: RigidBody
    var constraints: seq<SharedConstraintsEdge>

    constructor(b: RigidBody)
      ensures this.b == b && constraints == []
    {
      this.b := b;
      constraints := [];
    }
  }

  /** All constraints between one pair of bodies. */
  class SharedConstraintsEdge {
    var n1: ConstraintGraphNode
    var n2: ConstraintGraphNode
    var h: HolonomicSystemNodes?
    var holonomicSystemScanNeeded: bool
    var contactConstraints: seq<Contact>
    var distanceConstraints: seq<DistanceJoint>
    var ballSocketConstraints: seq<BallSocket>
    var hingeConstraints: seq<HingeJoint>
    var sliderConstraints: seq<SliderJoint>
    var slidingHingeConstraints: seq<SlidingHingeJoint>
    var weldConstraints: seq<WeldJoint>
    var springs: seq<SpringLink>
    var visitedTag: int

    /** A new edge joins the two nodes, belongs to no holonomic system, needs
        no scan, has not been visited and holds no constraint. */
    constructor(n1: ConstraintGraphNode, n2: ConstraintGraphNode)
      ensures this.n1 == n1 && this.n2 == n2
      ensures h == null && !holonomicSystemScanNeeded && visitedTag == 0
      ensures contactConstraints == [] && distanceConstraints == [] && ballSocketConstraints == []
      ensures hingeConstraints == [] && sliderConstraints == [] && slidingHingeConstraints == []
      ensures weldConstraints == [] && springs == []
      ensures NoConstraintsLeft() && !HasHolonomicConstraint()
    {
      this.n1 := n1;
      this.n2 := n2;
      h := null;
      holonomicSystemScanNeeded := false;
      contactConstraints := [];
      distanceConstraints := [];
      ballSocketConstraints := [];
      hingeConstraints := [];
      sliderConstraints := [];
      slidingHingeConstraints := [];
      weldConstraints := [];
      springs := [];
      visitedTag := 0;
    }

    /** The endpoint opposite c, decided by comparing bodies: any node whose
        body is not that of n1 is taken to be the n2 end. */
    function Other(c: ConstraintGraphNode): (r: ConstraintGraphNode)
      reads this, c, n1
      ensures r == n1 || r == n2
      ensures c.b == n1.b ==> r == n2
      ensures c.b != n1.b ==> r == n1
    {
      if c.b == n1.b then n2 else n1
    }

    /** The edge holds nothing and can be dropped from the graph. */
    predicate NoConstraintsLeft()
      reads this
    {
      |contactConstraints| == 0
      && |ballSocketConstraints| == 0
      && |distanceConstraints| == 0
      && |hingeConstraints| == 0
      && |sliderConstraints| == 0
      && |slidingHingeConstraints| == 0
      && |weldConstraints| == 0
      && |springs| == 0
    }

    /** The edge holds at least one joint that binds the two bodies' positions. */
    predicate HasHolonomicConstraint()
      reads this
    {
      !(|ballSocketConstraints| == 0
        && |distanceConstraints| == 0
        && |hingeConstraints| == 0
        && |sliderConstraints| == 0
        && |slidingHingeConstraints| == 0
        && |weldConstraints| == 0)
    }

    /** The number of records in one of the eight lists. */
    function CountOf(l: EdgeList): nat
      reads this
    {
      match l
      case Contacts => |contactConstraints|
      case Joints(Distance) => |distanceConstraints|
      case Joints(Ball) => |ballSocketConstraints|
      case Joints(Hinge) => |hingeConstraints|
      case Joints(Slider) => |sliderConstraints|
      case Joints(Spring) => |springs|
      case Joints(SlidingHinge) => |slidingHingeConstraints|
      case Joints(Weld) => |weldConstraints|
    }
  }

  /** An edge can be pruned exactly when every one of its eight lists is empty. */
  lemma {:induction false} NoConstraintsLeftIffAllListsEmpty(e: SharedConstraintsEdge)
    ensures e.NoConstraintsLeft() <==> forall l :: e.CountOf(l) == 0
  {
    if e.NoConstraintsLeft() {
      forall l ensures e.CountOf(l) == 0 {
        match l
        case Contacts =>
        case Joints(t) =>
      }
    } else {
      if |e.contactConstraints| != 0 { assert e.CountOf(Contacts) != 0; }
      else if |e.ballSocketConstraints| != 0 { assert e.CountOf(Joints(Ball)) != 0; }
      else if |e.distanceConstraints| != 0 { assert e.CountOf(Joints(Distance)) != 0; }
      else if |e.hingeConstraints| != 0 { assert e.CountOf(Joints(Hinge)) != 0; }
      else if |e.sliderConstraints| != 0 { assert e.CountOf(Joints(Slider)) != 0; }
      else if |e.slidingHingeConstraints| != 0 { assert e.CountOf(Joints(SlidingHinge)) != 0; }
      else if |e.weldConstraints| != 0 { assert e.CountOf(Joints(Weld)) != 0; }
      else { assert e.CountOf(Joints(Spring)) != 0; }
    }
  }

  /** An edge takes part in holonomic clustering exactly when one of its
      holonomic lists is non-empty. */
  lemma {:induction false} HasHolonomicIffSomeJointList(e: SharedConstraintsEdge)
    ensures e.HasHolonomicConstraint() <==> exists l :: IsHolonomicList(l) && e.CountOf(l) > 0
  {
    if e.HasHolonomicConstraint() {
      if |e.ballSocketConstraints| != 0 { assert IsHolonomicList(Joints(Ball)) && e.CountOf(Joints(Ball)) > 0; }
      else if |e.distanceConstraints| != 0 { assert IsHolonomicList(Joints(Distance)) && e.CountOf(Joints(Distance)) > 0; }
      else if |e.hingeConstraints| != 0 { assert IsHolonomicList(Joints(Hinge)) && e.CountOf(Joints(Hinge)) > 0; }
      else if |e.sliderConstraints| != 0 { assert IsHolonomicList(Joints(Slider)) && e.CountOf(Joints(Slider)) > 0; }
      else if |e.slidingHingeConstraints| != 0 {
        assert IsHolonomicList(Joints(SlidingHinge)) && e.CountOf(Joints(SlidingHinge)) > 0;
      } else { assert IsHolonomicList(Joints(Weld)) && e.CountOf(Joints(Weld)) > 0; }
    } else {
      forall l | IsHolonomicList(l) ensures e.CountOf(l) == 0 {
        match l
        case Joints(t) =>
      }
    }
  }

  /** An edge with a holonomic constraint is never pruned. */
  lemma HolonomicEdgeIsNotPrunable(e: SharedConstraintsEdge)
    requires e.HasHolonomicConstraint()
    ensures !e.NoConstraintsLeft()
  {
  }

  /** Contacts and springs do not matter to holonomic clustering: two edges whose
      holonomic lists are empty or non-empty alike agree on it, whatever
      contacts and springs they hold. */
  lemma {:induction false} HolonomicIgnoresContactsAndSprings(e1: SharedConstraintsEdge, e2: SharedConstraintsEdge)
    requires forall l :: IsHolonomicList(l) ==> (e1.CountOf(l) == 0 <==> e2.CountOf(l) == 0)
    ensures e1.HasHolonomicConstraint() <==> e2.HasHolonomicConstraint()
  {
    HasHolonomicIffSomeJointList(e1);
    HasHolonomicIffSomeJointList(e2);
  }

  /** An edge with contacts only, or springs only, is kept in the graph but is
      not holonomic. */
  lemma ContactsOrSpringsOnly(e: SharedConstraintsEdge)
    requires forall l :: IsHolonomicList(l) ==> e.CountOf(l) == 0
    requires e.CountOf(Contacts) > 0 || e.CountOf(Joints(Spring)) > 0
    ensures !e.HasHolonomicConstraint() && !e.NoConstraintsLeft()
  {
    assert e.CountOf(Joints(Ball)) == 0 && e.CountOf(Joints(Distance)) == 0 && e.CountOf(Joints(Hinge)) == 0;
    assert e.CountOf(Joints(Slider)) == 0 && e.CountOf(Joints(SlidingHinge)) == 0 && e.CountOf(Joints(Weld)) == 0;
  }

  /** Across an edge between two different bodies, Other swaps the endpoints. */
  lemma OtherSwapsEndpoints(e: SharedConstraintsEdge)
    requires e.n1.b != e.n2.b
    ensures e.Other(e.n1) == e.n2 && e.Other(e.n2) == e.n1
    ensures e.Other(e.Other(e.n1)) == e.n1 && e.Other(e.Other(e.n2)) == e.n2
  {
  }

  /** Since bodies are compared, not nodes, an edge whose two nodes share a body
      answers n2 for both ends. */
  lemma OtherOnSharedBody(e: SharedConstraintsEdge)
    requires e.n1.b == e.n2.b
    ensures e.Other(e.n1) == e.n2 && e.Other(e.n2) == e.n2
  {
  }

  /** The solver tuning state of phyz::PhysicsEngine. */
  class PhysicsEngine {
    var nextId: nat
    var pgsVelIterations: int
    var pgsPosIterations: int
    var pgsHolonomicIterations: int
    var broadphase: BroadPhaseStructure
    var aabbtreeMarginSize: real
    var octreeCenter: Vec3
    var octreeSize: real
    var octreeMinsize: real
    var holonomicBlockSolverCFM: real
    var computeHolonomicInverseInParallel: bool
    var angleVelocityUpdateTickCount: int
    var isInternalGyroForcesDisabled: bool
    var frictionImpulseLimitEnabled: bool
    var gravity: Vec3
    var stepTime: real
    var bodies: seq<RigidBody>
    var bodiesToDelete: seq<RigidBody>
    var cutoffVel: real
    var contactLife: int
    var contactPosCorrectHardness: real
    var sleepingEnabled: bool
    var sleepDelay: real
    var nonSleepyTickThreshold: int
    var velSleepCoeff: real
    var angVelEps: real
    var accelSleepCoeff: real
    var warmStartDisabled: bool
    var warmStartCoefficient: real
    var globalCfm: real
    var constraintGraphNodes: map<nat, ConstraintGraphNode>
    var nextConstraintID: int
    var constraintMap: map<int, SharedConstraintsEdge>
    var nextActionID: int

    /** The in-class initial values of a new engine. */
    ghost predicate HasDefaultTuning()
      reads this
    {
      nextId == 1
      && pgsVelIterations == 20 && pgsPosIterations == 15 && pgsHolonomicIterations == 3
      && broadphase == AabbTree && aabbtreeMarginSize == 0.1
      && octreeCenter == Vec3(0.0, 0.0, 0.0) && octreeSize == 2000.0 && octreeMinsize == 1.0
      && holonomicBlockSolverCFM == 0.00001 && computeHolonomicInverseInParallel
      && angleVelocityUpdateTickCount == 4 && !isInternalGyroForcesDisabled && !frictionImpulseLimitEnabled
      && bodies == [] && bodiesToDelete == []
      && gravity == Vec3(0.0, -6.0, 0.0) && stepTime == 1.0 / 90.0 && cutoffVel == 0.0
      && contactLife == 6 && contactPosCorrectHardness == 1000.0
      && sleepingEnabled && sleepDelay == 0.5 && nonSleepyTickThreshold == 3
      && velSleepCoeff == 0.1 && angVelEps == 0.1 && accelSleepCoeff == 0.044
      && !warmStartDisabled && warmStartCoefficient == 0.975 && globalCfm == 0.0
      && constraintGraphNodes == map[] && nextConstraintID == 0 && constraintMap == map[] && nextActionID == 0
    }

    constructor()
      ensures HasDefaultTuning()
    {
      nextId := 1;
      pgsVelIterations := 20;
      pgsPosIterations := 15;
      pgsHolonomicIterations := 3;
      broadphase := AabbTree;
      aabbtreeMarginSize := 0.1;
      octreeCenter := Vec3(0.0, 0.0, 0.0);
      octreeSize := 2000.0;
      octreeMinsize := 1.0;
      holonomicBlockSolverCFM := 0.00001;
      computeHolonomicInverseInParallel := true;
      angleVelocityUpdateTickCount := 4;
      isInternalGyroForcesDisabled := false;
      frictionImpulseLimitEnabled := false;
      bodies := [];
      bodiesToDelete := [];
      gravity := Vec3(0.0, -6.0, 0.0);
      stepTime := 1.0 / 90.0;
      cutoffVel := 0.0;
      contactLife := 6;
      contactPosCorrectHardness := 1000.0;
      sleepingEnabled := true;
      sleepDelay := 0.5;
      nonSleepyTickThreshold := 3;
      velSleepCoeff := 0.1;
      angVelEps := 0.1;
      accelSleepCoeff := 0.044;
      warmStartDisabled := false;
      warmStartCoefficient := 0.975;
      globalCfm := 0.0;
      constraintGraphNodes := map[];
      nextConstraintID := 0;
      constraintMap := map[];
      nextActionID := 0;
    }

    /** The holonomic block solver runs when it is given iterations. */
    predicate UsingHolonomicSystemSolver()
      reads this
    {
      pgsHolonomicIterations > 0
    }

    /** Sets the three iteration counts and nothing else; the holonomic count
        defaults to 3, which turns the holonomic solver on. */
    method SetPGSIterations(nVel: int, nPos: int, nHolonomic: int := 3)
      modifies this`pgsVelIterations, this`pgsPosIterations, this`pgsHolonomicIterations
      ensures pgsVelIterations == nVel && pgsPosIterations == nPos && pgsHolonomicIterations == nHolonomic
      ensures UsingHolonomicSystemSolver() <==> nHolonomic > 0
    {
      pgsVelIterations := nVel;
      pgsPosIterations := nPos;
      pgsHolonomicIterations := nHolonomic;
    }

    /** The Baumgarte position-correction coefficient: the correction strength
        scaled by the step, capped by the inverse step. It is the smaller of the
        two, as std::min gives it. */
    static function PosCorrectCoeff(posCorrectStrength: real, stepTime: real): (r: real)
      requires stepTime != 0.0
      ensures r <= posCorrectStrength * stepTime && r <= 1.0 / stepTime
      ensures r == posCorrectStrength * stepTime || r == 1.0 / stepTime
    {
      if 1.0 / stepTime < posCorrectStrength * stepTime then 1.0 / stepTime else posCorrectStrength * stepTime
    }
  }

  /** A new engine runs the holonomic solver, and its id counter starts above
      the id of a default ConstraintID. */
  lemma DefaultEngineTuning(e: PhysicsEngine)
    requires e.HasDefaultTuning()
    ensures e.UsingHolonomicSystemSolver()
    ensures DefaultConstraintID().uniqueID < e.nextConstraintID
  {
  }

  /** With the default hardness 1000 and step 1/90, contact position correction
      is not capped: the coefficient is 1000/90, below the cap of 90. */
  lemma DefaultContactCorrectionUncapped(e: PhysicsEngine)
    requires e.HasDefaultTuning()
    ensures PhysicsEngine.PosCorrectCoeff(e.contactPosCorrectHardness, e.stepTime) == 100.0 / 9.0
    ensures PhysicsEngine.PosCorrectCoeff(e.contactPosCorrectHardness, e.stepTime) < 1.0 / e.stepTime
  {
    assert 1.0 / e.stepTime == 90.0;
    assert e.contactPosCorrectHardness * e.stepTime == 100.0 / 9.0;
  }

  /** For a positive step, a stronger correction never gives a smaller coefficient. */
  lemma PosCorrectCoeffMonotone(s1: real, s2: real, dt: real)
    requires dt > 0.0 && s1 <= s2
    ensures PhysicsEngine.PosCorrectCoeff(s1, dt) <= PhysicsEngine.PosCorrectCoeff(s2, dt)
  {
    var k := s2 - s1;
    assert k * dt >= 0.0;
    assert s2 * dt == s1 * dt + k * dt;
  }

  /** For a positive step the coefficient saturates at 1/dt exactly when the
      strength reaches 1/dt^2. */
  lemma PosCorrectCoeffSaturates(s: real, dt: real)
    requires dt > 0.0
    ensures PhysicsEngine.PosCorrectCoeff(s, dt) == 1.0 / dt <==> s * dt * dt >= 1.0
  {
    var inv := 1.0 / dt;
    assert inv * dt == 1.0;
    if s * dt * dt >= 1.0 {
      assert s * dt >= inv by {
        assert (s * dt - inv) * dt == s * dt * dt - 1.0;
      }
    } else {
      assert s * dt < inv by {
        assert (s * dt - inv) * dt == s * dt * dt - 1.0;
      }
    }
  }

  /** The wrecking-ball demo asks for 45 velocity and 35 position iterations and
      leaves the holonomic count at its default, so the holonomic solver is on. */
  method ConfigureWreckingBallIterations(p: PhysicsEngine)
    modifies p`pgsVelIterations, p`pgsPosIterations, p`pgsHolonomicIterations
    ensures p.pgsVelIterations == 45 && p.pgsPosIterations == 35 && p.pgsHolonomicIterations == 3
    ensures p.UsingHolonomicSystemSolver()
  {
    p.SetPGSIterations(45, 35);
  }
}

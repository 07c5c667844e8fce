# Constraint graph records and 3x3 matrix algebra of a rigid-body engine

This project models two parts of a C++ rigid-body physics engine and proves
properties of them.

- **The constraint graph records and the engine's solver tuning state**
  (`phyz::PhysicsEngine` in `ConstraintPhysics/src/PhysicsEngine.h`).
  - A `SharedConstraintsEdge` holds every constraint between one pair of bodies. It keeps them in eight lists: contacts, distance, ball-socket, hinge, slider, sliding-hinge, weld and springs.
  - It answers three questions:
    - whether it is empty and can be pruned (`noConstraintsLeft`);
    - whether it takes part in holonomic clustering (`hasHolonomicConstraint`), which only the six joint kinds decide;
    - which endpoint is opposite a given node (`other`), decided by comparing bodies.
  - A `ConstraintGraphNode` is a body together with the edges that touch it.
  - The engine holds iteration counts and tuning constants with in-class defaults. It also has:
    - `setPGSIterations`;
    - the `using_holonomic_system_solver` switch;
    - the capped Baumgarte coefficient `posCorrectCoeff`.
- **`mthz::Mat3`** (`Math/src/Mat3.h`): a 3x3 matrix stored as `double v[3][3]`.
  - Its operations are:
    - the zero, identity and cross-product matrices;
    - the cofactor determinant and the adjugate inverse;
    - matrix-vector and matrix-matrix products and unary minus;
    - the in-place operators `+=`, `*=` (by a matrix and by a scalar) and `/=`.

The model has three modules.

- `Linear` (`linear.dfy`) defines the mathematical values: a `Vec3` and a `Matrix` of reals. Every Mat3 operation is a function on them there. The algebra is proved there: the two-sided inverse, the identity, skew-symmetry, and scaling then dividing.
- `Mthz` (`mat3.dfy`) is the class `Mat3`.
  - Its state is an `array2<real>` field, as in the source.
  - `+=`, unary `-`, the two products, `*=` by a matrix and by a scalar, `/=` and the copy constructor are methods that fill or update that array with the source's nested loops. The loop-free operations follow the source: zero, iden and cross_mat write entries directly; det and `*` by a vector are functions of the held array; inverse writes the adjugate and then applies `/=`.
  - Each operation is proved to produce exactly the corresponding `Linear` function of the old value.
  - The products accumulate `out[i][j] += v[i][k] * m.v[k][j]` in the source's order, and the proof follows that accumulation term by term.
  - `*=` by a matrix goes through a temporary array, so it is proved correct even when the argument is the receiver itself. `+=` is also proved correct when its argument is the receiver.
- `Phyz` (`physics_engine.dfy`) contains:
  - the bodies, graph nodes, edges and the engine, as classes, since the engine updates them in place;
  - the constraint records each edge lists, as datatype values;
  - the edge predicates, as predicates over the lengths of the eight `seq` fields.

Doubles are modelled as Dafny `real`, so the matrix identities hold exactly.

## Model

| member | source | states |
|---|---|---|
| Linear.PartialProductComplete | Math/src/Mat3.h:94-104 | accumulating the three terms a[i][k]*b[k][j] for k = 0, 1, 2, starting from zero, gives entry (i, j) of the matrix product |
| Linear.IdenIsIdentity | Math/src/Mat3.h:35-41 | the identity matrix is a left and right identity of the matrix product and fixes every vector under the matrix-vector product |
| Linear.CrossMatIsSkewCross | Math/src/Mat3.h:43-49 | the cross-product matrix of v is skew-symmetric with a zero diagonal, and multiplying it by w gives the cross product v × w component by component |
| Linear.DetOfIdenAndZero | Math/src/Mat3.h:51-54 | the cofactor determinant is 1 for the identity matrix and 0 for the zero matrix |
| Linear.MulAdjugate | Math/src/Mat3.h:62-64 | a matrix times the adjugate that inverse() writes is its determinant times the identity |
| Linear.AdjugateMul | Math/src/Mat3.h:62-64 | the same adjugate times the matrix is the determinant times the identity |
| Linear.InverseIsInverse | Math/src/Mat3.h:57-68 | when the determinant is non-zero, the adjugate divided by the determinant is both a left and a right inverse |
| Linear.ScaleThenDivide | Math/src/Mat3.h:123-137 | multiplying every entry by a non-zero d and then dividing every entry by d gives back the matrix |
| Linear.AddNegIsZero | Math/src/Mat3.h:76-92 | adding the entry-wise negation of a matrix to it gives the zero matrix |
| Mthz.AccumulateEntry | Math/src/Mat3.h:98-100 | the innermost loop leaves in out[i][j] the sum of a[i][k]*b[k][j] over k = 0, 1, 2, accumulated in that order from zero, and changes no other entry |
| Mthz.MultiplyInto | Math/src/Mat3.h:96-102 | the triple loop fills a zeroed array with exactly the product of the two input matrices |
| Mthz.Mat3.constructor | Math/src/Mat3.h:10-12 | a new matrix holds a fresh 3x3 array of zeros |
| Mthz.Mat3.Copy | Math/src/Mat3.h:13-19 | the copy constructor's loops produce a fresh array equal to the argument, entry by entry |
| Mthz.Mat3.ZeroMat | Math/src/Mat3.h:31-33 | zero() returns a new matrix equal to the zero matrix |
| Mthz.Mat3.IdenMat | Math/src/Mat3.h:35-41 | iden() returns a new matrix equal to the identity |
| Mthz.Mat3.CrossMatOf | Math/src/Mat3.h:43-49 | cross_mat(w) returns a new matrix equal to the skew matrix of w |
| Mthz.Mat3.DetOf | Math/src/Mat3.h:51-54 | det() computed from the nine entries named a to i equals the cofactor determinant of the held matrix |
| Mthz.Mat3.MulVecOf | Math/src/Mat3.h:70-74 | operator*(Vec3) computes the matrix-vector product of the held matrix |
| Mthz.Mat3.InverseOf | Math/src/Mat3.h:57-68 | inverse() writes the adjugate and divides it by the determinant in place. The new matrix is the inverse, and it is a two-sided inverse of the receiver, which does not change |
| Mthz.Mat3.NegOf | Math/src/Mat3.h:84-92 | unary minus returns a new matrix whose every entry is the negation of the receiver's |
| Mthz.Mat3.MulOf | Math/src/Mat3.h:94-104 | operator*(Mat3) returns a new matrix equal to the product of the receiver and the argument |
| Mthz.Mat3.AddAssign | Math/src/Mat3.h:76-82 | += leaves the entry-wise sum of the old receiver and the old argument, also when the argument is the receiver |
| Mthz.Mat3.MulAssign | Math/src/Mat3.h:106-121 | *=(Mat3) leaves the product of the old receiver and the old argument; it writes back only after the temporary is complete, so this holds when the argument is the receiver |
| Mthz.Mat3.ScaleAssign | Math/src/Mat3.h:123-129 | *=(double) leaves every entry multiplied by d and changes nothing but the array |
| Mthz.Mat3.DivAssign | Math/src/Mat3.h:131-137 | /= leaves every entry divided by a non-zero d and changes nothing but the array |
| Mthz.ScaleThenDivideRestores | Math/src/Mat3.h:123-137 | m *= d followed by m /= d, with d non-zero, leaves m as it was |
| Mthz.AddNegationIsZero | Math/src/Mat3.h:76-92 | m += -m leaves the zero matrix |
| Phyz.DefaultConstraintID | ConstraintPhysics/src/PhysicsEngine.h:41-52 | a default-constructed ConstraintID has a negative unique id and no constraint type |
| Phyz.ConstraintGraphNode.constructor | ConstraintPhysics/src/PhysicsEngine.h:474-479 | a new node stores its body and has an empty edge list |
| Phyz.SharedConstraintsEdge.constructor | ConstraintPhysics/src/PhysicsEngine.h:419-436 | a new edge stores its two endpoints and has no holonomic system. It needs no scan, has visited tag 0 and eight empty lists, so it has no constraints left and no holonomic constraint |
| Phyz.SharedConstraintsEdge.Other | ConstraintPhysics/src/PhysicsEngine.h:438 | other(c) is one of the two endpoints: n2 when c's body is n1's body, and n1 for every other node |
| Phyz.SharedConstraintsEdge.NoConstraintsLeft | ConstraintPhysics/src/PhysicsEngine.h:439-448 | the body is the source's conjunction of the eight emptiness tests, in the source's order; its meaning is proved by NoConstraintsLeftIffAllListsEmpty |
| Phyz.SharedConstraintsEdge.HasHolonomicConstraint | ConstraintPhysics/src/PhysicsEngine.h:450-457 | the body is the source's negated conjunction of the six joint-list emptiness tests; its meaning is proved by HasHolonomicIffSomeJointList, HolonomicIgnoresContactsAndSprings and HolonomicEdgeIsNotPrunable |
| Phyz.NoConstraintsLeftIffAllListsEmpty | ConstraintPhysics/src/PhysicsEngine.h:439-448 | noConstraintsLeft() holds exactly when all eight lists (contacts and the seven user constraint kinds) are empty |
| Phyz.HasHolonomicIffSomeJointList | ConstraintPhysics/src/PhysicsEngine.h:450-457 | hasHolonomicConstraint() holds exactly when one of the six joint lists (ball-socket, distance, hinge, slider, sliding-hinge, weld) is non-empty |
| Phyz.HolonomicIgnoresContactsAndSprings | ConstraintPhysics/src/PhysicsEngine.h:450-457 | two edges with the same empty and non-empty joint lists agree on hasHolonomicConstraint(), whatever contacts and springs they hold |
| Phyz.HolonomicEdgeIsNotPrunable | ConstraintPhysics/src/PhysicsEngine.h:439-457 | an edge with a holonomic constraint always has constraints left |
| Phyz.ContactsOrSpringsOnly | ConstraintPhysics/src/PhysicsEngine.h:439-457 | an edge holding only contacts or springs is kept in the graph but is not holonomic |
| Phyz.OtherSwapsEndpoints | ConstraintPhysics/src/PhysicsEngine.h:438 | when the two endpoint bodies differ, other() maps n1 to n2 and n2 to n1, and applying it twice is the identity on both endpoints |
| Phyz.OtherOnSharedBody | ConstraintPhysics/src/PhysicsEngine.h:438 | because bodies are compared rather than nodes, an edge whose two nodes share a body answers n2 for both endpoints |
| Phyz.PhysicsEngine.constructor | ConstraintPhysics/src/PhysicsEngine.h:177-234 | a new engine has the in-class default value of every field the model keeps: 20/15/3 iterations, the AABB-tree broad phase, gravity (0, -6, 0), step 1/90, contact life 6, warm-start coefficient 0.975, empty body lists and maps, next_id at 1, and nextConstraintID and nextActionID at 0 |
| Phyz.PhysicsEngine.UsingHolonomicSystemSolver | ConstraintPhysics/src/PhysicsEngine.h:182 | the body is the source's test that the holonomic iteration count is positive; SetPGSIterations, DefaultEngineTuning and ConfigureWreckingBallIterations state when it holds |
| Phyz.PhysicsEngine.SetPGSIterations | ConstraintPhysics/src/PhysicsEngine.h:94 | sets exactly the three iteration counts, the holonomic one defaulting to 3, and the holonomic solver is on exactly when that count is positive |
| Phyz.PhysicsEngine.PosCorrectCoeff | ConstraintPhysics/src/PhysicsEngine.h:208 | the coefficient is the smaller of strength times step and 1/step: it is at most both and equal to one of them |
| Phyz.DefaultEngineTuning | ConstraintPhysics/src/PhysicsEngine.h:179-182 | with the default iteration counts the holonomic solver is on, and a default ConstraintID's id -1 is below the initial nextConstraintID 0 |
| Phyz.DefaultContactCorrectionUncapped | ConstraintPhysics/src/PhysicsEngine.h:214-217 | posCorrectCoeff at the default contact hardness 1000 and the default step 1/90 is 100/9, below the cap 1/step = 90 |
| Phyz.PosCorrectCoeffMonotone | ConstraintPhysics/src/PhysicsEngine.h:208 | for a positive step the coefficient never decreases as the strength grows |
| Phyz.PosCorrectCoeffSaturates | ConstraintPhysics/src/PhysicsEngine.h:208 | for a positive step the coefficient equals the cap 1/step exactly when strength times step squared is at least 1 |
| Phyz.ConfigureWreckingBallIterations | Demo/src/Demos/WreckingBallDemo.h:34 | the demo's two-argument call setPGSIterations(45, 35) sets the counts to 45, 35 and 3, so the holonomic solver is on, and changes no other engine field |

## Left out

- Floating point: doubles are reals. IEEE rounding, infinities and NaN are not modelled, so the matrix identities hold exactly here and only approximately in the engine.
- Mthz.Mat3.DivAssign: requires d != 0. The source divides without a guard, and a zero divisor gives infinities or NaN, which reals cannot express.
- Mthz.Mat3.InverseOf: requires a non-zero determinant for the same reason. The source divides by the determinant unchecked.
- Phyz.PhysicsEngine.PosCorrectCoeff: requires a non-zero step, so the model drops the step-0 case. There the source computes 1.0/0 = +inf and std::min(s*0, +inf) returns 0; reals have no infinity.
- Mat3::toNMat: NMat is not part of this model.
- The out-of-class operators declared after Mat3 (scalar products, division, sum and difference of two Mat3) have only declarations in the header, so they are not modelled.
- getCutoffVel: it needs the magnitude of the gravity vector, a square root.
- The engine operations whose bodies live in source files not part of this model are not modelled: timeStep, the island BFS, holonomic clustering and shattering, addContact, getOrCreateEdgeTo/insertNewEdge, the sleep checks, fetchMotor/fetchPiston and the Motor/Piston methods. The same goes for the HolonomicSystemNodes and RigidBody constructors and the edge and node destructors. The data fields of edges and nodes are modelled; these algorithms are not.
- The inline getters getNumBodies, getGravity and getStep_time each return a field and are not modelled separately. The other setters (setGravity, setBroadphase, setStep_time, ...) are only declared in the header, so their bodies are not part of this model.
- Phyz.DefaultConstraintID: the source's default constructor sets uniqueID to -1 but never initialises `type`, so getType on a default handle reads an indeterminate value. The model's `kind` uses None for that unset type; this value is the model's own, not the source's. ConstraintID::getType is the `kind` field.
- The engine fields holonomic_systems (solver objects of type HolonomicSystem) and aabb_tree (a broad-phase structure) are not fields of the model's PhysicsEngine, and the `system` field of HolonomicSystemNodes (also a HolonomicSystem solver object) is not a field of the model's HolonomicSystemNodes; recalculateSystem, which rebuilds it, is only declared. Neither are the collision-action maps get_action_map and col_actions. bodies and bodies_to_delete are kept, as sequences that start empty.
- The solver objects embedded in the constraint records (ContactConstraint, DistanceConstraint, Motor, the magic IDs, ...) are not modelled. Each record keeps its plain data fields.
- Pointers: the edge lists hold record values instead of pointers to shared records, so a change to a record made through another pointer is not modelled. Bodies, nodes and edges are objects, compared by identity as in the source.
- Concurrency: the mutexes, the thread pool and the multithreading flags are not modelled.
- Collision-action callbacks (`std::function` closures), the broad-phase structures, raycasts and geometry are outside the model. The broad phase appears only as its enumeration.
- Integer widths: `next_id` is unsigned and the iteration counts are `int`. Both are unbounded here; no overflow can arise in the operations modelled.

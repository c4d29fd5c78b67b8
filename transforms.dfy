/**
 * The transform state a MeshModel keeps, as a value, with one function per setter of
 * MeshModel.cpp and the product MeshModel::transform multiplies out.
 *
 * glm's 4x4 float matrices are modelled as words over the factors glm builds them from
 * (translate, scale, rotate): the identity is the empty word and the product is
 * concatenation. Matrix multiplication is associative with the identity as its unit, so
 * every equation proved here between words also holds between the matrices they stand
 * for. Apply gives a word's action on a homogeneous vector: translation and scaling are
 * written out, and rotation is a parameter, since glm::rotate's trigonometry is not part
 * of the model.
 */
module Transforms {
  /** glm::vec3. */
  datatype Vec3 = Vec3(x: real, y: real, z: real)

  /** glm::vec4, a homogeneous vector: w == 1 for a point, w == 0 for a direction. */
  datatype Vec4 = Vec4(x: real, y: real, z: real, w: real)

  /** The matrices glm builds for MeshModel. */
  datatype Factor =
    | Translate(offset: Vec3)            // glm::translate(offset)
    | Scale(factors: Vec3)               // glm::scale(factors)
    | Rotate(degrees: real, axis: Vec3)  // glm::rotate(degrees * pi / 180, axis)

  /** A glm::mat4 as the product of the factors it was built from, leftmost first. */
  type Mat = seq<Factor>

  /** glm::mat4(1.0f). */
  const Identity: Mat := []

  /** The matrix product a * b. */
  function Mul(a: Mat, b: Mat): (m: Mat)
  {
    a + b
  }

  /** What glm::rotate(degrees * pi / 180, axis) does to a vector. */
  type Rotation = (real, Vec3, Vec4) -> Vec4

  /** One factor times a vector. */
  function ApplyFactor(f: Factor, v: Vec4, rotation: Rotation): (w: Vec4)
  {
    match f
    case Translate(t) => Vec4(v.x + t.x * v.w, v.y + t.y * v.w, v.z + t.z * v.w, v.w)
    case Scale(s) => Vec4(s.x * v.x, s.y * v.y, s.z * v.z, v.w)
    case Rotate(degrees, axis) => rotation(degrees, axis, v)
  }

  /** m * v: the rightmost factor acts first. */
  function Apply(m: Mat, v: Vec4, rotation: Rotation): (w: Vec4)
    decreases |m|
  {
    if m == [] then v else ApplyFactor(m[0], Apply(m[1..], v, rotation), rotation)
  }

  /** (a * b) * v == a * (b * v): a product acts as its right factor followed by its left one. */
  lemma {:induction false} ApplyMul(a: Mat, b: Mat, v: Vec4, rotation: Rotation)
    ensures Apply(Mul(a, b), v, rotation) == Apply(a, Apply(b, v, rotation), rotation)
    decreases |a|
  {
    if a != [] {
      var ab := Mul(a, b);
      assert ab != [] && ab[0] == a[0] && ab[1..] == Mul(a[1..], b);
      ApplyMul(a[1..], b, v, rotation);
    } else {
      assert Mul(a, b) == b;
    }
  }

  /** The per-model transform fields of MeshModel.h. */
  datatype TransformState = TransformState(
    localScale: Mat, localTranslate: Mat, localRotX: Mat, localRotY: Mat, localRotZ: Mat,
    worldScale: Mat, worldTranslate: Mat, worldRotX: Mat, worldRotY: Mat, worldRotZ: Mat,
    localTransform: Mat, worldTransform: Mat,
    modelCenter: Vec3, newModelCenter: Vec3)

  /** The centre of the 1880 x 1320 window, by integer division: (940, 660, 0). */
  const WindowCenter: Vec3 := Vec3((1880 / 2) as real, (1320 / 2) as real, 0.0)

  /**
   * The axes rotateWorldlX and rotateWorldY pass to glm::rotate: (1880 / 2, 0, 0) and
   * (0, 1320 / 2, 0). The argument is unnormalised, but glm::rotate normalises its axis, so
   * these are plain rotations about x and y.
   */
  const WorldAxisX: Vec3 := Vec3((1880 / 2) as real, 0.0, 0.0)
  const WorldAxisY: Vec3 := Vec3(0.0, (1320 / 2) as real, 0.0)

  /** The default member initialisers: every matrix the identity, both centres at the window centre. */
  const Initial: TransformState := TransformState(
    Identity, Identity, Identity, Identity, Identity,
    Identity, Identity, Identity, Identity, Identity,
    Identity, Identity,
    WindowCenter, WindowCenter)

  /** The composed matrices agree with their components: local == scale * translate, and likewise world. */
  predicate Composed(s: TransformState)
  {
    && s.localTransform == Mul(s.localScale, s.localTranslate)
    && s.worldTransform == Mul(s.worldScale, s.worldTranslate)
  }

  /** updateLocal. */
  function UpdateLocal(s: TransformState): (r: TransformState)
  {
    s.(localTransform := Mul(s.localScale, s.localTranslate))
  }

  /** updateWorld. */
  function UpdateWorld(s: TransformState): (r: TransformState)
  {
    s.(worldTransform := Mul(s.worldScale, s.worldTranslate))
  }

  /** translateLocal: the translation matrix is replaced, while z is added to the centre's y. */
  function TranslateLocal(s: TransformState, x: real, y: real, z: real): (r: TransformState)
  {
    var c := s.modelCenter;
    UpdateLocal(s.(localTranslate := [Translate(Vec3(x, y, z))], modelCenter := Vec3(c.x + x, c.y + y + z, c.z)))
  }

  /** scaleLocal: a uniform scale by x; y is not used. */
  function ScaleLocal(s: TransformState, x: real, y: real): (r: TransformState)
  {
    UpdateLocal(s.(localScale := [Scale(Vec3(x, x, x))]))
  }

  /** rotateLocalX. */
  function RotateLocalX(s: TransformState, degrees: real): (r: TransformState)
  {
    s.(localRotX := [Rotate(degrees, Vec3(1.0, 0.0, 0.0))])
  }

  /** rotateLocalY. */
  function RotateLocalY(s: TransformState, degrees: real): (r: TransformState)
  {
    s.(localRotY := [Rotate(degrees, Vec3(0.0, 1.0, 0.0))])
  }

  /** rotateLocalZ. */
  function RotateLocalZ(s: TransformState, degrees: real): (r: TransformState)
  {
    s.(localRotZ := [Rotate(degrees, Vec3(0.0, 0.0, 1.0))])
  }

  /** translateWorld. */
  function TranslateWorld(s: TransformState, x: real, y: real, z: real): (r: TransformState)
  {
    UpdateWorld(s.(worldTranslate := [Translate(Vec3(x, y, z))]))
  }

  /** scaleWorld: a uniform scale by x; y is not used. */
  function ScaleWorld(s: TransformState, x: real, y: real): (r: TransformState)
  {
    UpdateWorld(s.(worldScale := [Scale(Vec3(x, x, x))]))
  }

  /** rotateWorldlX: a rotation about WorldAxisX. */
  function RotateWorldX(s: TransformState, degrees: real): (r: TransformState)
  {
    s.(worldRotX := [Rotate(degrees, WorldAxisX)])
  }

  /** rotateWorldY: a rotation about WorldAxisY. */
  function RotateWorldY(s: TransformState, degrees: real): (r: TransformState)
  {
    s.(worldRotY := [Rotate(degrees, WorldAxisY)])
  }

  /** rotateWorldZ. */
  function RotateWorldZ(s: TransformState, degrees: real): (r: TransformState)
  {
    s.(worldRotZ := [Rotate(degrees, Vec3(0.0, 0.0, 1.0))])
  }

  /** The product MeshModel::transform multiplies a vector by, associated from the left as written. */
  function TransformMatrix(s: TransformState): (m: Mat)
  {
    Mul(Mul(Mul(Mul(Mul(Mul(Mul(
      s.worldTransform, s.worldRotX), s.worldRotY), s.worldRotZ),
      s.localTransform), s.localRotX), s.localRotY), s.localRotZ)
  }

  /**
   * The order of transform: the local rotations act first (z, then y, then x), then the
   * local transform, then the world rotations (z, y, x), then the world transform.
   */
  lemma {:induction false} TransformOrder(s: TransformState, v: Vec4, rotation: Rotation)
    ensures Apply(TransformMatrix(s), v, rotation) ==
      Apply(s.worldTransform, Apply(s.worldRotX, Apply(s.worldRotY, Apply(s.worldRotZ,
        Apply(s.localTransform, Apply(s.localRotX, Apply(s.localRotY, Apply(s.localRotZ, v, rotation),
        rotation), rotation), rotation), rotation), rotation), rotation), rotation)
  {
    var m1 := Mul(s.worldTransform, s.worldRotX);
    var m2 := Mul(m1, s.worldRotY);
    var m3 := Mul(m2, s.worldRotZ);
    var m4 := Mul(m3, s.localTransform);
    var m5 := Mul(m4, s.localRotX);
    var m6 := Mul(m5, s.localRotY);
    var v1 := Apply(s.localRotZ, v, rotation);
    var v2 := Apply(s.localRotY, v1, rotation);
    var v3 := Apply(s.localRotX, v2, rotation);
    var v4 := Apply(s.localTransform, v3, rotation);
    var v5 := Apply(s.worldRotZ, v4, rotation);
    var v6 := Apply(s.worldRotY, v5, rotation);
    ApplyMul(m6, s.localRotZ, v, rotation);
    ApplyMul(m5, s.localRotY, v1, rotation);
    ApplyMul(m4, s.localRotX, v2, rotation);
    ApplyMul(m3, s.localTransform, v3, rotation);
    ApplyMul(m2, s.worldRotZ, v4, rotation);
    ApplyMul(m1, s.worldRotY, v5, rotation);
    ApplyMul(s.worldTransform, s.worldRotX, v6, rotation);
  }

  /**
   * With the composed matrices in step, transform scales after it translates, locally and
   * in the world: the local scale also scales the local translation.
   */
  lemma ComposedOrder(s: TransformState, v: Vec4, rotation: Rotation)
    requires Composed(s)
    ensures Apply(s.localTransform, v, rotation) == Apply(s.localScale, Apply(s.localTranslate, v, rotation), rotation)
    ensures Apply(s.worldTransform, v, rotation) == Apply(s.worldScale, Apply(s.worldTranslate, v, rotation), rotation)
  {
    ApplyMul(s.localScale, s.localTranslate, v, rotation);
    ApplyMul(s.worldScale, s.worldTranslate, v, rotation);
  }

  /** A fresh model's composed matrices agree with their components, and its transform is the identity. */
  lemma {:induction false} InitialState(v: Vec4, rotation: Rotation)
    ensures Composed(Initial)
    ensures Initial.modelCenter == Initial.newModelCenter == Vec3(940.0, 660.0, 0.0)
    ensures Apply(TransformMatrix(Initial), v, rotation) == v
  {
    TransformOrder(Initial, v, rotation);
  }

  /** Every setter keeps the composed matrices in step with their components. */
  lemma SettersKeepComposed(s: TransformState, x: real, y: real, z: real)
    requires Composed(s)
    ensures Composed(TranslateLocal(s, x, y, z)) && Composed(ScaleLocal(s, x, y))
    ensures Composed(TranslateWorld(s, x, y, z)) && Composed(ScaleWorld(s, x, y))
    ensures Composed(RotateLocalX(s, x)) && Composed(RotateLocalY(s, x)) && Composed(RotateLocalZ(s, x))
    ensures Composed(RotateWorldX(s, x)) && Composed(RotateWorldY(s, x)) && Composed(RotateWorldZ(s, x))
  {
  }

  /**
   * Each rotate setter replaces its own axis matrix and nothing else: restoring that one
   * field gives back the old state, so the composed matrices and the centre are untouched.
   */
  lemma RotateSettersKeepRest(s: TransformState, degrees: real)
    ensures RotateLocalX(s, degrees).(localRotX := s.localRotX) == s
    ensures RotateLocalY(s, degrees).(localRotY := s.localRotY) == s
    ensures RotateLocalZ(s, degrees).(localRotZ := s.localRotZ) == s
    ensures RotateWorldX(s, degrees).(worldRotX := s.worldRotX) == s
    ensures RotateWorldY(s, degrees).(worldRotY := s.worldRotY) == s
    ensures RotateWorldZ(s, degrees).(worldRotZ := s.worldRotZ) == s
  {
  }

  /** Setting a rotation twice is setting it once with the last angle. */
  lemma RotateSettersOverwrite(s: TransformState, first: real, last: real)
    ensures RotateLocalX(RotateLocalX(s, first), last) == RotateLocalX(s, last)
    ensures RotateLocalY(RotateLocalY(s, first), last) == RotateLocalY(s, last)
    ensures RotateLocalZ(RotateLocalZ(s, first), last) == RotateLocalZ(s, last)
    ensures RotateWorldX(RotateWorldX(s, first), last) == RotateWorldX(s, last)
    ensures RotateWorldY(RotateWorldY(s, first), last) == RotateWorldY(s, last)
    ensures RotateWorldZ(RotateWorldZ(s, first), last) == RotateWorldZ(s, last)
  {
  }

  /** The scale setters build the uniform scale (x, x, x): their second argument has no effect. */
  lemma ScaleIgnoresSecondArgument(s: TransformState, x: real, y: real, y': real)
    ensures ScaleLocal(s, x, y) == ScaleLocal(s, x, y')
    ensures ScaleWorld(s, x, y) == ScaleWorld(s, x, y')
    ensures ScaleLocal(s, x, y).localScale == ScaleWorld(s, x, y).worldScale == [Scale(Vec3(x, x, x))]
  {
  }

  /**
   * The world setters change only the world component they set and worldTransformMat; the
   * local ones change only their component, localTransformMat and, for translateLocal,
   * the centre.
   */
  lemma SettersKeepOtherSide(s: TransformState, x: real, y: real, z: real)
    ensures TranslateWorld(s, x, y, z).(worldTranslate := s.worldTranslate, worldTransform := s.worldTransform) == s
    ensures ScaleWorld(s, x, y).(worldScale := s.worldScale, worldTransform := s.worldTransform) == s
    ensures TranslateLocal(s, x, y, z).(localTranslate := s.localTranslate, localTransform := s.localTransform,
      modelCenter := s.modelCenter) == s
    ensures ScaleLocal(s, x, y).(localScale := s.localScale, localTransform := s.localTransform) == s
  {
  }

  /**
   * The translate and scale setters replace their matrix: a second call forgets the first.
   * The centre does not forget: two translateLocal calls move it by both offsets, x into
   * its x, y and z into its y, and nothing into its z.
   */
  lemma TranslateAndScaleOverwrite(s: TransformState, x1: real, y1: real, z1: real, x2: real, y2: real, z2: real)
    ensures ScaleLocal(ScaleLocal(s, x1, y1), x2, y2) == ScaleLocal(s, x2, y2)
    ensures ScaleWorld(ScaleWorld(s, x1, y1), x2, y2) == ScaleWorld(s, x2, y2)
    ensures TranslateWorld(TranslateWorld(s, x1, y1, z1), x2, y2, z2) == TranslateWorld(s, x2, y2, z2)
    ensures var t := TranslateLocal(TranslateLocal(s, x1, y1, z1), x2, y2, z2);
      && t.(modelCenter := s.modelCenter) == TranslateLocal(s, x2, y2, z2).(modelCenter := s.modelCenter)
      && t.modelCenter == Vec3(s.modelCenter.x + x1 + x2, s.modelCenter.y + y1 + z1 + y2 + z2, s.modelCenter.z)
  {
  }

  /**
   * On a fresh model, translateLocal(t) and then scaleLocal(a) send a point p to a * (p + t):
   * the translation acts first and is scaled with the model.
   */
  lemma {:induction false} ScaleAfterTranslateLocal(t: Vec3, a: real, b: real, p: Vec3, rotation: Rotation)
    ensures var s := ScaleLocal(TranslateLocal(Initial, t.x, t.y, t.z), a, b);
      Apply(TransformMatrix(s), Vec4(p.x, p.y, p.z, 1.0), rotation) ==
        Vec4(a * (p.x + t.x), a * (p.y + t.y), a * (p.z + t.z), 1.0)
  {
    var s := ScaleLocal(TranslateLocal(Initial, t.x, t.y, t.z), a, b);
    var v := Vec4(p.x, p.y, p.z, 1.0);
    TransformOrder(s, v, rotation);
    ComposedOrder(s, v, rotation);
  }
}

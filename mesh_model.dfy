/**
 * MeshModel: a mesh's geometry, fixed at construction and read through getters, and the
 * transform fields its setters overwrite. Each setter is proved to take the state to the
 * matching function of Transforms, where the properties of the setters are proved.
 */
module Meshes {
  import opened Transforms

  /** A triangle of the mesh: indices of its vertices and normals, 1-based as in the OBJ format. */
  datatype Face = Face(vertexIndices: seq<int>, normalIndices: seq<int>)

  class MeshModel {
    /** The geometry is private and only read after construction. */
    const faces: seq<Face>
    const vertices: seq<Vec3>
    const normals: seq<Vec3>
    /** The constructor never stores its model_name argument, so the name keeps its default, "". */
    const modelName: string := ""

    var worldTransformMat: Mat
    var localTransformMat: Mat
    var modelCenter: Vec3
    var newModelCenter: Vec3
    var localScaleMat: Mat
    var localTranslateMat: Mat
    var localRotationMatX: Mat
    var localRotationMatY: Mat
    var localRotationMatZ: Mat
    var worldScaleMat: Mat
    var worldTranslateMat: Mat
    var worldRotationMatX: Mat
    var worldRotationMatY: Mat
    var worldRotationMatZ: Mat

    /** The transform fields as a value. */
    ghost function State(): (s: TransformState)
      reads this
    {
      TransformState(
        localScaleMat, localTranslateMat, localRotationMatX, localRotationMatY, localRotationMatZ,
        worldScaleMat, worldTranslateMat, worldRotationMatX, worldRotationMatY, worldRotationMatZ,
        localTransformMat, worldTransformMat,
        modelCenter, newModelCenter)
    }

    /** Stores the geometry; every transform field takes its default initialiser. */
    constructor (faces: seq<Face>, vertices: seq<Vec3>, normals: seq<Vec3>, modelName: string)
      ensures this.faces == faces && this.vertices == vertices && this.normals == normals
      ensures this.modelName == ""
      ensures State() == Initial
    {
      this.faces := faces;
      this.vertices := vertices;
      this.normals := normals;
      worldTransformMat := Identity;
      localTransformMat := Identity;
      modelCenter := WindowCenter;
      newModelCenter := WindowCenter;
      localScaleMat := Identity;
      localTranslateMat := Identity;
      localRotationMatX := Identity;
      localRotationMatY := Identity;
      localRotationMatZ := Identity;
      worldScaleMat := Identity;
      worldTranslateMat := Identity;
      worldRotationMatX := Identity;
      worldRotationMatY := Identity;
      worldRotationMatZ := Identity;
    }

    /** faces[index], unchecked in the source: the index must be in range. */
    function GetFace(index: int): (face: Face)
      requires 0 <= index < |faces|
      ensures face in faces && face == faces[index]
    {
      faces[index]
    }

    /** The number of faces. */
    function GetFacesCount(): (count: int)
      ensures count == |faces|
    {
      |faces|
    }

    /** The number of vertices. */
    function GetVerticesCount(): (count: int)
      ensures count == |vertices|
    {
      |vertices|
    }

    /** vertices[i], unchecked in the source: the index must be in range. */
    function GetVertex(i: int): (vertex: Vec3)
      requires 0 <= i < |vertices|
      ensures vertex in vertices && vertex == vertices[i]
    {
      vertices[i]
    }

    /** The model's name, which the constructor leaves empty. */
    function GetModelName(): (name: string)
      ensures name == ""
    {
      modelName
    }

    /** localTransformMat := localScaleMat * localTranslateMat. */
    method UpdateLocal()
      modifies this
      ensures State() == Transforms.UpdateLocal(old(State()))
    {
      localTransformMat := Mul(localScaleMat, localTranslateMat);
    }

    /** worldTransformMat := worldScaleMat * worldTranslateMat. */
    method UpdateWorld()
      modifies this
      ensures State() == Transforms.UpdateWorld(old(State()))
    {
      worldTransformMat := Mul(worldScaleMat, worldTranslateMat);
    }

    method TranslateLocal(x: real, y: real, z: real)
      modifies this
      ensures State() == Transforms.TranslateLocal(old(State()), x, y, z)
    {
      localTranslateMat := [Translate(Vec3(x, y, z))];
      modelCenter := modelCenter.(x := modelCenter.x + x);
      modelCenter := modelCenter.(y := modelCenter.y + y);
      modelCenter := modelCenter.(y := modelCenter.y + z);
      UpdateLocal();
    }

    method ScaleLocal(x: real, y: real)
      modifies this
      ensures State() == Transforms.ScaleLocal(old(State()), x, y)
    {
      localScaleMat := [Scale(Vec3(x, x, x))];
      UpdateLocal();
    }

    method RotateLocalX(x: real)
      modifies this
      ensures State() == Transforms.RotateLocalX(old(State()), x)
    {
      localRotationMatX := [Rotate(x, Vec3(1.0, 0.0, 0.0))];
    }

    method RotateLocalY(x: real)
      modifies this
      ensures State() == Transforms.RotateLocalY(old(State()), x)
    {
      localRotationMatY := [Rotate(x, Vec3(0.0, 1.0, 0.0))];
    }

    method RotateLocalZ(x: real)
      modifies this
      ensures State() == Transforms.RotateLocalZ(old(State()), x)
    {
      localRotationMatZ := [Rotate(x, Vec3(0.0, 0.0, 1.0))];
    }

    method TranslateWorld(x: real, y: real, z: real)
      modifies this
      ensures State() == Transforms.TranslateWorld(old(State()), x, y, z)
    {
      worldTranslateMat := [Translate(Vec3(x, y, z))];
      UpdateWorld();
    }

    method ScaleWorld(x: real, y: real)
      modifies this
      ensures State() == Transforms.ScaleWorld(old(State()), x, y)
    {
      worldScaleMat := [Scale(Vec3(x, x, x))];
      UpdateWorld();
    }

    /** rotateWorldlX in the source. */
    method RotateWorldX(x: real)
      modifies this
      ensures State() == Transforms.RotateWorldX(old(State()), x)
    {
      worldRotationMatX := [Rotate(x, WorldAxisX)];
    }

    method RotateWorldY(x: real)
      modifies this
      ensures State() == Transforms.RotateWorldY(old(State()), x)
    {
      worldRotationMatY := [Rotate(x, WorldAxisY)];
    }

    method RotateWorldZ(x: real)
      modifies this
      ensures State() == Transforms.RotateWorldZ(old(State()), x)
    {
      worldRotationMatZ := [Rotate(x, Vec3(0.0, 0.0, 1.0))];
    }

    /**
     * The model's transform applied to v: the product of the eight matrices in the source's
     * order, acting as the local rotations (z, y, x), then localTransformMat, then the world
     * rotations (z, y, x), then worldTransformMat. The state is not changed.
     */
    method Transform(v: Vec4, rotation: Rotation) returns (r: Vec4)
      ensures r == Apply(worldTransformMat, Apply(worldRotationMatX, Apply(worldRotationMatY,
        Apply(worldRotationMatZ, Apply(localTransformMat, Apply(localRotationMatX,
        Apply(localRotationMatY, Apply(localRotationMatZ, v, rotation), rotation), rotation),
        rotation), rotation), rotation), rotation), rotation)
    {
      var m := Mul(Mul(Mul(Mul(Mul(Mul(Mul(worldTransformMat, worldRotationMatX), worldRotationMatY),
        worldRotationMatZ), localTransformMat), localRotationMatX), localRotationMatY), localRotationMatZ);
      r := Apply(m, v, rotation);
      TransformOrder(State(), v, rotation);
    }
  }
}

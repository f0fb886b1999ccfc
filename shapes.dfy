/** Size and shape rules applied when the main mesh is built: the panel
    width clamp, the plane's tessellation, the curved panel's guarded radius,
    the cube's six materials and the fixed sphere and torus proportions. */
module Shapes {
  import opened Options

  /** Height of every shape, in world units. */
  const PanelHeight: real := 3.2
  const MinPanelWidth: real := 2.0
  const MaxPanelWidth: real := 6.2
  /** Plane segments per world unit. */
  const SegmentsPerUnit: real := 40.0
  /** Math.PI, the double nearest to pi, written as its shortest decimal. */
  const Pi: real := 3.141592653589793
  /** Floor of the curved panel's angle when its radius is computed. */
  const MinTheta: real := 0.0001

  type TextureId = nat

  /** Colours are scales of white: the default colour of a material is 1.0. */
  const White: real := 1.0
  /** Shade of the cube's five side faces. */
  const FaceShade: real := 0.9

  /** The five surfaces offered by the shape selector. */
  datatype ShapeKind = Plane | Curved | Cube | Sphere | Torus

  /** The selector value for each shape. */
  function ShapeName(k: ShapeKind): string
  {
    match k
    case Plane => "plane"
    case Curved => "curved"
    case Cube => "cube"
    case Sphere => "sphere"
    case Torus => "torus"
  }

  /** The string comparisons of the build: any other selector value builds nothing. */
  function ParseShape(s: string): (k: Option<ShapeKind>)
    ensures k.Some? ==> ShapeName(k.value) == s
  {
    if s == "plane" then Some(Plane)
    else if s == "curved" then Some(Curved)
    else if s == "cube" then Some(Cube)
    else if s == "sphere" then Some(Sphere)
    else if s == "torus" then Some(Torus)
    else None
  }

  lemma ParseShapeName(k: ShapeKind)
    ensures ParseShape(ShapeName(k)) == Some(k)
  {
  }

  /** Panel width for an image of the given aspect: the height times the aspect,
      clamped to [2.0, 6.2]. */
  function PanelWidth(aspect: real): (w: real)
    ensures MinPanelWidth <= w <= MaxPanelWidth
    ensures MinPanelWidth <= PanelHeight * aspect <= MaxPanelWidth ==> w == PanelHeight * aspect
    ensures PanelHeight * aspect < MinPanelWidth ==> w == MinPanelWidth
    ensures PanelHeight * aspect > MaxPanelWidth ==> w == MaxPanelWidth
  {
    var ideal := PanelHeight * aspect;
    if ideal > MaxPanelWidth then MaxPanelWidth
    else if ideal < MinPanelWidth then MinPanelWidth
    else ideal
  }

  /** Math.ceil on exact reals: the least integer not below x. */
  function Ceil(x: real): (n: int)
    ensures n as real - 1.0 < x <= n as real
  {
    -((-x).Floor)
  }

  /** Parameters of the plane geometry: its size and its segment counts. */
  datatype PlaneGrid = PlaneGrid(width: real, height: real, widthSegments: nat, heightSegments: nat)
  {
    /** Vertices per row and per column of the grid. */
    function Columns(): nat { widthSegments + 1 }
    function Rows(): nat { heightSegments + 1 }
  }

  /** The plane built for a panel of width w: ceil(40 w) by ceil(40 h) segments. */
  function PlaneGridFor(w: real): (g: PlaneGrid)
    requires MinPanelWidth <= w <= MaxPanelWidth
    ensures g.width == w && g.height == PanelHeight
    ensures g.widthSegments as real - 1.0 < w * SegmentsPerUnit <= g.widthSegments as real
    ensures 80 <= g.widthSegments <= 248 && g.heightSegments == 128
  {
    PlaneGrid(w, PanelHeight, Ceil(w * SegmentsPerUnit), Ceil(PanelHeight * SegmentsPerUnit))
  }

  /** Every plane built from an image has at least 81 columns and exactly 129 rows,
      so the divisors columns - 1 and rows - 1 of the normalised coordinates are positive. */
  lemma PlaneGridDivisors(aspect: real)
    ensures PlaneGridFor(PanelWidth(aspect)).Columns() >= 81
    ensures PlaneGridFor(PanelWidth(aspect)).Rows() == 129
    ensures PlaneGridFor(PanelWidth(aspect)).Columns() - 1 > 0
  {
  }

  /** Radius of the curved panel, w / max(0.0001, pi * curve): positive and finite
      for every curve value, and where the angle is not guarded the arc spanned by
      the angle has length w. */
  function CurvedRadius(w: real, curve: real): (radius: real)
    requires w > 0.0
    ensures 0.0 < radius <= w / MinTheta
    ensures Pi * curve >= MinTheta ==> radius * (Pi * curve) == w
    ensures Pi * curve <= MinTheta ==> radius == w / MinTheta
  {
    var theta := Pi * curve;
    var guarded := if theta > MinTheta then theta else MinTheta;
    DivAntitone(w, MinTheta, guarded);
    w / guarded
  }

  /** Dividing by a larger positive number gives a smaller positive result. */
  lemma DivAntitone(w: real, a: real, b: real)
    requires w > 0.0 && 0.0 < a <= b
    ensures 0.0 < w / b <= w / a
  {
    assert w / b * b == w && w / a * a == w;
    assert (w / b) * a <= (w / b) * b;
  }

  /** Geometry parameters of the four non-plane shapes. */
  datatype Solid =
    | Cylinder(radiusTop: real, radiusBottom: real, height: real, radialSegments: nat,
               heightSegments: nat, openEnded: bool, thetaStart: real, thetaLength: real)
    | Box(width: real, height: real, depth: real)
    | Ball(radius: real, widthSegments: nat, heightSegments: nat)
    | Ring(radius: real, tube: real, radialSegments: nat, tubularSegments: nat)

  /** Geometry of a non-plane shape for a panel of width w and a curve factor. */
  function SolidFor(k: ShapeKind, w: real, curve: real): (s: Solid)
    requires k != Plane && w > 0.0
    // curved: an open wall of the guarded radius, centred on its bisector, spanning pi * curve
    ensures k == Curved ==> (s.Cylinder? && s.openEnded && s.radiusTop == s.radiusBottom
      && s.radiusTop == CurvedRadius(w, curve) && s.height == PanelHeight
      && s.thetaLength == Pi * curve && s.thetaStart + s.thetaLength / 2.0 == 0.0)
    // cube: six equal square faces of side h
    ensures k == Cube ==> s.Box? && s.width == s.height == s.depth == PanelHeight
    // sphere of diameter 5.248, torus of outer radius 2.64
    ensures k == Sphere ==> s.Ball? && 2.0 * s.radius == 5.248
    ensures k == Torus ==> s.Ring? && s.radius + s.tube == 2.64 && s.tube == 0.4
  {
    match k
    case Curved =>
      var theta := Pi * curve;
      var radius := CurvedRadius(w, curve);
      Cylinder(radius, radius, PanelHeight, 96, 1, true, -theta / 2.0, theta)
    case Cube => Box(PanelHeight, PanelHeight, PanelHeight)
    case Sphere => Ball(PanelHeight * 0.82, 64, 48)
    case Torus => Ring(PanelHeight * 0.7, 0.4, 64, 120)
  }

  /** A standard material: its texture map, its colour as a scale of white,
      roughness, metalness and whether both sides are drawn. */
  datatype Material = Material(texture: TextureId, color: real, roughness: real,
                               metalness: real, doubleSided: bool)

  /** The matte, double-sided material every shape is built with. */
  function BaseMaterial(tex: TextureId): (m: Material)
    ensures m.texture == tex && m.color == 1.0 && m.doubleSided
  {
    Material(tex, White, 0.7, 0.05, true)
  }

  /** The cube's six face materials: clones of the base material on the same
      texture, all darkened to 90% except face 4, which keeps the base colour. */
  method CubeMaterials(tex: TextureId) returns (mats: seq<Material>)
    ensures |mats| == 6
    ensures forall i :: 0 <= i < 6 ==> mats[i].texture == tex
    ensures forall i :: 0 <= i < 6 ==> (mats[i].color == BaseMaterial(tex).color <==> i == 4)
    ensures forall i :: 0 <= i < 6 && i != 4 ==> mats[i].color == FaceShade * BaseMaterial(tex).color
    ensures forall i :: 0 <= i < 6 ==> mats[i] == BaseMaterial(tex).(color := mats[i].color)
  {
    var base := BaseMaterial(tex);
    mats := [];
    for i := 0 to 6
      invariant |mats| == i
      invariant forall j :: 0 <= j < i ==> mats[j] == base.(color := if j == 4 then base.color else White * FaceShade)
    {
      var m := base;
      if i != 4 {
        m := m.(color := White * FaceShade);
      }
      mats := mats + [m];
    }
  }
}

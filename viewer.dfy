/** The viewer's resource slots: the uploaded image, the main mesh, the image
    texture and the scene they are attached to. It covers building the mesh
    (with the displacement of the plane), re-running the displacement, disposing
    a mesh, going back to the upload view and clearing the image. Geometries
    and textures are opaque ids; disposing a mesh disposes its geometry and
    materials. */
module Viewer {
  import opened Options
  import opened Crop
  import opened Displace
  import opened Shapes

  type MeshId = nat

  /** A decoded image: the URL it was loaded from and its natural size in pixels. */
  datatype Image = Image(src: string, width: int, height: int)

  predicate HasSize(img: Image) { img.width > 0 && img.height > 0 }

  /** src.startsWith("http"): images fetched from a server cannot be read back from a canvas. */
  predicate IsRemote(img: Image) { |img.src| >= 4 && img.src[..4] == "http" }

  function Aspect(img: Image): real
    requires HasSize(img)
  {
    img.width as real / img.height as real
  }

  /** The plane built for an image: its width follows the image's aspect. */
  function PlaneFor(img: Image): (g: PlaneGrid)
    requires HasSize(img)
    ensures g.Columns() >= 81 && g.Rows() == 129
  {
    PlaneGridFor(PanelWidth(Aspect(img)))
  }

  /** Number of RGBA bytes the canvas yields for an image's plane: four per vertex. */
  function SampleBytes(img: Image): nat
    requires HasSize(img)
  {
    PlaneFor(img).Columns() * PlaneFor(img).Rows() * 4
  }

  /** Position of slot k of a plane's vertex buffer as the plane geometry lays it out:
      vertex k / 3 at column (k / 3) % columns and row (k / 3) / columns, x growing to
      the right from -width / 2, y falling from height / 2, z zero. */
  function PlaneLayout(g: PlaneGrid, k: int): real
    requires g.widthSegments > 0 && g.heightSegments > 0
  {
    var v := k / 3;
    var ix, iy := v % g.Columns(), v / g.Columns();
    if k % 3 == 0 then ix as real * (g.width / g.widthSegments as real) - g.width / 2.0
    else if k % 3 == 1 then -(iy as real * (g.height / g.heightSegments as real) - g.height / 2.0)
    else 0.0
  }

  /** The flat vertex buffer of a freshly built plane. */
  function FlatPositions(g: PlaneGrid): (s: seq<real>)
    requires g.widthSegments > 0 && g.heightSegments > 0
    ensures |s| == g.Columns() * g.Rows() * 3
    ensures forall k :: 0 <= k < |s| && k % 3 == 2 ==> s[k] == 0.0
  {
    seq(g.Columns() * g.Rows() * 3, k => PlaneLayout(g, k))
  }

  datatype Geometry =
    | PlaneGeometry(grid: PlaneGrid, positions: array<real>)
    | SolidGeometry(solid: Solid)

  datatype Mesh = Mesh(id: MeshId, geometry: Geometry, materials: seq<Material>)

  /** Notifications shown to the user by the build. */
  datatype Notice = NoImageLoaded | RemoteMeshRefused | TextureFailed

  /** What one pass of the parallax did: nothing (no mesh, or a shape other than
      the plane), failed on a missing image, refused a remote image, or wrote the
      depths after cropping the image to the given rectangle. */
  datatype ParallaxOutcome = NoMesh | NotPlane | ImageMissing | RemoteParallaxRefused | Written(crop: Rect)

  function ActiveIds(m: Option<Mesh>): set<MeshId>
  {
    if m.Some? then {m.value.id} else {}
  }

  function TextureIds(t: Option<TextureId>): set<TextureId>
  {
    if t.Some? then {t.value} else {}
  }

  predicate IsPlane(m: Option<Mesh>)
  {
    m.Some? && m.value.geometry.PlaneGeometry?
  }

  /** Mesh m is the one the build makes for shape k from image img, texture tex and
      the curve factor: the shape's geometry at the panel width of the image, the
      base material (six shaded clones for the cube), and for the plane a vertex
      buffer holding the flat grid displaced by the canvas bytes. */
  ghost predicate Shaped(m: Mesh, k: ShapeKind, img: Image, tex: TextureId, curve: real, intensity: real, data: seq<int>)
    requires HasSize(img)
    reads if m.geometry.PlaneGeometry? then {m.geometry.positions} else {}
  {
    var w := PanelWidth(Aspect(img));
    match k
    case Plane =>
      var g := PlaneGridFor(w);
      && m.geometry.PlaneGeometry? && m.geometry.grid == g
      && m.materials == [BaseMaterial(tex)]
      && |data| == g.Columns() * g.Rows() * 4
      && m.geometry.positions[..] == Displaced(FlatPositions(g), g.Columns(), g.Rows(), data, intensity)
    case Cube =>
      && m.geometry == SolidGeometry(SolidFor(Cube, w, curve))
      && |m.materials| == 6
      && forall i :: 0 <= i < 6 ==>
           m.materials[i] == BaseMaterial(tex).(color := if i == 4 then White else White * FaceShade)
    case _ =>
      && m.geometry == SolidGeometry(SolidFor(k, w, curve))
      && m.materials == [BaseMaterial(tex)]
  }

  class Viewer {
    var image: Option<Image>            // uploadedImage
    var mesh: Option<Mesh>              // mainMesh
    var texture: Option<TextureId>      // imageTexture
    var rendererUp: bool                // renderer, scene and camera exist
    var scene: set<MeshId>              // built meshes attached to the scene
    var disposed: set<MeshId>           // meshes whose geometry and materials were disposed
    var disposedTextures: set<TextureId>
    ghost var built: set<MeshId>        // every mesh built so far
    ghost var made: set<TextureId>      // every texture made so far
    var meshCount: nat                  // the next mesh id
    var textureCount: nat               // the next texture id

    /** At most one built mesh is in the scene, and it is the main mesh; every
        other mesh ever built has been disposed; the main texture is live. */
    ghost predicate Valid()
      reads this
    {
      && scene == ActiveIds(mesh)
      && disposed == built - ActiveIds(mesh)
      && ActiveIds(mesh) <= built
      && (mesh.Some? ==> rendererUp)
      && (forall id :: id in built ==> id < meshCount)
      && (forall t :: t in made ==> t < textureCount)
      && TextureIds(texture) <= made
      && (texture.Some? ==> texture.value !in disposedTextures)
      && disposedTextures <= made
      && (image.Some? ==> HasSize(image.value))
      && (IsPlane(mesh) ==>
            var g := mesh.value.geometry.grid;
            && g.widthSegments > 0 && g.heightSegments > 0
            && g.width > 0.0 && g.height > 0.0
            && mesh.value.geometry.positions.Length == g.Columns() * g.Rows() * 3)
    }

    /** Every texture ever made is either the main texture or disposed. */
    ghost predicate NoTextureLeak()
      reads this
    {
      disposedTextures == made - TextureIds(texture)
    }

    /** Texture t was made, is not disposed and is out of the texture slot. (A live
        mesh's materials may still map it until the next build replaces them.) */
    ghost predicate Leaked(t: TextureId)
      reads this
    {
      t in made && t !in disposedTextures && texture != Some(t)
    }

    /** The position buffer the parallax may write: the main mesh's, when it is a plane. */
    function ParallaxFrame(): set<object>
      reads this
    {
      if IsPlane(mesh) then {mesh.value.geometry.positions} else {}
    }

    /** The canvas bytes handed to the parallax cover the main plane's grid. */
    predicate SamplesFit(data: seq<int>)
      reads this
    {
      IsPlane(mesh) ==>
        |data| == mesh.value.geometry.grid.Columns() * mesh.value.geometry.grid.Rows() * 4
    }

    constructor ()
      ensures Valid() && NoTextureLeak()
      ensures image.None? && mesh.None? && texture.None? && !rendererUp
      ensures scene == {} && disposed == {} && disposedTextures == {} && built == {} && made == {}
    {
      image, mesh, texture, rendererUp := None, None, None, false;
      scene, disposed, disposedTextures := {}, {}, {};
      built, made := {}, {};
      meshCount, textureCount := 0, 0;
    }

    /** The image decoder's onload: the decoded image becomes the uploaded image. */
    method LoadImage(img: Image)
      requires Valid() && HasSize(img)
      modifies this
      ensures Valid() && (old(NoTextureLeak()) ==> NoTextureLeak())
      ensures image == Some(img)
      ensures mesh == old(mesh) && texture == old(texture) && rendererUp == old(rendererUp)
      ensures scene == old(scene) && disposed == old(disposed) && disposedTextures == old(disposedTextures)
      ensures built == old(built) && made == old(made)
      ensures meshCount == old(meshCount) && textureCount == old(textureCount)
    {
      image := Some(img);
    }

    /** disposeMesh(mainMesh) followed by mainMesh = null: the main mesh's geometry
        and materials are disposed and it leaves the scene. */
    method DisposeMainMesh()
      requires Valid()
      modifies this
      ensures Valid() && (old(NoTextureLeak()) ==> NoTextureLeak())
      ensures mesh.None? && scene == {}
      ensures disposed == old(disposed) + ActiveIds(old(mesh))
      ensures image == old(image) && texture == old(texture) && rendererUp == old(rendererUp)
      ensures disposedTextures == old(disposedTextures) && built == old(built) && made == old(made)
      ensures meshCount == old(meshCount) && textureCount == old(textureCount)
    {
      if mesh.Some? {
        disposed := disposed + {mesh.value.id};
        scene := scene - {mesh.value.id};
      }
      mesh := None;
    }

    /** The texture step of the build: the old texture is disposed, then a new one
        is made from the image, unless making it fails. */
    method RemakeTexture(fails: bool)
      requires Valid()
      modifies this
      ensures Valid() && (old(NoTextureLeak()) ==> NoTextureLeak())
      ensures disposedTextures == old(disposedTextures) + TextureIds(old(texture))
      ensures fails ==> texture.None? && made == old(made)
      ensures !fails ==> texture.Some? && texture.value !in old(made) && made == old(made) + {texture.value}
      ensures image == old(image) && mesh == old(mesh) && rendererUp == old(rendererUp)
      ensures scene == old(scene) && disposed == old(disposed) && built == old(built)
      ensures meshCount == old(meshCount)
    {
      if texture.Some? {
        disposedTextures := disposedTextures + {texture.value};
        texture := None;
      }
      if !fails {
        texture := Some(textureCount);
        made := made + {textureCount};
        textureCount := textureCount + 1;
      }
    }

    /** Attach a newly built mesh, with the next id, as the main mesh. */
    method AttachMesh(geometry: Geometry, materials: seq<Material>)
      requires Valid() && mesh.None? && rendererUp
      requires geometry.PlaneGeometry? ==>
        var g := geometry.grid;
        && g.widthSegments > 0 && g.heightSegments > 0 && g.width > 0.0 && g.height > 0.0
        && geometry.positions.Length == g.Columns() * g.Rows() * 3
      modifies this
      ensures Valid() && (old(NoTextureLeak()) ==> NoTextureLeak())
      ensures mesh.Some? && mesh.value.id !in old(built) && built == old(built) + {mesh.value.id}
      ensures mesh.value.geometry == geometry && mesh.value.materials == materials
      ensures scene == {mesh.value.id} && disposed == old(disposed)
      ensures image == old(image) && texture == old(texture) && rendererUp == old(rendererUp)
      ensures disposedTextures == old(disposedTextures) && made == old(made)
      ensures textureCount == old(textureCount)
    {
      mesh := Some(Mesh(meshCount, geometry, materials));
      scene := scene + {meshCount};
      built := built + {meshCount};
      meshCount := meshCount + 1;
    }

    /** applyParallax: on the main plane, writes the depth of every vertex from the
        canvas bytes of the cropped image; with no mesh or a shape other than the
        plane it does nothing; with no image it fails before writing (a TypeError in
        the browser); with a remote image it refuses. */
    method ApplyParallax(intensity: real, data: seq<int>) returns (outcome: ParallaxOutcome)
      requires Valid() && SamplesFit(data)
      modifies ParallaxFrame()
      ensures mesh.None? ==> outcome == NoMesh
      ensures mesh.Some? && !IsPlane(mesh) ==> outcome == NotPlane
      ensures IsPlane(mesh) && image.None? ==> outcome == ImageMissing
      ensures IsPlane(mesh) && image.Some? && IsRemote(image.value) ==> outcome == RemoteParallaxRefused
      ensures IsPlane(mesh) && !outcome.Written? ==> unchanged(mesh.value.geometry.positions)
      ensures IsPlane(mesh) && image.Some? && !IsRemote(image.value) ==>
        var g, pos := mesh.value.geometry.grid, mesh.value.geometry.positions;
        && outcome == Written(CropRect(image.value.width, image.value.height, g.width, g.height))
        && pos[..] == Displaced(old(pos[..]), g.Columns(), g.Rows(), data, intensity)
    {
      if mesh.None? {
        return NoMesh;
      }
      if !mesh.value.geometry.PlaneGeometry? {
        return NotPlane;
      }
      if image.None? {
        return ImageMissing;
      }
      var img := image.value;
      if IsRemote(img) {
        return RemoteParallaxRefused;
      }
      var g := mesh.value.geometry.grid;
      var cols, rows := g.Columns(), g.Rows();
      var crop := CropRect(img.width, img.height, g.width, g.height);
      WriteDepths(mesh.value.geometry.positions, cols, rows, data, intensity);
      outcome := Written(crop);
    }

    /** The shape step of the build, for a known shape: the geometry and the
        materials are made and attached as the main mesh; a plane is then displaced. */
    method AttachShape(k: ShapeKind, img: Image, tex: TextureId, curve: real, intensity: real, data: seq<int>)
      requires Valid() && mesh.None? && rendererUp && image == Some(img) && !IsRemote(img)
      requires k == Plane ==> |data| == SampleBytes(img)
      modifies this
      ensures Valid() && (old(NoTextureLeak()) ==> NoTextureLeak())
      ensures mesh.Some? && mesh.value.id !in old(built) && built == old(built) + {mesh.value.id}
      ensures scene == {mesh.value.id} && disposed == old(disposed)
      ensures Shaped(mesh.value, k, img, tex, curve, intensity, data)
      ensures IsPlane(mesh) ==> fresh(mesh.value.geometry.positions)
      ensures image == old(image) && texture == old(texture) && rendererUp == old(rendererUp)
      ensures disposedTextures == old(disposedTextures) && made == old(made)
    {
      var w := PanelWidth(Aspect(img));
      var base := BaseMaterial(tex);
      if k == Plane {
        var g := PlaneGridFor(w);
        var positions := new real[g.Columns() * g.Rows() * 3](i => PlaneLayout(g, i));
        assert positions[..] == FlatPositions(g);
        AttachMesh(PlaneGeometry(g, positions), [base]);
        var _ := ApplyParallax(intensity, data);
      } else if k == Cube {
        var mats := CubeMaterials(tex);
        AttachMesh(SolidGeometry(SolidFor(Cube, w, curve)), mats);
      } else {
        AttachMesh(SolidGeometry(SolidFor(k, w, curve)), [base]);
      }
    }

    /** buildMainMesh: with no image, or a remote one, it only notifies. Otherwise it
        disposes the main mesh and the texture, makes a new texture (stopping in the
        empty state if that fails) and, for a known shape, builds and attaches the
        new mesh; the plane is then displaced. */
    method BuildMainMesh(shapeName: string, curve: real, intensity: real, data: seq<int>, textureFails: bool)
      returns (notice: Option<Notice>)
      requires Valid()
      requires image.Some? && ParseShape(shapeName) == Some(Plane) ==> |data| == SampleBytes(image.value)
      modifies this
      ensures Valid() && (old(NoTextureLeak()) ==> NoTextureLeak())
      ensures image == old(image)
      // early exits leave every slot as it was
      ensures old(image).None? || IsRemote(old(image).value) ==>
        && notice == Some(if old(image).None? then NoImageLoaded else RemoteMeshRefused)
        && mesh == old(mesh) && texture == old(texture) && scene == old(scene) && rendererUp == old(rendererUp)
        && disposed == old(disposed) && disposedTextures == old(disposedTextures)
        && built == old(built) && made == old(made)
        && meshCount == old(meshCount) && textureCount == old(textureCount)
      // otherwise exactly the previous mesh and texture are disposed, the previous mesh left the
      // scene, and the only meshes and textures made are the new main ones
      ensures old(image).Some? && !IsRemote(old(image).value) ==>
        && rendererUp
        && disposed == old(disposed) + ActiveIds(old(mesh))
        && ActiveIds(old(mesh)) !! scene
        && disposedTextures == old(disposedTextures) + TextureIds(old(texture))
        && built == old(built) + ActiveIds(mesh) && made == old(made) + TextureIds(texture)
      // a failed texture leaves the empty state
      ensures old(image).Some? && !IsRemote(old(image).value) && textureFails ==>
        notice == Some(TextureFailed) && mesh.None? && texture.None? && scene == {}
      // a new texture is made; an unknown shape builds nothing
      ensures old(image).Some? && !IsRemote(old(image).value) && !textureFails ==>
        && notice.None? && texture.Some? && texture.value !in old(made)
        && (ParseShape(shapeName).None? ==> mesh.None? && scene == {})
      // a known shape is built on the new texture and is the only mesh in the scene
      ensures old(image).Some? && !IsRemote(old(image).value) && !textureFails && ParseShape(shapeName).Some? ==>
        && mesh.Some? && mesh.value.id !in old(built) && scene == {mesh.value.id}
        && Shaped(mesh.value, ParseShape(shapeName).value, old(image).value, texture.value, curve, intensity, data)
        && (IsPlane(mesh) ==> fresh(mesh.value.geometry.positions))
    {
      if image.None? {
        return Some(NoImageLoaded);
      }
      var img := image.value;
      if IsRemote(img) {
        return Some(RemoteMeshRefused);
      }
      rendererUp := true;
      DisposeMainMesh();
      RemakeTexture(textureFails);
      if texture.None? {
        return Some(TextureFailed);
      }
      notice := None;
      var kind := ParseShape(shapeName);
      if kind.Some? {
        AttachShape(kind.value, img, texture.value, curve, intensity, data);
      }
    }

    /** goBackToUpload: the main mesh is disposed and the renderer and scene are
        dropped; the image and the texture stay in their slots. */
    method GoBackToUpload()
      requires Valid()
      modifies this
      ensures Valid() && (old(NoTextureLeak()) ==> NoTextureLeak())
      ensures mesh.None? && scene == {} && !rendererUp
      ensures disposed == old(disposed) + ActiveIds(old(mesh))
      ensures image == old(image) && texture == old(texture)
      ensures disposedTextures == old(disposedTextures) && built == old(built) && made == old(made)
      ensures meshCount == old(meshCount) && textureCount == old(textureCount)
    {
      DisposeMainMesh();
      rendererUp := false;
    }

    /** The clear button as written: the image and the texture slots are emptied,
        but the texture is not disposed, so a texture that was live is leaked. */
    method ClearAsWritten()
      requires Valid()
      modifies this
      ensures Valid()
      ensures image.None? && texture.None?
      ensures old(texture).Some? ==> Leaked(old(texture).value) && !NoTextureLeak()
      ensures mesh == old(mesh) && scene == old(scene) && disposed == old(disposed)
      ensures disposedTextures == old(disposedTextures) && rendererUp == old(rendererUp)
      ensures built == old(built) && made == old(made)
      ensures meshCount == old(meshCount) && textureCount == old(textureCount)
    {
      image := None;
      texture := None;
    }

    /** The clear button with the texture released: it is disposed before its slot is emptied. */
    method Clear()
      requires Valid()
      modifies this
      ensures Valid() && (old(NoTextureLeak()) ==> NoTextureLeak())
      ensures image.None? && texture.None?
      ensures disposedTextures == old(disposedTextures) + TextureIds(old(texture))
      ensures mesh == old(mesh) && scene == old(scene) && disposed == old(disposed)
      ensures rendererUp == old(rendererUp) && built == old(built) && made == old(made)
      ensures meshCount == old(meshCount) && textureCount == old(textureCount)
    {
      if texture.Some? {
        disposedTextures := disposedTextures + {texture.value};
      }
      image := None;
      texture := None;
    }
  }

  /** Load a local image, build a sphere, go back to the upload view (which hides
      the clear button), load another image (which shows it again) and press clear:
      the texture made by the build is left neither disposed nor referenced. */
  method ClearLeakScenario(img: Image, next: Image) returns (v: Viewer, leaked: TextureId)
    requires HasSize(img) && !IsRemote(img) && HasSize(next)
    ensures v.Valid() && v.Leaked(leaked) && v.mesh.None?
  {
    v := new Viewer();
    v.LoadImage(img);
    var _ := v.BuildMainMesh(ShapeName(Sphere), 0.0, 0.0, [], false);
    v.GoBackToUpload();
    v.LoadImage(next);
    leaked := v.texture.value;
    v.ClearAsWritten();
  }
}

/** The loaded (GLB) table top of the 3D viewer: which texture it is given,
    the colour a generated top falls back to, and the scale factors that fit
    the loaded model to the requested dimensions. Bounding-box sizes are
    inputs: measuring a scene belongs to the 3D library. */
module TableTop {
  import opened JsBuiltins
  import opened ViewerProps

  /** `ALLINSTONE_BASE_URL`: the dev-server proxy prefix in development, the
      vendor's asset root otherwise. */
  function AllInStoneBase(dev: bool): string {
    if dev then "/api/allinstone" else "https://www.allinstone.co.uk/assets/v-5/configurator-new"
  }

  const TextureDir: string := "/images/textures/min/"

  /** The URL of one texture image under the base. */
  function TextureFileUrl(dev: bool, file: string): string {
    AllInStoneBase(dev) + TextureDir + file
  }

  /** The texture image of each material that has one. */
  const TextureFiles: map<string, string> := map[
    "carrara" := "carrara-white.jpg",
    "calacatta" := "white-calacatta.jpg",
    "statuario" := "eternal-staturio.jpg",
    "granite-white" := "white-calacatta.jpg",
    "granite-dark" := "5100-vanilla-noir.jpg",
    "granite-gray" := "macchia-vecchia.jpg"]

  /** `materialTextures`: material to full texture URL. */
  function MaterialTextures(dev: bool): (m: map<string, string>)
    ensures m.Keys == TextureFiles.Keys
    ensures forall k :: k in m ==> m[k] == TextureFileUrl(dev, TextureFiles[k])
  {
    map k | k in TextureFiles :: TextureFileUrl(dev, TextureFiles[k])
  }

  /** `materialColors`: the flat colour of each material. */
  const MaterialColors: map<string, string> := map[
    "carrara" := "#E8E6E1",
    "calacatta" := "#F5F3ED",
    "statuario" := "#F0EDE4",
    "granite-white" := "#F5F5F0",
    "granite-dark" := "#1A1A1A",
    "granite-gray" := "#6B6B6B"]

  const DefaultTextureFile: string := "white-calacatta.jpg"
  const FallbackColor: string := "#8B7355"

  /** The image file a loaded top's texture comes from. */
  function TextureFile(material: Option<string>): string {
    if Truthy(material) && material.value in TextureFiles then TextureFiles[material.value] else DefaultTextureFile
  }

  /** The texture a loaded top uses: the material's own, or white Calacatta
      when there is no material or it has no texture. Either way it is one of
      the table's textures. */
  function TextureUrl(dev: bool, material: Option<string>): (url: string)
    ensures Truthy(material) && material.value in TextureFiles ==> url == MaterialTextures(dev)[material.value]
    ensures !(Truthy(material) && material.value in TextureFiles) ==> url == TextureFileUrl(dev, DefaultTextureFile)
    ensures url in MaterialTextures(dev).Values
  {
    var textures := MaterialTextures(dev);
    assert textures["calacatta"] == TextureFileUrl(dev, DefaultTextureFile);
    TextureFileUrl(dev, TextureFile(material))
  }

  /** The texture a generated top loads: only a material with a texture gets one. */
  function GeneratedTextureUrl(dev: bool, material: Option<string>): (url: Option<string>)
    ensures url.Some? <==> Truthy(material) && material.value in TextureFiles
    ensures url.Some? ==> url.value == TextureUrl(dev, material)
  {
    var textures := MaterialTextures(dev);
    if Truthy(material) && material.value in textures then Some(textures[material.value]) else None
  }

  /** The colour of a generated or placeholder top: the material's own, else brown. */
  function MaterialColor(material: Option<string>): (c: string)
    ensures Truthy(material) && material.value in MaterialColors ==> c == MaterialColors[material.value]
    ensures !(Truthy(material) && material.value in MaterialColors) ==> c == FallbackColor
    ensures c in MaterialColors.Values || c == FallbackColor
  {
    if Truthy(material) && material.value in MaterialColors then MaterialColors[material.value] else FallbackColor
  }

  /** Exactly the materials with a texture have a colour, so a top whose
      texture fails to load still gets its own colour. */
  lemma TexturesAndColoursAgree()
    ensures TextureFiles.Keys == MaterialColors.Keys
  {
  }

  // ---------------------------------------------------------------------------
  // Scale

  datatype Vec3 = Vec3(x: real, y: real, z: real)

  /** A factor that brings `current` to `target`, or 1 when `current` is not
      positive. */
  predicate UniformFit(target: real, current: real, factor: real) {
    (current > 0.0 ==> factor * current == target) && (current <= 0.0 ==> factor == 1.0)
  }

  /** Round tops: one factor bringing the larger half-extent to the radius. */
  predicate RoundFit(d: Dimensions, size: Vec3, scale: Vec3) {
    scale.x == scale.z && UniformFit(NumberOr(d.radius, 100.0) / 100.0, Max(size.x, size.z) / 2.0, scale.x)
  }

  /** Square tops: one factor bringing the larger extent to the side length. */
  predicate SquareFit(d: Dimensions, size: Vec3, scale: Vec3) {
    scale.x == scale.z && UniformFit(NumberOr(d.squareLength, 150.0) / 100.0, Max(size.x, size.z), scale.x)
  }

  /** Rectangular tops: length along x, width along z. */
  predicate RectangularFit(d: Dimensions, size: Vec3, scale: Vec3) {
    if size.x > 0.0 && size.z > 0.0 then
      size.x * scale.x == NumberOr(d.length, 200.0) / 100.0 &&
      size.z * scale.z == NumberOr(d.width, 100.0) / 100.0
    else scale.x == 1.0 && scale.z == 1.0
  }

  /** Oval tops: the strictly longer axis gets the largest diameter, the other
      (both, for a round model) the smallest. */
  predicate OvalFit(d: Dimensions, size: Vec3, scale: Vec3) {
    var largest := NumberOr(d.largestDiameter, 200.0) / 100.0;
    var smallest := NumberOr(d.smallestDiameter, 120.0) / 100.0;
    if Max(size.x, size.z) > 0.0 && Min(size.x, size.z) > 0.0 then
      size.x * scale.x == (if size.x > size.z then largest else smallest) &&
      size.z * scale.z == (if size.z > size.x then largest else smallest)
    else scale.x == 1.0 && scale.z == 1.0
  }

  /** The `TableTop` scale: with dimensions and a shape, the x and z factors that
      stretch a model whose bounding box measures `size` to the requested
      size in metres; y is never scaled; a zero-size guard keeps a factor of 1. */
  method ComputeScale(dims: Option<Dimensions>, shape: Option<string>, size: Vec3) returns (scale: Vec3)
    ensures scale.y == 1.0
    ensures dims.None? || !Truthy(shape) ==> scale == Vec3(1.0, 1.0, 1.0)
    ensures Truthy(shape) && shape.value !in {"round", "rectangular", "curved-rectangular", "square", "oval"} ==>
              scale == Vec3(1.0, 1.0, 1.0)
    ensures dims.Some? && shape == Some("round") ==> RoundFit(dims.value, size, scale)
    ensures dims.Some? && (shape == Some("rectangular") || shape == Some("curved-rectangular")) ==>
              RectangularFit(dims.value, size, scale)
    ensures dims.Some? && shape == Some("square") ==> SquareFit(dims.value, size, scale)
    ensures dims.Some? && shape == Some("oval") ==> OvalFit(dims.value, size, scale)
  {
    if dims.None? || !Truthy(shape) {
      return Vec3(1.0, 1.0, 1.0);
    }
    var d := dims.value;
    var s := shape.value;
    if s == "round" {
      scale := RoundFactor(d, size);
    } else if s == "rectangular" || s == "curved-rectangular" {
      scale := RectangularFactors(d, size);
    } else if s == "square" {
      scale := SquareFactor(d, size);
    } else if s == "oval" {
      scale := OvalFactors(d, size);
    } else {
      scale := Vec3(1.0, 1.0, 1.0);
    }
  }

  /** One factor for both axes: target over current, unless the current
      extent is not positive. */
  method UniformFactor(target: real, current: real) returns (factor: real)
    ensures UniformFit(target, current, factor)
  {
    factor := 1.0;
    if current > 0.0 {
      factor := target / current;
    }
  }

  method RoundFactor(d: Dimensions, size: Vec3) returns (scale: Vec3)
    ensures scale.y == 1.0 && RoundFit(d, size, scale)
  {
    var f := UniformFactor(NumberOr(d.radius, 100.0) / 100.0, Max(size.x, size.z) / 2.0);
    scale := Vec3(f, 1.0, f);
  }

  method SquareFactor(d: Dimensions, size: Vec3) returns (scale: Vec3)
    ensures scale.y == 1.0 && SquareFit(d, size, scale)
  {
    var f := UniformFactor(NumberOr(d.squareLength, 150.0) / 100.0, Max(size.x, size.z));
    scale := Vec3(f, 1.0, f);
  }

  method RectangularFactors(d: Dimensions, size: Vec3) returns (scale: Vec3)
    ensures scale.y == 1.0 && RectangularFit(d, size, scale)
  {
    var targetLength := NumberOr(d.length, 200.0) / 100.0;
    var targetWidth := NumberOr(d.width, 100.0) / 100.0;
    scale := Vec3(1.0, 1.0, 1.0);
    if size.x > 0.0 && size.z > 0.0 {
      scale := Vec3(targetLength / size.x, 1.0, targetWidth / size.z);
    }
  }

  method OvalFactors(d: Dimensions, size: Vec3) returns (scale: Vec3)
    ensures scale.y == 1.0 && OvalFit(d, size, scale)
  {
    var targetLargest := NumberOr(d.largestDiameter, 200.0) / 100.0;
    var targetSmallest := NumberOr(d.smallestDiameter, 120.0) / 100.0;
    var currentLargest := Max(size.x, size.z);
    var currentSmallest := Min(size.x, size.z);
    scale := Vec3(1.0, 1.0, 1.0);
    if currentLargest > 0.0 && currentSmallest > 0.0 {
      var scaleX := if size.x > size.z then targetLargest / size.x else targetSmallest / size.x;
      var scaleZ := if size.z > size.x then targetLargest / size.z else targetSmallest / size.z;
      scale := Vec3(scaleX, 1.0, scaleZ);
    }
  }
}

/**
 * The TianDiTu layer catalogue: the 22 layer-type codes, the layer-information record and the
 * factory that fills one in for a type code (`TianDiTuLayerTypes`, `TianDiTuLayerInfo` and
 * `LayerInfoFactory` in AbnerTeamSL/Maps/MapsProvider.cs).
 *
 * The factory is a table: a first switch picks the base address and the layer name per type,
 * a second one the coordinate-system family (spatial reference, origin, extent, scale and
 * resolution tables, tile-matrix-set tag). `GetLayerInfo` keeps that table as written and is
 * proved equal to `CatalogEntry`, which derives the same record from what each type code's
 * name says it is (`KindOf`): this is how the two irregular entries show up.
 */
module LayerCatalog {
  import opened Wrappers

  // ---------------------------------------------------------------------------------------
  // Layer-type codes (TianDiTuLayerTypes)

  const TIANDITU_VECTOR_MERCATOR := 0
  const TIANDITU_VECTOR_ANNOTATION_CHINESE_MERCATOR := 1
  const TIANDITU_VECTOR_ANNOTATION_ENGLISH_MERCATOR := 2
  const TIANDITU_IMAGE_MERCATOR := 3
  const TIANDITU_IMAGE_ANNOTATION_CHINESE_MERCATOR := 4
  const TIANDITU_IMAGE_ANNOTATION_ENGLISH_MERCATOR := 5
  const TIANDITU_TERRAIN_MERCATOR := 6
  const TIANDITU_TERRAIN_ANNOTATION_CHINESE_MERCATOR := 7
  const TIANDITU_VECTOR_2000 := 8
  const TIANDITU_VECTOR_ANNOTATION_CHINESE_2000 := 9
  const TIANDITU_VECTOR_ANNOTATION_ENGLISH_2000 := 10
  const TIANDITU_IMAGE_2000 := 11
  const TIANDITU_IMAGE_ANNOTATION_CHINESE_2000 := 12
  const TIANDITU_IMAGE_ANNOTATION_ENGLISH_2000 := 13
  const TIANDITU_TERRAIN_2000 := 14
  const TIANDITU_TERRAIN_ANNOTATION_CHINESE_2000 := 15
  const TIANDITU_IMAGE_2000_OFFLINE := 16
  const TIANDITU_IMAGE_ANNOTATION_CHINESE_2000_OFFLINE := 17
  const TIANDITU_VECTOR_2000_OFFLINE := 18
  const TIANDITU_VECTOR_ANNOTATION_CHINESE_2000_OFFLINE := 19
  const TIANDITU_TERRAIN_2000_OFFLINE := 20
  const TIANDITU_TERRAIN_ANNOTATION_CHINESE_2000_OFFLINE := 21

  /** What a type code's name says: content, annotation language, coordinate system, offline. */
  datatype Content = Vector | Image | Terrain
  datatype Annotation = Plain | Chinese | English
  datatype Crs = Cgcs2000 | Mercator
  datatype LayerKind = LayerKind(content: Content, annotation: Annotation, crs: Crs, offline: bool)

  /**
   * Decodes a type code into the kind of layer its constant's name describes
   * (TIANDITU_<content>[_ANNOTATION_<language>]_<system>[_OFFLINE]); `None` off the table.
   */
  function KindOf(layerType: int): (k: Option<LayerKind>)
    ensures k.Some? <==> TIANDITU_VECTOR_MERCATOR <= layerType <= TIANDITU_TERRAIN_ANNOTATION_CHINESE_2000_OFFLINE
    ensures k.Some? ==> (k.value.crs == Mercator <==> layerType <= TIANDITU_TERRAIN_ANNOTATION_CHINESE_MERCATOR)
    ensures k.Some? ==> (k.value.offline <==> layerType >= TIANDITU_IMAGE_2000_OFFLINE)
    ensures k.Some? && k.value.offline ==> k.value.annotation != English
  {
    match layerType
    case 0 => Some(LayerKind(Vector, Plain, Mercator, false))
    case 1 => Some(LayerKind(Vector, Chinese, Mercator, false))
    case 2 => Some(LayerKind(Vector, English, Mercator, false))
    case 3 => Some(LayerKind(Image, Plain, Mercator, false))
    case 4 => Some(LayerKind(Image, Chinese, Mercator, false))
    case 5 => Some(LayerKind(Image, English, Mercator, false))
    case 6 => Some(LayerKind(Terrain, Plain, Mercator, false))
    case 7 => Some(LayerKind(Terrain, Chinese, Mercator, false))
    case 8 => Some(LayerKind(Vector, Plain, Cgcs2000, false))
    case 9 => Some(LayerKind(Vector, Chinese, Cgcs2000, false))
    case 10 => Some(LayerKind(Vector, English, Cgcs2000, false))
    case 11 => Some(LayerKind(Image, Plain, Cgcs2000, false))
    case 12 => Some(LayerKind(Image, Chinese, Cgcs2000, false))
    case 13 => Some(LayerKind(Image, English, Cgcs2000, false))
    case 14 => Some(LayerKind(Terrain, Plain, Cgcs2000, false))
    case 15 => Some(LayerKind(Terrain, Chinese, Cgcs2000, false))
    case 16 => Some(LayerKind(Image, Plain, Cgcs2000, true))
    case 17 => Some(LayerKind(Image, Chinese, Cgcs2000, true))
    case 18 => Some(LayerKind(Vector, Plain, Cgcs2000, true))
    case 19 => Some(LayerKind(Vector, Chinese, Cgcs2000, true))
    case 20 => Some(LayerKind(Terrain, Plain, Cgcs2000, true))
    case 21 => Some(LayerKind(Terrain, Chinese, Cgcs2000, true))
    case _ => None
  }

  /**
   * The type code of a kind of layer, `None` for the combinations the catalogue does not
   * offer (English-annotated terrain, English annotation offline, Mercator offline).
   */
  function CodeOf(k: LayerKind): (code: Option<int>)
    ensures code.Some? ==> KindOf(code.value) == Some(k)
  {
    match k
    case LayerKind(Vector, Plain, Mercator, false) => Some(TIANDITU_VECTOR_MERCATOR)
    case LayerKind(Vector, Chinese, Mercator, false) => Some(TIANDITU_VECTOR_ANNOTATION_CHINESE_MERCATOR)
    case LayerKind(Vector, English, Mercator, false) => Some(TIANDITU_VECTOR_ANNOTATION_ENGLISH_MERCATOR)
    case LayerKind(Image, Plain, Mercator, false) => Some(TIANDITU_IMAGE_MERCATOR)
    case LayerKind(Image, Chinese, Mercator, false) => Some(TIANDITU_IMAGE_ANNOTATION_CHINESE_MERCATOR)
    case LayerKind(Image, English, Mercator, false) => Some(TIANDITU_IMAGE_ANNOTATION_ENGLISH_MERCATOR)
    case LayerKind(Terrain, Plain, Mercator, false) => Some(TIANDITU_TERRAIN_MERCATOR)
    case LayerKind(Terrain, Chinese, Mercator, false) => Some(TIANDITU_TERRAIN_ANNOTATION_CHINESE_MERCATOR)
    case LayerKind(Vector, Plain, Cgcs2000, false) => Some(TIANDITU_VECTOR_2000)
    case LayerKind(Vector, Chinese, Cgcs2000, false) => Some(TIANDITU_VECTOR_ANNOTATION_CHINESE_2000)
    case LayerKind(Vector, English, Cgcs2000, false) => Some(TIANDITU_VECTOR_ANNOTATION_ENGLISH_2000)
    case LayerKind(Image, Plain, Cgcs2000, false) => Some(TIANDITU_IMAGE_2000)
    case LayerKind(Image, Chinese, Cgcs2000, false) => Some(TIANDITU_IMAGE_ANNOTATION_CHINESE_2000)
    case LayerKind(Image, English, Cgcs2000, false) => Some(TIANDITU_IMAGE_ANNOTATION_ENGLISH_2000)
    case LayerKind(Terrain, Plain, Cgcs2000, false) => Some(TIANDITU_TERRAIN_2000)
    case LayerKind(Terrain, Chinese, Cgcs2000, false) => Some(TIANDITU_TERRAIN_ANNOTATION_CHINESE_2000)
    case LayerKind(Image, Plain, Cgcs2000, true) => Some(TIANDITU_IMAGE_2000_OFFLINE)
    case LayerKind(Image, Chinese, Cgcs2000, true) => Some(TIANDITU_IMAGE_ANNOTATION_CHINESE_2000_OFFLINE)
    case LayerKind(Vector, Plain, Cgcs2000, true) => Some(TIANDITU_VECTOR_2000_OFFLINE)
    case LayerKind(Vector, Chinese, Cgcs2000, true) => Some(TIANDITU_VECTOR_ANNOTATION_CHINESE_2000_OFFLINE)
    case LayerKind(Terrain, Plain, Cgcs2000, true) => Some(TIANDITU_TERRAIN_2000_OFFLINE)
    case LayerKind(Terrain, Chinese, Cgcs2000, true) => Some(TIANDITU_TERRAIN_ANNOTATION_CHINESE_2000_OFFLINE)
    case _ => None
  }

  /** The 22 codes name 22 different kinds of layer: decoding a code and encoding it back is the identity. */
  lemma CodeOfKindOf(layerType: int)
    requires KindOf(layerType).Some?
    ensures CodeOf(KindOf(layerType).value) == Some(layerType)
  {
  }

  // ---------------------------------------------------------------------------------------
  // The layer-information record (TianDiTuLayerInfo)

  datatype MapPoint = MapPoint(x: real, y: real)

  /**
   * The fields of a `TianDiTuLayerInfo`. Fields that a C# null can occupy are `Option`s; the
   * floating-point fields are `real`s that the model only stores and compares.
   */
  datatype TianDiTuLayerInfo = TianDiTuLayerInfo(
    url: Option<string>,
    layerName: Option<string>,
    minZoomLevel: int,
    maxZoomLevel: int,
    xMin: real,
    yMin: real,
    xMax: real,
    yMax: real,
    tileWidth: int,
    tileHeight: int,
    scales: Option<seq<real>>,
    resolutions: Option<seq<real>>,
    dpi: int,
    srid: int,
    origin: Option<MapPoint>,
    tileMatrixSet: Option<string>)

  /** A freshly constructed `TianDiTuLayerInfo`: the field initialisers and the C# zero values. */
  const DefaultLayerInfo := TianDiTuLayerInfo(
    None, None, 0, 16, 0.0, 0.0, 0.0, 0.0, 256, 256, None, None, 96, 0, None, None)

  /**
   * A fresh record has no address, layer name, tables, origin or matrix set, a zero extent and
   * SRID, and the initialised zoom range 0–16, 256×256 tiles and 96 dpi.
   */
  lemma DefaultLayerInfoFields()
    ensures DefaultLayerInfo.url.None? && DefaultLayerInfo.layerName.None?
    ensures DefaultLayerInfo.minZoomLevel == 0 && DefaultLayerInfo.maxZoomLevel == 16
    ensures DefaultLayerInfo.xMin == DefaultLayerInfo.yMin == DefaultLayerInfo.xMax == DefaultLayerInfo.yMax == 0.0
    ensures DefaultLayerInfo.tileWidth == 256 && DefaultLayerInfo.tileHeight == 256
    ensures DefaultLayerInfo.scales.None? && DefaultLayerInfo.resolutions.None?
    ensures DefaultLayerInfo.dpi == 96 && DefaultLayerInfo.srid == 0
    ensures DefaultLayerInfo.origin.None? && DefaultLayerInfo.tileMatrixSet.None?
  {
  }

  // ---------------------------------------------------------------------------------------
  // The factory's constant tables (LayerInfoFactory)

  const ONLINE_HOST_PREFIX := "http://t0.tianditu.com/"

  const URL_VECTOR_2000 := "http://t0.tianditu.com/vec_c/wmts"
  const URL_VECTOR_ANNOTATION_CHINESE_2000 := "http://t0.tianditu.com/cva_c/wmts"
  const URL_VECTOR_ANNOTATION_ENGLISH_2000 := "http://t0.tianditu.com/eva_c/wmts"
  const URL_IMAGE_2000 := "http://t0.tianditu.com/img_c/wmts"
  const URL_IMAGE_ANNOTATION_CHINESE_2000 := "http://t0.tianditu.com/cia_c/wmts"
  const URL_IMAGE_ANNOTATION_ENGLISH_2000 := "http://t0.tianditu.com/eia_c/wmts"
  const URL_TERRAIN_2000 := "http://t0.tianditu.com/ter_c/wmts"
  const URL_TERRAIN_ANNOTATION_CHINESE_2000 := "http://t0.tianditu.com/cta_c/wmts"

  const URL_VECTOR_MERCATOR := "http://t0.tianditu.com/vec_w/wmts"
  const URL_VECTOR_ANNOTATION_CHINESE_MERCATOR := "http://t0.tianditu.com/cva_w/wmts"
  const URL_VECTOR_ANNOTATION_ENGLISH_MERCATOR := "http://t0.tianditu.com/eva_w/wmts"
  const URL_IMAGE_MERCATOR := "http://t0.tianditu.com/img_w/wmts"
  const URL_IMAGE_ANNOTATION_CHINESE_MERCATOR := "http://t0.tianditu.com/cia_w/wmts"
  const URL_IMAGE_ANNOTATION_ENGLISH_MERCATOR := "http://t0.tianditu.com/eia_w/wmts"
  const URL_TERRAIN_MERCATOR := "http://t0.tianditu.com/ter_w/wmts"
  const URL_TERRAIN_ANNOTATION_CHINESE_MERCATOR := "http://t0.tianditu.com/cta_w/wmts"

  /**
   * The offline folders, relative to the hosting application's address (`UrlString`). The
   * source declares the last one but no factory case uses it.
   */
  const DIR_VECTOR_2000_OFFLINE := "Maps/TianDiTu_Vec"
  const DIR_VECTOR_ANNOTATION_CHINESE_2000_OFFLINE := "Maps/TianDiTu_Vec_Annotatoin"
  const DIR_IMAGE_2000_OFFLINE := "Maps/TianDiTu_Img"
  const DIR_IMAGE_ANNOTATION_CHINESE_2000_OFFLINE := "Maps/TianDiTu_Img_Annotatoin"
  const DIR_TERRAIN_2000_OFFLINE := "Maps/TianDiTu_Ter"
  const DIR_TERRAIN_ANNOTATION_CHINESE_2000_OFFLINE := "Maps/TianDiTu_Ter_Annotatoin"

  const LAYER_NAME_VECTOR := "vec"
  const LAYER_NAME_VECTOR_ANNOTATION_CHINESE := "cva"
  const LAYER_NAME_VECTOR_ANNOTATION_ENGLISH := "eva"
  const LAYER_NAME_IMAGE := "img"
  const LAYER_NAME_IMAGE_ANNOTATION_CHINESE := "cia"
  const LAYER_NAME_IMAGE_ANNOTATION_ENGLISH := "eia"
  const LAYER_NAME_TERRAIN := "ter"
  const LAYER_NAME_TERRAIN_ANNOTATION_CHINESE := "cta"

  /** Offline layers reuse the layer-name field as the tile file's extension. */
  const LAYER_NAME_OFFLINE := ".jpg"
  const LAYER_NAME_ANNOTATION_CHINESE_OFFLINE := ".png"

  const TILE_MATRIX_SET_MERCATOR := "w"
  const TILE_MATRIX_SET_2000 := "c"

  const ORIGIN_2000 := MapPoint(-180.0, 90.0)
  const ORIGIN_MERCATOR := MapPoint(-20037508.3427892, 20037508.3427892)

  const SRID_2000 := 4490
  const SRID_MERCATOR := 102100

  const X_MIN_2000 := -180.0
  const Y_MIN_2000 := -90.0
  const X_MAX_2000 := 180.0
  const Y_MAX_2000 := 90.0

  const X_MIN_MERCATOR := -20037508.3427892
  const Y_MIN_MERCATOR := -20037508.3427892
  const X_MAX_MERCATOR := 20037508.3427892
  const Y_MAX_MERCATOR := 20037508.3427892

  const SCALES: seq<real> := [
    2.958293554545656e8, 1.479146777272828e8, 7.39573388636414e7, 3.69786694318207e7,
    1.848933471591035e7, 9244667.357955175, 4622333.678977588, 2311166.839488794,
    1155583.419744397, 577791.7098721985, 288895.85493609926, 144447.92746804963,
    72223.96373402482, 36111.98186701241, 18055.990933506204, 9027.995466753102,
    4513.997733376551, 2256.998866688275]

  const RESOLUTIONS_2000: seq<real> := [
    0.3515625, 0.17578125, 0.087890625, 0.0439453125, 0.02197265625, 0.010986328125,
    0.0054931640625, 0.00274658203125, 0.001373291015625,
    0.0006866455078125, 0.00034332275390625, 0.000171661376953125,
    8.58306884765625e-05, 4.29153442382813e-05, 2.14576721191406e-05]

  const RESOLUTIONS_MERCATOR: seq<real> := [
    39135.83675440267, 19567.918377201335, 9783.959188600667, 4891.979594300334,
    2445.989797150167, 1222.9948985750834, 611.4974492875417,
    305.7487246437696, 152.87436232188531, 76.43718116094266,
    38.21859058047133, 19.109295290235693, 9.554647645117846,
    4.777323822558923, 2.3886619112794585, 1.1943309556397292,
    0.597165477819866]

  // ---------------------------------------------------------------------------------------
  // The reference catalogue, derived from the kind of each layer

  /** The three-letter WMTS layer code: "vec"/"img"/"ter", or "c"/"e" + initial + "a" for annotations in Chinese/English. */
  function LayerCode(content: Content, annotation: Annotation): string {
    var base := match content case Vector => "vec" case Image => "img" case Terrain => "ter";
    match annotation
    case Plain => base
    case Chinese => "c" + [base[0]] + "a"
    case English => "e" + [base[0]] + "a"
  }

  function MatrixSetTag(crs: Crs): string {
    match crs case Cgcs2000 => "c" case Mercator => "w"
  }

  /** The offline tile file's extension: PNG for the transparent annotation overlays, JPEG otherwise. */
  function OfflineSuffix(annotation: Annotation): string {
    if annotation == Plain then ".jpg" else ".png"
  }

  /**
   * The base address a layer of kind `k` should have: the online service endpoint
   * http://t0.tianditu.com/<code>_<tag>/wmts, or a folder Maps/TianDiTu_<Vec|Img|Ter>[_Annotatoin]
   * below the hosting application's address `urlString`.
   */
  function SchemeUrl(k: LayerKind, urlString: string): string {
    if k.offline then
      var folder := match k.content case Vector => "Vec" case Image => "Img" case Terrain => "Ter";
      urlString + "Maps/TianDiTu_" + folder + (if k.annotation == Plain then "" else "_Annotatoin")
    else
      ONLINE_HOST_PREFIX + LayerCode(k.content, k.annotation) + "_" + MatrixSetTag(k.crs) + "/wmts"
  }

  /** The layer name a layer of kind `k` should have: its WMTS code online, its file extension offline. */
  function SchemeLayerName(k: LayerKind): string {
    if k.offline then OfflineSuffix(k.annotation) else LayerCode(k.content, k.annotation)
  }

  /** The Mercator vector service addresses follow the naming scheme. */
  lemma MercatorVectorUrlsFollowScheme(urlString: string)
    ensures URL_VECTOR_MERCATOR == SchemeUrl(LayerKind(Vector, Plain, Mercator, false), urlString)
    ensures URL_VECTOR_ANNOTATION_CHINESE_MERCATOR == SchemeUrl(LayerKind(Vector, Chinese, Mercator, false), urlString)
    ensures URL_VECTOR_ANNOTATION_ENGLISH_MERCATOR == SchemeUrl(LayerKind(Vector, English, Mercator, false), urlString)
  {
  }

  /** The Mercator image service addresses follow the naming scheme. */
  lemma MercatorImageUrlsFollowScheme(urlString: string)
    ensures URL_IMAGE_MERCATOR == SchemeUrl(LayerKind(Image, Plain, Mercator, false), urlString)
    ensures URL_IMAGE_ANNOTATION_CHINESE_MERCATOR == SchemeUrl(LayerKind(Image, Chinese, Mercator, false), urlString)
    ensures URL_IMAGE_ANNOTATION_ENGLISH_MERCATOR == SchemeUrl(LayerKind(Image, English, Mercator, false), urlString)
  {
  }

  /** The Mercator terrain service addresses follow the naming scheme. */
  lemma MercatorTerrainUrlsFollowScheme(urlString: string)
    ensures URL_TERRAIN_MERCATOR == SchemeUrl(LayerKind(Terrain, Plain, Mercator, false), urlString)
    ensures URL_TERRAIN_ANNOTATION_CHINESE_MERCATOR == SchemeUrl(LayerKind(Terrain, Chinese, Mercator, false), urlString)
  {
  }

  /** The national-datum (CGCS2000) vector service addresses follow the naming scheme. */
  lemma Cgcs2000VectorUrlsFollowScheme(urlString: string)
    ensures URL_VECTOR_2000 == SchemeUrl(LayerKind(Vector, Plain, Cgcs2000, false), urlString)
    ensures URL_VECTOR_ANNOTATION_CHINESE_2000 == SchemeUrl(LayerKind(Vector, Chinese, Cgcs2000, false), urlString)
    ensures URL_VECTOR_ANNOTATION_ENGLISH_2000 == SchemeUrl(LayerKind(Vector, English, Cgcs2000, false), urlString)
  {
  }

  /** The national-datum (CGCS2000) image service addresses follow the naming scheme. */
  lemma Cgcs2000ImageUrlsFollowScheme(urlString: string)
    ensures URL_IMAGE_2000 == SchemeUrl(LayerKind(Image, Plain, Cgcs2000, false), urlString)
    ensures URL_IMAGE_ANNOTATION_CHINESE_2000 == SchemeUrl(LayerKind(Image, Chinese, Cgcs2000, false), urlString)
    ensures URL_IMAGE_ANNOTATION_ENGLISH_2000 == SchemeUrl(LayerKind(Image, English, Cgcs2000, false), urlString)
  {
  }

  /** The national-datum (CGCS2000) terrain service addresses follow the naming scheme. */
  lemma Cgcs2000TerrainUrlsFollowScheme(urlString: string)
    ensures URL_TERRAIN_2000 == SchemeUrl(LayerKind(Terrain, Plain, Cgcs2000, false), urlString)
    ensures URL_TERRAIN_ANNOTATION_CHINESE_2000 == SchemeUrl(LayerKind(Terrain, Chinese, Cgcs2000, false), urlString)
  {
  }

  /** The WMTS layer-name constants are the layer codes of their kinds. */
  lemma LayerNamesFollowScheme()
    ensures LAYER_NAME_VECTOR == LayerCode(Vector, Plain)
    ensures LAYER_NAME_VECTOR_ANNOTATION_CHINESE == LayerCode(Vector, Chinese)
    ensures LAYER_NAME_VECTOR_ANNOTATION_ENGLISH == LayerCode(Vector, English)
    ensures LAYER_NAME_IMAGE == LayerCode(Image, Plain)
    ensures LAYER_NAME_IMAGE_ANNOTATION_CHINESE == LayerCode(Image, Chinese)
    ensures LAYER_NAME_IMAGE_ANNOTATION_ENGLISH == LayerCode(Image, English)
    ensures LAYER_NAME_TERRAIN == LayerCode(Terrain, Plain)
    ensures LAYER_NAME_TERRAIN_ANNOTATION_CHINESE == LayerCode(Terrain, Chinese)
  {
  }

  /** The offline folders (including the one no factory case uses) follow the naming scheme. */
  lemma OfflineFoldersFollowScheme(urlString: string)
    ensures urlString + DIR_VECTOR_2000_OFFLINE == SchemeUrl(LayerKind(Vector, Plain, Cgcs2000, true), urlString)
    ensures urlString + DIR_VECTOR_ANNOTATION_CHINESE_2000_OFFLINE == SchemeUrl(LayerKind(Vector, Chinese, Cgcs2000, true), urlString)
    ensures urlString + DIR_IMAGE_2000_OFFLINE == SchemeUrl(LayerKind(Image, Plain, Cgcs2000, true), urlString)
    ensures urlString + DIR_IMAGE_ANNOTATION_CHINESE_2000_OFFLINE == SchemeUrl(LayerKind(Image, Chinese, Cgcs2000, true), urlString)
    ensures urlString + DIR_TERRAIN_2000_OFFLINE == SchemeUrl(LayerKind(Terrain, Plain, Cgcs2000, true), urlString)
    ensures urlString + DIR_TERRAIN_ANNOTATION_CHINESE_2000_OFFLINE == SchemeUrl(LayerKind(Terrain, Chinese, Cgcs2000, true), urlString)
  {
  }

  /** The fields the factory's second switch sets for a coordinate-system family. */
  function WithFamily(info: TianDiTuLayerInfo, crs: Crs): TianDiTuLayerInfo {
    match crs
    case Cgcs2000 =>
      info.(origin := Some(ORIGIN_2000), srid := SRID_2000,
            xMin := X_MIN_2000, yMin := Y_MIN_2000, xMax := X_MAX_2000, yMax := Y_MAX_2000,
            scales := Some(SCALES), resolutions := Some(RESOLUTIONS_2000),
            tileMatrixSet := Some(TILE_MATRIX_SET_2000))
    case Mercator =>
      info.(origin := Some(ORIGIN_MERCATOR), srid := SRID_MERCATOR,
            xMin := X_MIN_MERCATOR, yMin := Y_MIN_MERCATOR, xMax := X_MAX_MERCATOR, yMax := Y_MAX_MERCATOR,
            scales := Some(SCALES), resolutions := Some(RESOLUTIONS_MERCATOR),
            tileMatrixSet := Some(TILE_MATRIX_SET_MERCATOR))
  }

  /**
   * The record the factory returns for `layerType`: the naming scheme, with the two entries
   * where the source departs from it. Vector English-annotation Mercator (2) is never given a
   * layer name; offline Chinese-annotated terrain (21) is given the online annotation service's
   * address instead of its offline folder. Unknown codes keep every default.
   */
  function CatalogEntry(layerType: int, urlString: string): (info: TianDiTuLayerInfo)
    ensures KindOf(layerType).None? ==> info == DefaultLayerInfo
    ensures info.minZoomLevel == 0 && info.maxZoomLevel == 16
    ensures info.tileWidth == 256 && info.tileHeight == 256 && info.dpi == 96
    ensures KindOf(layerType).Some? ==> info.url.Some? && info.scales == Some(SCALES) && |SCALES| == 18
    ensures KindOf(layerType).Some? ==> (info.layerName.None? <==> layerType == TIANDITU_VECTOR_ANNOTATION_ENGLISH_MERCATOR)
    ensures TIANDITU_VECTOR_2000 <= layerType <= TIANDITU_TERRAIN_ANNOTATION_CHINESE_2000_OFFLINE ==>
      && info.srid == 4490 && info.tileMatrixSet == Some("c") && info.origin == Some(MapPoint(-180.0, 90.0))
      && (info.xMin, info.yMin, info.xMax, info.yMax) == (-180.0, -90.0, 180.0, 90.0)
      && info.resolutions == Some(RESOLUTIONS_2000) && |RESOLUTIONS_2000| == 15
    ensures TIANDITU_VECTOR_MERCATOR <= layerType <= TIANDITU_TERRAIN_ANNOTATION_CHINESE_MERCATOR ==>
      && info.srid == 102100 && info.tileMatrixSet == Some("w")
      && info.origin == Some(MapPoint(-20037508.3427892, 20037508.3427892))
      && (info.xMin, info.yMin, info.xMax, info.yMax) == (-20037508.3427892, -20037508.3427892, 20037508.3427892, 20037508.3427892)
      && info.resolutions == Some(RESOLUTIONS_MERCATOR) && |RESOLUTIONS_MERCATOR| == 17
  {
    match KindOf(layerType)
    case None => DefaultLayerInfo
    case Some(k) => WithFamily(NamedEntry(layerType, urlString), k.crs)
  }

  /** What the first switch of the factory sets: the base address and the layer name, with the two departures. */
  function NamedEntry(layerType: int, urlString: string): TianDiTuLayerInfo {
    match KindOf(layerType)
    case None => DefaultLayerInfo
    case Some(k) =>
      var url := if layerType == TIANDITU_TERRAIN_ANNOTATION_CHINESE_2000_OFFLINE
                 then URL_TERRAIN_ANNOTATION_CHINESE_2000 else SchemeUrl(k, urlString);
      var name := if layerType == TIANDITU_VECTOR_ANNOTATION_ENGLISH_MERCATOR
                  then None else Some(SchemeLayerName(k));
      DefaultLayerInfo.(url := Some(url), layerName := name)
  }

  // ---------------------------------------------------------------------------------------
  // The factory (LayerInfoFactory.getLayerInfo / handleLayerInfo)

  /**
   * `getLayerInfo`: starts from a fresh record, sets the base address and layer name per type
   * (the first switch, case by case as in the source), then hands over to `HandleLayerInfo`.
   * `urlString` is the hosting application's address that the offline folders hang off.
   */
  method GetLayerInfo(layerType: int, urlString: string) returns (info: TianDiTuLayerInfo)
    ensures info == CatalogEntry(layerType, urlString)
  {
    MercatorVectorUrlsFollowScheme(urlString);
    MercatorImageUrlsFollowScheme(urlString);
    MercatorTerrainUrlsFollowScheme(urlString);
    Cgcs2000VectorUrlsFollowScheme(urlString);
    Cgcs2000ImageUrlsFollowScheme(urlString);
    Cgcs2000TerrainUrlsFollowScheme(urlString);
    LayerNamesFollowScheme();
    OfflineFoldersFollowScheme(urlString);
    info := DefaultLayerInfo;
    if layerType == TIANDITU_IMAGE_2000 {
      info := info.(url := Some(URL_IMAGE_2000), layerName := Some(LAYER_NAME_IMAGE));
    } else if layerType == TIANDITU_IMAGE_ANNOTATION_CHINESE_2000 {
      info := info.(url := Some(URL_IMAGE_ANNOTATION_CHINESE_2000), layerName := Some(LAYER_NAME_IMAGE_ANNOTATION_CHINESE));
    } else if layerType == TIANDITU_IMAGE_ANNOTATION_ENGLISH_2000 {
      info := info.(url := Some(URL_IMAGE_ANNOTATION_ENGLISH_2000), layerName := Some(LAYER_NAME_IMAGE_ANNOTATION_ENGLISH));
    } else if layerType == TIANDITU_IMAGE_ANNOTATION_CHINESE_MERCATOR {
      info := info.(url := Some(URL_IMAGE_ANNOTATION_CHINESE_MERCATOR), layerName := Some(LAYER_NAME_IMAGE_ANNOTATION_CHINESE));
    } else if layerType == TIANDITU_IMAGE_ANNOTATION_ENGLISH_MERCATOR {
      info := info.(url := Some(URL_IMAGE_ANNOTATION_ENGLISH_MERCATOR), layerName := Some(LAYER_NAME_IMAGE_ANNOTATION_ENGLISH));
    } else if layerType == TIANDITU_IMAGE_MERCATOR {
      info := info.(url := Some(URL_IMAGE_MERCATOR), layerName := Some(LAYER_NAME_IMAGE));
    } else if layerType == TIANDITU_VECTOR_2000 {
      info := info.(url := Some(URL_VECTOR_2000), layerName := Some(LAYER_NAME_VECTOR));
    } else if layerType == TIANDITU_VECTOR_ANNOTATION_CHINESE_2000 {
      info := info.(url := Some(URL_VECTOR_ANNOTATION_CHINESE_2000), layerName := Some(LAYER_NAME_VECTOR_ANNOTATION_CHINESE));
    } else if layerType == TIANDITU_VECTOR_ANNOTATION_ENGLISH_2000 {
      info := info.(url := Some(URL_VECTOR_ANNOTATION_ENGLISH_2000), layerName := Some(LAYER_NAME_VECTOR_ANNOTATION_ENGLISH));
    } else if layerType == TIANDITU_VECTOR_ANNOTATION_CHINESE_MERCATOR {
      info := info.(url := Some(URL_VECTOR_ANNOTATION_CHINESE_MERCATOR), layerName := Some(LAYER_NAME_VECTOR_ANNOTATION_CHINESE));
    } else if layerType == TIANDITU_VECTOR_ANNOTATION_ENGLISH_MERCATOR {
      info := info.(url := Some(URL_VECTOR_ANNOTATION_ENGLISH_MERCATOR));
    } else if layerType == TIANDITU_VECTOR_MERCATOR {
      info := info.(url := Some(URL_VECTOR_MERCATOR), layerName := Some(LAYER_NAME_VECTOR));
    } else if layerType == TIANDITU_TERRAIN_2000 {
      info := info.(url := Some(URL_TERRAIN_2000), layerName := Some(LAYER_NAME_TERRAIN));
    } else if layerType == TIANDITU_TERRAIN_ANNOTATION_CHINESE_2000 {
      info := info.(url := Some(URL_TERRAIN_ANNOTATION_CHINESE_2000), layerName := Some(LAYER_NAME_TERRAIN_ANNOTATION_CHINESE));
    } else if layerType == TIANDITU_TERRAIN_MERCATOR {
      info := info.(url := Some(URL_TERRAIN_MERCATOR), layerName := Some(LAYER_NAME_TERRAIN));
    } else if layerType == TIANDITU_TERRAIN_ANNOTATION_CHINESE_MERCATOR {
      info := info.(url := Some(URL_TERRAIN_ANNOTATION_CHINESE_MERCATOR), layerName := Some(LAYER_NAME_TERRAIN_ANNOTATION_CHINESE));
    } else if layerType == TIANDITU_IMAGE_2000_OFFLINE {
      info := info.(url := Some(urlString + DIR_IMAGE_2000_OFFLINE), layerName := Some(LAYER_NAME_OFFLINE));
    } else if layerType == TIANDITU_IMAGE_ANNOTATION_CHINESE_2000_OFFLINE {
      info := info.(url := Some(urlString + DIR_IMAGE_ANNOTATION_CHINESE_2000_OFFLINE), layerName := Some(LAYER_NAME_ANNOTATION_CHINESE_OFFLINE));
    } else if layerType == TIANDITU_VECTOR_2000_OFFLINE {
      info := info.(url := Some(urlString + DIR_VECTOR_2000_OFFLINE), layerName := Some(LAYER_NAME_OFFLINE));
    } else if layerType == TIANDITU_VECTOR_ANNOTATION_CHINESE_2000_OFFLINE {
      info := info.(url := Some(urlString + DIR_VECTOR_ANNOTATION_CHINESE_2000_OFFLINE), layerName := Some(LAYER_NAME_ANNOTATION_CHINESE_OFFLINE));
    } else if layerType == TIANDITU_TERRAIN_2000_OFFLINE {
      info := info.(url := Some(urlString + DIR_TERRAIN_2000_OFFLINE), layerName := Some(LAYER_NAME_OFFLINE));
    } else if layerType == TIANDITU_TERRAIN_ANNOTATION_CHINESE_2000_OFFLINE {
      info := info.(url := Some(URL_TERRAIN_ANNOTATION_CHINESE_2000), layerName := Some(LAYER_NAME_ANNOTATION_CHINESE_OFFLINE));
    }
    info := HandleLayerInfo(info, layerType);
  }

  /**
   * `handleLayerInfo`: the second switch. Every code of the national-datum family (8-21) gets
   * the CGCS2000 tables, every code of the Mercator family (0-7) the Mercator tables; any other
   * code matches no case and the record is returned unchanged. Base address and layer name are
   * never touched.
   */
  method HandleLayerInfo(info: TianDiTuLayerInfo, layerType: int) returns (r: TianDiTuLayerInfo)
    ensures KindOf(layerType).None? ==> r == info
    ensures KindOf(layerType).Some? ==> r == WithFamily(info, KindOf(layerType).value.crs)
    ensures r.url == info.url && r.layerName == info.layerName
  {
    r := info;
    if layerType == TIANDITU_IMAGE_2000 || layerType == TIANDITU_IMAGE_ANNOTATION_CHINESE_2000
      || layerType == TIANDITU_IMAGE_ANNOTATION_ENGLISH_2000 || layerType == TIANDITU_VECTOR_2000
      || layerType == TIANDITU_VECTOR_ANNOTATION_CHINESE_2000 || layerType == TIANDITU_VECTOR_ANNOTATION_ENGLISH_2000
      || layerType == TIANDITU_TERRAIN_2000 || layerType == TIANDITU_TERRAIN_ANNOTATION_CHINESE_2000
      || layerType == TIANDITU_IMAGE_2000_OFFLINE || layerType == TIANDITU_IMAGE_ANNOTATION_CHINESE_2000_OFFLINE
      || layerType == TIANDITU_VECTOR_2000_OFFLINE || layerType == TIANDITU_VECTOR_ANNOTATION_CHINESE_2000_OFFLINE
      || layerType == TIANDITU_TERRAIN_2000_OFFLINE || layerType == TIANDITU_TERRAIN_ANNOTATION_CHINESE_2000_OFFLINE
    {
      r := r.(origin := Some(ORIGIN_2000));
      r := r.(srid := SRID_2000);
      r := r.(xMin := X_MIN_2000);
      r := r.(yMin := Y_MIN_2000);
      r := r.(xMax := X_MAX_2000);
      r := r.(yMax := Y_MAX_2000);
      r := r.(scales := Some(SCALES));
      r := r.(resolutions := Some(RESOLUTIONS_2000));
      r := r.(tileMatrixSet := Some(TILE_MATRIX_SET_2000));
    } else if layerType == TIANDITU_IMAGE_ANNOTATION_CHINESE_MERCATOR || layerType == TIANDITU_IMAGE_ANNOTATION_ENGLISH_MERCATOR
      || layerType == TIANDITU_IMAGE_MERCATOR || layerType == TIANDITU_VECTOR_ANNOTATION_CHINESE_MERCATOR
      || layerType == TIANDITU_VECTOR_ANNOTATION_ENGLISH_MERCATOR || layerType == TIANDITU_VECTOR_MERCATOR
      || layerType == TIANDITU_TERRAIN_MERCATOR || layerType == TIANDITU_TERRAIN_ANNOTATION_CHINESE_MERCATOR
    {
      r := r.(origin := Some(ORIGIN_MERCATOR));
      r := r.(srid := SRID_MERCATOR);
      r := r.(xMin := X_MIN_MERCATOR);
      r := r.(yMin := Y_MIN_MERCATOR);
      r := r.(xMax := X_MAX_MERCATOR);
      r := r.(yMax := Y_MAX_MERCATOR);
      r := r.(scales := Some(SCALES));
      r := r.(resolutions := Some(RESOLUTIONS_MERCATOR));
      r := r.(tileMatrixSet := Some(TILE_MATRIX_SET_MERCATOR));
    }
  }
}

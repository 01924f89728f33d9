/**
 * The two tiled layers of AbnerTeamSL/Maps/MapsProvider.cs: `TianDiTuLayer`, which addresses
 * tiles of the live TianDiTu WMTS service with a key-value GetTile request (lower-case keys,
 * `format=tiles`, tile matrix = zoom level + 2), and `TianDiTuOffLineLayer`, which addresses
 * tiles copied below the hosting application and refuses any base address on the live host.
 *
 * Both take their `TianDiTuLayerInfo` from the factory when constructed and never change it.
 * `Initialize` copies the spatial metadata into the ArcGIS layer properties; the ArcGIS types
 * (`SpatialReference`, `Envelope`, `TileInfo`, `Lod`) are plain records here.
 */
module TileLayers {
  import opened Wrappers
  import opened Text
  import opened LayerCatalog

  datatype Envelope = Envelope(xMin: real, yMin: real, xMax: real, yMax: real)

  /** One level of detail: the ground distance a pixel covers at that level. */
  datatype Lod = Lod(resolution: real)

  /** The tiling scheme handed to the map control; `lods` is the array `Initialize` fills. */
  datatype TileInfo = TileInfo(height: int, width: int, origin: Option<MapPoint>, lods: array<Lod>)

  /** The live service's host name, which the offline layer refuses to contact. */
  const HOST_FRAGMENT := "tianditu.com"

  /** C# string concatenation renders a null string as the empty string. */
  function OrEmpty(s: Option<string>): (r: string)
    ensures s.None? ==> r == ""
    ensures s.Some? ==> r == s.value
  {
    if s.Some? then s.value else ""
  }

  /**
   * The online layer's WMTS GetTile request for tile (`row`, `col`) at zoom `level`: lower-case
   * keys, `format=tiles`, and the tile matrix numbered two above the zoom level.
   */
  function TileRequest(base: string, layerName: string, matrixSet: string, level: int, row: int, col: int): (url: string)
    ensures StartsWith(url, base + "?service=wmts&request=gettile&version=1.0.0&layer=")
    ensures EndsWith(url, "&tilematrix=" + IntToString(level + 2))
  {
    var head := base + "?service=wmts&request=gettile&version=1.0.0&layer=";
    var middle := layerName + "&format=tiles&tilematrixset=" + matrixSet
      + "&tilecol=" + IntToString(col) + "&tilerow=" + IntToString(row);
    var tail := "&tilematrix=" + IntToString(level + 2);
    ConcatEnds(head, middle, tail);
    head + middle + tail
  }

  /**
   * A request names its tile: for the same endpoint, layer and matrix set, equal requests have
   * equal zoom levels, rows and columns.
   */
  lemma TileRequestInjective(base: string, layerName: string, matrixSet: string,
                             level: int, row: int, col: int, level': int, row': int, col': int)
    requires TileRequest(base, layerName, matrixSet, level, row, col)
          == TileRequest(base, layerName, matrixSet, level', row', col')
    ensures level == level' && row == row' && col == col'
  {
    var p := base + "?service=wmts&request=gettile&version=1.0.0&layer=" + layerName
      + "&format=tiles&tilematrixset=" + matrixSet + "&tilecol=";
    var z, z' := "tilematrix=" + IntToString(level + 2), "tilematrix=" + IntToString(level' + 2);
    var w, w' := IntToString(row) + "&" + z, IntToString(row') + "&" + z';
    var v, v' := IntToString(col) + "&" + ("tilerow=" + w), IntToString(col') + "&" + ("tilerow=" + w');
    TileRequestShape(base, layerName, matrixSet, level, row, col);
    TileRequestShape(base, layerName, matrixSet, level', row', col');
    DropPrefix(p, v, v');
    NumeralLacks(col, '&');
    NumeralLacks(col', '&');
    SplitAtMark(IntToString(col), "tilerow=" + w, IntToString(col'), "tilerow=" + w', '&');
    IntToStringInjective(col, col');
    DropPrefix("tilerow=", w, w');
    NumeralLacks(row, '&');
    NumeralLacks(row', '&');
    SplitAtMark(IntToString(row), z, IntToString(row'), z', '&');
    IntToStringInjective(row, row');
    DropPrefix("tilematrix=", IntToString(level + 2), IntToString(level' + 2));
    IntToStringInjective(level + 2, level' + 2);
  }

  /** A request regrouped around the ampersands that follow its column and row numerals. */
  lemma TileRequestShape(base: string, layerName: string, matrixSet: string, level: int, row: int, col: int)
    ensures TileRequest(base, layerName, matrixSet, level, row, col)
         == base + "?service=wmts&request=gettile&version=1.0.0&layer=" + layerName
            + "&format=tiles&tilematrixset=" + matrixSet + "&tilecol="
            + (IntToString(col) + "&" + ("tilerow=" + (IntToString(row) + "&" + ("tilematrix=" + IntToString(level + 2)))))
  {
    assert "&tilerow=" == "&" + "tilerow=";
    assert "&tilematrix=" == "&" + "tilematrix=";
    Regroup(base + "?service=wmts&request=gettile&version=1.0.0&layer=", layerName,
      "&format=tiles&tilematrixset=", matrixSet, "&tilecol=", IntToString(col), "&", "tilerow=",
      IntToString(row), "tilematrix=", IntToString(level + 2));
  }

  /** The regrouping `TileRequestShape` needs, on plain strings. */
  lemma Regroup(h: string, n: string, f: string, t: string, tc: string, c: string, a: string,
                tr: string, r: string, tm: string, l: string)
    ensures h + (n + f + t + tc + c + (a + tr) + r) + ((a + tm) + l)
         == h + n + f + t + tc + (c + a + (tr + (r + a + (tm + l))))
  {
  }

  /**
   * The offline layer's path of tile (`row`, `col`) at zoom `level` below the folder `base`:
   * metrix<level + 2>/row<row>/col<col>, followed by the file extension `suffix`.
   */
  function TilePath(base: string, level: int, row: int, col: int, suffix: string): (path: string)
    ensures StartsWith(path, base + "/metrix" + IntToString(level + 2) + "/row")
    ensures EndsWith(path, suffix)
  {
    var head := base + "/metrix" + IntToString(level + 2) + "/row";
    var middle := IntToString(row) + "/col" + IntToString(col);
    ConcatEnds(head, middle, suffix);
    head + middle + suffix
  }

  /**
   * The tiling scheme of both `Initialize` overrides: tile size and origin from the layer
   * information, and one level of detail per entry of its resolution table, in order.
   * A null resolution table makes the source throw, hence the precondition.
   */
  method NewTileInfo(info: TianDiTuLayerInfo) returns (tileInfo: TileInfo)
    requires info.resolutions.Some?
    ensures fresh(tileInfo.lods)
    ensures tileInfo.height == info.tileHeight && tileInfo.width == info.tileWidth
    ensures tileInfo.origin == info.origin
    ensures tileInfo.lods.Length == |info.resolutions.value|
    ensures forall i :: 0 <= i < tileInfo.lods.Length ==> tileInfo.lods[i].resolution == info.resolutions.value[i]
  {
    var resolutions := info.resolutions.value;
    var lods := new Lod[|resolutions|];
    tileInfo := TileInfo(info.tileHeight, info.tileWidth, info.origin, lods);
    for i := 0 to lods.Length
      invariant forall j :: 0 <= j < i ==> lods[j].resolution == resolutions[j]
    {
      lods[i] := Lod(resolutions[i]);
    }
  }

  /** The online layer (`TianDiTuLayer`). */
  class TianDiTuLayer {
    const layerInfo: TianDiTuLayerInfo
    var spatialReference: Option<int>
    var fullExtent: Option<Envelope>
    var tileInfo: Option<TileInfo>

    /** `urlString` is the hosting application's address that the factory's offline folders hang off. */
    constructor (layerType: int, urlString: string)
      ensures layerInfo == CatalogEntry(layerType, urlString)
      ensures spatialReference.None? && fullExtent.None? && tileInfo.None?
    {
      var info := GetLayerInfo(layerType, urlString);
      layerInfo := info;
      spatialReference, fullExtent, tileInfo := None, None, None;
    }

    /**
     * The GetTile request for tile (`row`, `col`) at zoom `level`, or "" when the level lies
     * outside the layer's zoom range.
     */
    function GetTileUrl(level: int, row: int, col: int): (url: string)
      ensures url == "" <==> level > layerInfo.maxZoomLevel || level < layerInfo.minZoomLevel
      ensures url != "" ==> StartsWith(url, OrEmpty(layerInfo.url) + "?service=wmts&request=gettile&version=1.0.0&layer=")
      ensures url != "" ==> EndsWith(url, "&tilematrix=" + IntToString(level + 2))
    {
      if level > layerInfo.maxZoomLevel || level < layerInfo.minZoomLevel then ""
      else
        TileRequest(OrEmpty(layerInfo.url), OrEmpty(layerInfo.layerName), OrEmpty(layerInfo.tileMatrixSet), level, row, col)
    }

    /** Publishes the layer's spatial reference, extent and tiling scheme. */
    method Initialize()
      requires layerInfo.resolutions.Some?
      modifies this
      ensures spatialReference == Some(layerInfo.srid)
      ensures fullExtent == Some(Envelope(layerInfo.xMin, layerInfo.yMin, layerInfo.xMax, layerInfo.yMax))
      ensures tileInfo.Some? && fresh(tileInfo.value.lods)
      ensures tileInfo.value.height == layerInfo.tileHeight && tileInfo.value.width == layerInfo.tileWidth
      ensures tileInfo.value.origin == layerInfo.origin
      ensures tileInfo.value.lods.Length == |layerInfo.resolutions.value|
      ensures forall i :: 0 <= i < tileInfo.value.lods.Length ==>
        tileInfo.value.lods[i].resolution == layerInfo.resolutions.value[i]
    {
      spatialReference := Some(layerInfo.srid);
      fullExtent := Some(Envelope(layerInfo.xMin, layerInfo.yMin, layerInfo.xMax, layerInfo.yMax));
      var ti := NewTileInfo(layerInfo);
      tileInfo := Some(ti);
    }
  }

  /** The offline layer (`TianDiTuOffLineLayer`). */
  class TianDiTuOffLineLayer {
    const layerInfo: TianDiTuLayerInfo
    var spatialReference: Option<int>
    var fullExtent: Option<Envelope>
    var tileInfo: Option<TileInfo>

    constructor (layerType: int, urlString: string)
      ensures layerInfo == CatalogEntry(layerType, urlString)
      ensures spatialReference.None? && fullExtent.None? && tileInfo.None?
    {
      var info := GetLayerInfo(layerType, urlString);
      layerInfo := info;
      spatialReference, fullExtent, tileInfo := None, None, None;
    }

    /** The guard of `GetTileUrl`: the level is out of range, or the base address is on the live host. */
    predicate Refuses(level: int)
      requires layerInfo.minZoomLevel <= level <= layerInfo.maxZoomLevel ==> layerInfo.url.Some?
    {
      level > layerInfo.maxZoomLevel || level < layerInfo.minZoomLevel
      || Contains(layerInfo.url.value, HOST_FRAGMENT)
    }

    /**
     * The path of tile (`row`, `col`) at zoom `level` below the layer's folder, ending in the
     * file extension kept in the layer-name field; "" when the guard refuses. The source
     * dereferences the base address once the level is in range, hence the precondition.
     */
    function GetTileUrl(level: int, row: int, col: int): (url: string)
      requires layerInfo.minZoomLevel <= level <= layerInfo.maxZoomLevel ==> layerInfo.url.Some?
      ensures url == "" <==> Refuses(level)
      ensures url != "" ==> StartsWith(url, layerInfo.url.value + "/metrix" + IntToString(level + 2) + "/row")
      ensures url != "" ==> EndsWith(url, OrEmpty(layerInfo.layerName))
    {
      if Refuses(level) then ""
      else
        TilePath(layerInfo.url.value, level, row, col, OrEmpty(layerInfo.layerName))
    }

    /** Publishes the layer's spatial reference, extent and tiling scheme. */
    method Initialize()
      requires layerInfo.resolutions.Some?
      modifies this
      ensures spatialReference == Some(layerInfo.srid)
      ensures fullExtent == Some(Envelope(layerInfo.xMin, layerInfo.yMin, layerInfo.xMax, layerInfo.yMax))
      ensures tileInfo.Some? && fresh(tileInfo.value.lods)
      ensures tileInfo.value.height == layerInfo.tileHeight && tileInfo.value.width == layerInfo.tileWidth
      ensures tileInfo.value.origin == layerInfo.origin
      ensures tileInfo.value.lods.Length == |layerInfo.resolutions.value|
      ensures forall i :: 0 <= i < tileInfo.value.lods.Length ==>
        tileInfo.value.lods[i].resolution == layerInfo.resolutions.value[i]
    {
      spatialReference := Some(layerInfo.srid);
      fullExtent := Some(Envelope(layerInfo.xMin, layerInfo.yMin, layerInfo.xMax, layerInfo.yMax));
      var ti := NewTileInfo(layerInfo);
      tileInfo := Some(ti);
    }
  }

  // ---------------------------------------------------------------------------------------
  // What the two layers request, for the layers the factory builds

  /** The online layer requests exactly the zoom levels 0 to 16 of every catalogue entry. */
  lemma OnlineZoomRange(layer: TianDiTuLayer, layerType: int, urlString: string, level: int, row: int, col: int)
    requires layer.layerInfo == CatalogEntry(layerType, urlString)
    ensures layer.GetTileUrl(level, row, col) == "" <==> level < 0 || level > 16
  {
  }

  /**
   * For a known online type code in range, the request is the service endpoint of its kind
   * followed by the GetTile parameters: its layer code (empty for type 2, which is never given
   * a name), its tile-matrix-set tag, the column, the row and the zoom level shifted by two.
   */
  lemma OnlineTileUrl(layer: TianDiTuLayer, layerType: int, urlString: string, level: int, row: int, col: int)
    requires layer.layerInfo == CatalogEntry(layerType, urlString)
    requires TIANDITU_VECTOR_MERCATOR <= layerType <= TIANDITU_TERRAIN_ANNOTATION_CHINESE_2000
    requires 0 <= level <= 16
    ensures var k := KindOf(layerType).value;
      layer.GetTileUrl(level, row, col) ==
        TileRequest(SchemeUrl(k, urlString),
                    if layerType == TIANDITU_VECTOR_ANNOTATION_ENGLISH_MERCATOR then "" else LayerCode(k.content, k.annotation),
                    MatrixSetTag(k.crs), level, row, col)
  {
  }

  /** An unknown type code keeps the empty defaults, so its request has no endpoint and no layer. */
  lemma UnknownTypeTileUrl(layer: TianDiTuLayer, layerType: int, urlString: string, level: int, row: int, col: int)
    requires layer.layerInfo == CatalogEntry(layerType, urlString)
    requires KindOf(layerType).None? && 0 <= level <= 16
    ensures layer.GetTileUrl(level, row, col) == TileRequest("", "", "", level, row, col)
  {
  }

  /** Image tile (row 3, column 7) at zoom 5 in the CGCS2000 system, written out piece by piece. */
  lemma ImageTileExample(layer: TianDiTuLayer, urlString: string)
    requires layer.layerInfo == CatalogEntry(TIANDITU_IMAGE_2000, urlString)
    ensures layer.GetTileUrl(5, 3, 7) ==
      "http://t0.tianditu.com/img_c/wmts" + "?service=wmts&request=gettile&version=1.0.0&layer="
      + ("img" + "&format=tiles&tilematrixset=" + "c" + "&tilecol=" + "7" + "&tilerow=" + "3")
      + ("&tilematrix=" + "7")
  {
    OnlineTileUrl(layer, TIANDITU_IMAGE_2000, urlString, 5, 3, 7);
    var k := KindOf(TIANDITU_IMAGE_2000).value;
    assert k == LayerKind(Image, Plain, Cgcs2000, false);
    assert SchemeUrl(k, urlString) == "http://t0.tianditu.com/img_c/wmts";
    assert IntToString(7) == "7" && IntToString(3) == "3";
  }

  /** Every online service endpoint is on the live host. */
  lemma OnlineEndpointOnHost(k: LayerKind, urlString: string)
    requires !k.offline
    ensures Contains(SchemeUrl(k, urlString), HOST_FRAGMENT)
  {
    var s := SchemeUrl(k, urlString);
    assert s[10..22] == ONLINE_HOST_PREFIX[10..22];
    assert ContainsAt(s, HOST_FRAGMENT, 10);
  }

  /**
   * The offline layer refuses every type code whose base address is an online endpoint:
   * the online types 0 to 15 and the misconfigured offline terrain annotation (21).
   */
  lemma OfflineRefusesOnlineEndpoints(layer: TianDiTuOffLineLayer, layerType: int, urlString: string, level: int, row: int, col: int)
    requires layer.layerInfo == CatalogEntry(layerType, urlString)
    requires TIANDITU_VECTOR_MERCATOR <= layerType <= TIANDITU_TERRAIN_ANNOTATION_CHINESE_2000
          || layerType == TIANDITU_TERRAIN_ANNOTATION_CHINESE_2000_OFFLINE
    ensures layer.GetTileUrl(level, row, col) == ""
  {
    if layerType == TIANDITU_TERRAIN_ANNOTATION_CHINESE_2000_OFFLINE {
      Cgcs2000TerrainUrlsFollowScheme(urlString);
      OnlineEndpointOnHost(LayerKind(Terrain, Chinese, Cgcs2000, false), urlString);
    } else {
      OnlineEndpointOnHost(KindOf(layerType).value, urlString);
    }
  }

  /** A numeral has no character of the host name. */
  lemma NumeralAvoidsHost(i: int)
    ensures forall k :: 0 <= k < |IntToString(i)| ==> IntToString(i)[k] !in HOST_FRAGMENT
  {
  }

  /**
   * A tile path hung off a base address free of the host name stays free of it, whatever the
   * numbers: the separators and digits contain no character that could complete the name.
   */
  lemma TilePathAvoidsHost(base: string, level: int, row: int, col: int, suffix: string)
    requires !Contains(base, HOST_FRAGMENT)
    requires |suffix| < |HOST_FRAGMENT|
    ensures !Contains(TilePath(base, level, row, col, suffix), HOST_FRAGMENT)
  {
    var mid := "metrix" + IntToString(level + 2) + "/row" + IntToString(row) + "/col";
    var d := IntToString(col);
    TileDirectoryAvoidsHost(level + 2, row);
    ContainsAcross(base, "/", mid, HOST_FRAGMENT);
    NumeralAvoidsHost(col);
    ContainsAcross(base + "/" + mid, d, suffix, HOST_FRAGMENT);
    assert TilePath(base, level, row, col, suffix) == base + "/" + mid + d + suffix;
  }

  /** The directory part of a tile path has no '.', so it cannot hold the host name. */
  lemma TileDirectoryAvoidsHost(matrix: int, row: int)
    ensures !Contains("metrix" + IntToString(matrix) + "/row" + IntToString(row) + "/col", HOST_FRAGMENT)
  {
    var mid := "metrix" + IntToString(matrix) + "/row" + IntToString(row) + "/col";
    NumeralLacks(matrix, '.');
    NumeralLacks(row, '.');
    assert '.' !in mid;
    MissingCharNotContained(mid, HOST_FRAGMENT, 8);
  }

  /** The factory's offline folders stay off the live host when the application's address does. */
  lemma OfflineFolderAvoidsHost(k: LayerKind, urlString: string)
    requires k.offline && !Contains(urlString, HOST_FRAGMENT)
    ensures !Contains(SchemeUrl(k, urlString), HOST_FRAGMENT)
  {
    var folder := match k.content case Vector => "Vec" case Image => "Img" case Terrain => "Ter";
    var annotation := if k.annotation == Plain then "" else "_Annotatoin";
    var rest := "aps/TianDiTu_" + folder + annotation;
    FolderNamesAvoidHost(folder, annotation);
    assert 'M' !in HOST_FRAGMENT;
    ContainsAcross(urlString, "M", rest, HOST_FRAGMENT);
    assert "Maps/TianDiTu_" == "M" + "aps/TianDiTu_";
    assert SchemeUrl(k, urlString) == urlString + "M" + rest;
  }

  /** The folder names after the "M", having no '.', cannot hold the host name. */
  lemma FolderNamesAvoidHost(folder: string, annotation: string)
    requires folder in {"Vec", "Img", "Ter"} && annotation in {"", "_Annotatoin"}
    ensures !Contains("aps/TianDiTu_" + folder + annotation, HOST_FRAGMENT)
  {
    var rest := "aps/TianDiTu_" + folder + annotation;
    assert '.' !in "aps/TianDiTu_" && '.' !in folder && '.' !in annotation;
    assert '.' !in rest;
    MissingCharNotContained(rest, HOST_FRAGMENT, 8);
  }

  /** Whatever it is built for, the offline layer never produces an address on the live host. */
  lemma OfflineNeverReachesHost(layer: TianDiTuOffLineLayer, layerType: int, urlString: string, level: int, row: int, col: int)
    requires layer.layerInfo == CatalogEntry(layerType, urlString)
    requires KindOf(layerType).Some?
    ensures !Contains(layer.GetTileUrl(level, row, col), HOST_FRAGMENT)
  {
    var url := layer.GetTileUrl(level, row, col);
    if url != "" {
      var suffix := OrEmpty(layer.layerInfo.layerName);
      if layerType < TIANDITU_IMAGE_2000_OFFLINE || layerType == TIANDITU_TERRAIN_ANNOTATION_CHINESE_2000_OFFLINE {
        OfflineRefusesOnlineEndpoints(layer, layerType, urlString, level, row, col);
      }
      assert suffix == OfflineSuffix(KindOf(layerType).value.annotation);
      TilePathAvoidsHost(layer.layerInfo.url.value, level, row, col, suffix);
    }
  }

  /**
   * The offline types 16 to 20, under an application address free of the host name, address
   * the tile file metrix<level + 2>/row<row>/col<col> in the kind's folder, as a JPEG for the
   * base maps and a PNG for the annotation overlays.
   */
  lemma OfflineTilePath(layer: TianDiTuOffLineLayer, layerType: int, urlString: string, level: int, row: int, col: int)
    requires layer.layerInfo == CatalogEntry(layerType, urlString)
    requires TIANDITU_IMAGE_2000_OFFLINE <= layerType <= TIANDITU_TERRAIN_2000_OFFLINE
    requires !Contains(urlString, HOST_FRAGMENT) && 0 <= level <= 16
    ensures var k := KindOf(layerType).value;
      layer.GetTileUrl(level, row, col) ==
        TilePath(SchemeUrl(k, urlString), level, row, col, OfflineSuffix(k.annotation))
  {
    OfflineFolderAvoidsHost(KindOf(layerType).value, urlString);
  }

  /** Offline vector tile (0, 0) at zoom 2: the vector folder, then metrix4/row0/col0, as a JPEG. */
  lemma OfflineVectorTileExample(layer: TianDiTuOffLineLayer, urlString: string)
    requires layer.layerInfo == CatalogEntry(TIANDITU_VECTOR_2000_OFFLINE, urlString)
    requires !Contains(urlString, HOST_FRAGMENT)
    ensures layer.GetTileUrl(2, 0, 0) ==
      urlString + DIR_VECTOR_2000_OFFLINE + "/metrix" + "4" + "/row" + ("0" + "/col" + "0") + LAYER_NAME_OFFLINE
  {
    OfflineTilePath(layer, TIANDITU_VECTOR_2000_OFFLINE, urlString, 2, 0, 0);
    var k := LayerKind(Vector, Plain, Cgcs2000, true);
    assert KindOf(TIANDITU_VECTOR_2000_OFFLINE) == Some(k);
    OfflineFoldersFollowScheme(urlString);
    var folder := urlString + DIR_VECTOR_2000_OFFLINE;
    assert layer.GetTileUrl(2, 0, 0) == TilePath(folder, 2, 0, 0, LAYER_NAME_OFFLINE);
    assert IntToString(4) == "4" && IntToString(0) == "0";
  }
}

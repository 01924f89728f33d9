# TianDiTu map layers and the session store, in Dafny

This project models two parts of the AbnerTeamSL Silverlight client library and proves
properties of them.

- **The TianDiTu tile layers** (`AbnerTeamSL/Maps/MapsProvider.cs`):
  - the 22 layer-type codes;
  - the layer-information record and the factory (`LayerInfoFactory`), which fills the record in for a code;
  - the online layer, which builds WMTS GetTile requests for the live TianDiTu service;
  - the offline layer, which builds paths to tile files copied below the hosting application, and refuses any base address on the live host;
  - the level-of-detail table that both `Initialize` overrides fill in;
  - `MapHelper`: finding a layer by ID, and taking the prefix of the application's address through the first '/' at or after index 7. That prefix is the root address for a 7-character scheme such as `http://`. For `https://` it is the scheme alone.
- **The session store** (`AbnerTeamSL/Session/SessionManager.cs`): a list of named values with upsert, lookup, first-match removal, clearing, a count and a comma-separated listing of the names.

Modules, one per file:

| file | module | models |
|---|---|---|
| `wrappers.dfy` | `Wrappers` | `Option` for null references, `Result` for thrown exceptions |
| `text.dfy` | `Text` | the .NET string operations the layers use (integer rendering, `Contains`, `IndexOf(char, int)`), and the prefix and suffix predicates `StartsWith`/`EndsWith`, in which the contracts state URL shapes |
| `layer_catalog.dfy` | `LayerCatalog` | layer codes, `TianDiTuLayerInfo`, the constant tables, `getLayerInfo`/`handleLayerInfo` |
| `tile_layers.dfy` | `TileLayers` | `TianDiTuLayer`, `TianDiTuOffLineLayer` (`GetTileUrl`, `Initialize`) |
| `map_helper.dfy` | `MapHelper` | `GetLayerIndex`, `GetUrl` |
| `session_manager.dfy` | `Session` | `SessionInfo`, `SessionManager` |

The factory is kept as the source writes it: a switch of setter calls per type code, then a
second switch per coordinate-system family. It is proved equal to `CatalogEntry`, a reference
catalogue derived from what each code's constant name says it is (`KindOf`). That derivation
exposes the source's two irregular entries:
- type 2 (vector, English annotation, Mercator) is never given a layer name;
- type 21 (offline Chinese-annotated terrain) is given the online service's address, so the offline layer refuses all of its tiles.

Both are modelled as written.

An unrecognised type code keeps the record's field initialisers: zoom 0–16, 256×256 tiles,
96 dpi. Its other fields stay zero or null.

## Model

| member | source | states |
|---|---|---|
| LayerCatalog.KindOf | AbnerTeamSL/Maps/MapsProvider.cs:65-156 | exactly the codes 0–21 are layer types; codes up to 7 are Mercator and the rest CGCS2000; exactly 16–21 are offline; no offline layer has an English annotation |
| LayerCatalog.CodeOf | AbnerTeamSL/Maps/MapsProvider.cs:65-156 | encoding a layer kind gives a code that decodes back to that kind |
| LayerCatalog.CodeOfKindOf | AbnerTeamSL/Maps/MapsProvider.cs:65-156 | the 22 codes name 22 distinct kinds: decoding then encoding is the identity |
| LayerCatalog.MercatorVectorUrlsFollowScheme | AbnerTeamSL/Maps/MapsProvider.cs:366-368 | each Mercator vector service address is `http://t0.tianditu.com/<code>_w/wmts` for its kind's layer code |
| LayerCatalog.MercatorImageUrlsFollowScheme | AbnerTeamSL/Maps/MapsProvider.cs:369-371 | each Mercator imagery service address is `http://t0.tianditu.com/<code>_w/wmts` for its kind's layer code |
| LayerCatalog.MercatorTerrainUrlsFollowScheme | AbnerTeamSL/Maps/MapsProvider.cs:372-373 | each Mercator terrain service address is `http://t0.tianditu.com/<code>_w/wmts` for its kind's layer code |
| LayerCatalog.Cgcs2000VectorUrlsFollowScheme | AbnerTeamSL/Maps/MapsProvider.cs:350-352 | each CGCS2000 vector service address is `http://t0.tianditu.com/<code>_c/wmts` for its kind's layer code |
| LayerCatalog.Cgcs2000ImageUrlsFollowScheme | AbnerTeamSL/Maps/MapsProvider.cs:353-355 | each CGCS2000 imagery service address is `http://t0.tianditu.com/<code>_c/wmts` for its kind's layer code |
| LayerCatalog.Cgcs2000TerrainUrlsFollowScheme | AbnerTeamSL/Maps/MapsProvider.cs:356-357 | each CGCS2000 terrain service address is `http://t0.tianditu.com/<code>_c/wmts` for its kind's layer code |
| LayerCatalog.OfflineFoldersFollowScheme | AbnerTeamSL/Maps/MapsProvider.cs:358-363 | each offline folder is the application address + `Maps/TianDiTu_<Vec/Img/Ter>`, with `_Annotatoin` for the annotation overlays |
| LayerCatalog.LayerNamesFollowScheme | AbnerTeamSL/Maps/MapsProvider.cs:375-382 | the WMTS layer names are "vec"/"img"/"ter", or "c"/"e" + the initial + "a" for Chinese/English annotations |
| LayerCatalog.DefaultLayerInfoFields | AbnerTeamSL/Maps/MapsProvider.cs:157-183 | a fresh `TianDiTuLayerInfo` has no address, layer name, tables, origin or matrix set, a zero extent and SRID, zoom 0–16, 256×256 tiles and 96 dpi |
| LayerCatalog.CatalogEntry | AbnerTeamSL/Maps/MapsProvider.cs:451-597 | unknown codes keep all defaults; every entry has zoom 0–16, 256×256 tiles and 96 dpi; known codes have an address and the 18 scales; only type 2 lacks a layer name; codes 8–21 get SRID 4490, matrix set "c", origin (-180, 90), the extent ±180/±90 and 15 resolutions; codes 0–7 get SRID 102100, matrix set "w", the ±20037508.3427892 origin and extent, and 17 resolutions |
| LayerCatalog.GetLayerInfo | AbnerTeamSL/Maps/MapsProvider.cs:451-548 | the factory's switch, followed by the family switch, yields exactly `CatalogEntry` for every code |
| LayerCatalog.HandleLayerInfo | AbnerTeamSL/Maps/MapsProvider.cs:550-597 | sets the origin, SRID, extent, scales, resolutions and matrix set of the code's family; leaves the address and layer name alone; leaves the record untouched for unknown codes |
| TileLayers.TileRequest | AbnerTeamSL/Maps/MapsProvider.cs:33-37 | the GetTile request starts with the base address and `?service=wmts&request=gettile&version=1.0.0&layer=`, and ends with `&tilematrix=<level + 2>` |
| TileLayers.TileRequestInjective | AbnerTeamSL/Maps/MapsProvider.cs:33-37 | for the same endpoint, layer and matrix set, equal requests have equal zoom levels, rows and columns |
| TileLayers.OrEmpty | AbnerTeamSL/Maps/MapsProvider.cs:33-37 | a null string concatenates as "", any other string as itself |
| TileLayers.TilePath | AbnerTeamSL/Maps/MapsProvider.cs:627-629 | the tile path starts with `<base>/metrix<level + 2>/row` and ends with the file extension |
| TileLayers.NewTileInfo | AbnerTeamSL/Maps/MapsProvider.cs:47-59 | the tiling scheme has the record's tile size and origin and one level of detail per resolution, in order |
| TileLayers.TianDiTuLayer.constructor | AbnerTeamSL/Maps/MapsProvider.cs:22-26 | the layer holds the factory's record for its code |
| TileLayers.TianDiTuLayer.GetTileUrl | AbnerTeamSL/Maps/MapsProvider.cs:28-39 | "" exactly when the level is outside the record's zoom range; otherwise the request starts with the address and the GetTile keys and ends with `&tilematrix=<level + 2>` |
| TileLayers.TianDiTuLayer.Initialize | AbnerTeamSL/Maps/MapsProvider.cs:41-63 | publishes the SRID and extent, and a fresh level-of-detail array holding the record's resolutions in order |
| TileLayers.TianDiTuOffLineLayer.constructor | AbnerTeamSL/Maps/MapsProvider.cs:602-605 | the layer holds the factory's record for its code |
| TileLayers.TianDiTuOffLineLayer.GetTileUrl | AbnerTeamSL/Maps/MapsProvider.cs:621-631 | "" exactly when the level is out of range or the base address contains "tianditu.com"; otherwise the result starts with `<base>/metrix<level + 2>/row` and ends with the file extension |
| TileLayers.TianDiTuOffLineLayer.Initialize | AbnerTeamSL/Maps/MapsProvider.cs:633-655 | publishes the SRID and extent, and a fresh level-of-detail array holding the record's resolutions in order |
| TileLayers.OnlineZoomRange | AbnerTeamSL/Maps/MapsProvider.cs:28-32 | for every code the factory serves, the online request is "" exactly for levels below 0 or above 16 |
| TileLayers.OnlineTileUrl | AbnerTeamSL/Maps/MapsProvider.cs:28-39 | for online codes 0–15 at levels 0–16, the request is built from the kind's endpoint, its layer code (empty for type 2) and its matrix-set tag |
| TileLayers.UnknownTypeTileUrl | AbnerTeamSL/Maps/MapsProvider.cs:28-39 | an unrecognised code yields a request with an empty endpoint, layer and matrix set |
| TileLayers.ImageTileExample | AbnerTeamSL/Maps/MapsProvider.cs:28-39 | CGCS2000 imagery, zoom 5, row 3, column 7 is `http://t0.tianditu.com/img_c/wmts?...&layer=img&format=tiles&tilematrixset=c&tilecol=7&tilerow=3&tilematrix=7` |
| TileLayers.OnlineEndpointOnHost | AbnerTeamSL/Maps/MapsProvider.cs:350-373 | every online service endpoint contains "tianditu.com" |
| TileLayers.OfflineRefusesOnlineEndpoints | AbnerTeamSL/Maps/MapsProvider.cs:621-625 | the offline layer returns "" for every level, row and column for codes 0–15 and 21 |
| TileLayers.TilePathAvoidsHost | AbnerTeamSL/Maps/MapsProvider.cs:627-629 | a tile path hung off a base free of "tianditu.com" stays free of it for every level, row and column |
| TileLayers.OfflineFolderAvoidsHost | AbnerTeamSL/Maps/MapsProvider.cs:358-363 | offline folders are free of "tianditu.com" when the application's address is |
| TileLayers.OfflineNeverReachesHost | AbnerTeamSL/Maps/MapsProvider.cs:621-631 | for every known code, the offline layer never produces an address containing "tianditu.com" |
| TileLayers.OfflineTilePath | AbnerTeamSL/Maps/MapsProvider.cs:521-540 | offline codes 16–20 at levels 0–16, under an application address free of "tianditu.com", address the tile path below the kind's folder, with ".jpg" for base maps and ".png" for annotations |
| TileLayers.OfflineVectorTileExample | AbnerTeamSL/Maps/MapsProvider.cs:621-631 | offline vector tile (0, 0) at zoom 2 is `<application address>Maps/TianDiTu_Vec/metrix4/row0/col0.jpg` when that address is free of "tianditu.com" |
| MapHelper.GetLayerIndex | AbnerTeamSL/Maps/MapsProvider.cs:668-679 | the index of the first layer with that ID, and null exactly when no layer has it |
| MapHelper.GetUrl | AbnerTeamSL/Maps/MapsProvider.cs:681-685 | a prefix of the address through the first '/' at or after index 7, and "" exactly when there is none |
| MapHelper.GetUrlOfAddress | AbnerTeamSL/Maps/MapsProvider.cs:681-685 | for an address of 7 scheme characters, an authority without '/', then '/' and anything, the result is the scheme, the authority and the slash |
| MapHelper.GetUrlOfHttps | AbnerTeamSL/Maps/MapsProvider.cs:681-685 | for an `https://` address the search starts at the scheme's own second slash, so the result is `https://` alone, whatever follows |
| MapHelper.GetUrlIdempotent | AbnerTeamSL/Maps/MapsProvider.cs:681-685 | applying the rule to its own non-empty result changes nothing |
| Text.IntToString | AbnerTeamSL/Maps/MapsProvider.cs:33-37 | a number is rendered as a '-' exactly for negatives, followed by digits |
| Text.ParseIntToString | AbnerTeamSL/Maps/MapsProvider.cs:33-37 | the rendered numeral reads back as the same integer |
| Text.IntToStringInjective | AbnerTeamSL/Maps/MapsProvider.cs:33-37 | distinct numbers give distinct numerals |
| Text.Contains | AbnerTeamSL/Maps/MapsProvider.cs:624 | ordinal substring search: a contained pattern is no longer than the string, and the empty pattern is always contained |
| Text.IndexOfFrom | AbnerTeamSL/Maps/MapsProvider.cs:684-685 | the first index at or after the start holding the character, or -1 exactly when there is none |
| Session.FirstIndex | AbnerTeamSL/Session/SessionManager.cs:48 | the first position of a name (or, for `List.Remove`, of an object by reference), or none exactly when it is absent |
| Session.ListRemove | AbnerTeamSL/Session/SessionManager.cs:86 | `List.Remove`: an absent item leaves the list as it is; a present one shortens it by one |
| Session.ListRemoveOne | AbnerTeamSL/Session/SessionManager.cs:86 | `List.Remove` takes out exactly one occurrence of a present item and nothing else |
| Session.SessionInfo.constructor | AbnerTeamSL/Session/SessionManager.cs:116-127 | a new entry object holds the given name and value, as `Add`'s object initialiser sets them |
| Session.FirstOrDefault | AbnerTeamSL/Session/SessionManager.cs:48 | the first entry object with that name, or null exactly when none has it |
| Session.SessionManager.constructor | AbnerTeamSL/Session/SessionManager.cs:34-37 | a new store is empty and valid, and owns only fresh objects |
| Session.SessionManager.Count | AbnerTeamSL/Session/SessionManager.cs:19-28 | the number of entries |
| Session.SessionManager.Get | AbnerTeamSL/Session/SessionManager.cs:46-53 | the value stored under the name, or null when none is stored |
| Session.SessionManager.Add | AbnerTeamSL/Session/SessionManager.cs:65-77 | the new contents are the old ones with the value stored under the name; names stay distinct; every object the store newly owns is freshly allocated, so later calls may change it |
| Session.SessionManager.Set | AbnerTeamSL/Session/SessionManager.cs:54-57 | the same as `Add` |
| Session.SessionManager.Remove | AbnerTeamSL/Session/SessionManager.cs:83-87 | the first entry with the name is dropped and the rest keep their order; the store is unchanged when no entry has the name; the set of owned objects stays the same |
| Session.SessionManager.Clear | AbnerTeamSL/Session/SessionManager.cs:92-95 | the store becomes empty and keeps its set of owned objects |
| Session.SessionManager.ToString | AbnerTeamSL/Session/SessionManager.cs:101-109 | fails exactly on an empty store; otherwise the names in insertion order, joined by "," |
| Session.LookupUpsertSame | AbnerTeamSL/Session/SessionManager.cs:44-77 | getting a name right after setting it yields the value just set |
| Session.LookupUpsertOther | AbnerTeamSL/Session/SessionManager.cs:44-77 | setting one name leaves every other name's value unchanged |
| Session.UpsertCount | AbnerTeamSL/Session/SessionManager.cs:68-76 | a new name appends exactly the entry (name, value) after the old ones; a present name keeps the count and the order of names |
| Session.UpsertKeepsDistinct | AbnerTeamSL/Session/SessionManager.cs:65-77 | names stay pairwise distinct under `Add` |
| Session.LookupDeleteSame | AbnerTeamSL/Session/SessionManager.cs:83-87 | after removal the name is gone from a store with distinct names |
| Session.LookupDeleteOther | AbnerTeamSL/Session/SessionManager.cs:83-87 | removal leaves every other name's value unchanged |
| Session.DeleteCount | AbnerTeamSL/Session/SessionManager.cs:83-87 | removing a present name drops one entry; removing an absent one changes nothing |
| Session.DeleteKeepsDistinct | AbnerTeamSL/Session/SessionManager.cs:83-87 | names stay pairwise distinct under `Remove` |
| Session.RemoveFirstNamed | AbnerTeamSL/Session/SessionManager.cs:85-86 | removing, by reference, the object `FirstOrDefault` found drops the first entry with that name |
| Session.PrefixedIsCommaJoin | AbnerTeamSL/Session/SessionManager.cs:103-108 | the loop's accumulation is "," followed by the names joined by "," |
| Session.SessionScenario | AbnerTeamSL/Session/SessionManager.cs:34-109 | one store, used in sequence: after adding "x", "y" and "x" again the listing is "x,y" and "x" holds the last value; removing "x" and the absent "z" leaves one entry; after clearing, the listing fails |
| Session.SplitJoin | AbnerTeamSL/Session/SessionManager.cs:101-109 | when no name contains ',', the listing splits back into exactly the names |

## Left out

- the factory setters: `TianDiTuLayerInfo` is a value, and its setter calls are record updates on a local record. The record is created by the factory, updated only there, and never changed after the factory returns.
- the application address: the static `UrlString` (what `MapHelper.GetUrl()` returns for `Application.Current.Host.Source`) is a parameter of the factory and of both layer constructors.
- the ArcGIS types: `SpatialReference`, `Envelope`, `TileInfo` and `Lod` are plain records. The `TiledMapServiceLayer` base class and `base.Initialize()`, which raise the initialisation event and render the layer, are not part of this model.
- numbers: doubles (scales, resolutions, extents, origins) are exact reals with the source's decimal literals.
- TileLayers.TianDiTuLayer.GetTileUrl and TileLayers.TianDiTuOffLineLayer.GetTileUrl: do not model 32-bit wrap-around of `level + 2`, because in both layers the guard keeps the level between 0 and 16 for every record the factory builds.
- TileLayers.TianDiTuOffLineLayer.GetTileUrl: requires the base address to be present once the level is in range. The source dereferences it there, which throws for an unrecognised code.
- TileLayers.TianDiTuLayer.Initialize and TileLayers.TianDiTuOffLineLayer.Initialize: require a resolution table. The source reads its length, which throws for an unrecognised code.
- MapHelper.GetUrl: requires an address of at least 7 characters, since `IndexOf` throws for a larger start index.
- MapHelper.GetLayerIndex: the map's `LayerCollection` is the sequence of its layer IDs. Null IDs are not modelled.
- session names: they are non-null strings. Values are of an arbitrary type `V`. `Get` returns `Some(v)` for a stored value even when `v` is null. The C# getter returns null both for a stored null and for a missing name; the model keeps the two apart.
- Session.SessionManager.Count: the null check on the list is not modelled, since the constructor always creates the list.
- `ToString`'s exception: it is `Result.Failure` carrying the exception's name.
- other files: `AbnerTeamSL/Controls/DatePickerEX.xaml.cs` (a date-picker control and its `ControlsHelper`) is not part of this model.

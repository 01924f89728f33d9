/**
 * `MapHelper` in AbnerTeamSL/Maps/MapsProvider.cs: finding a layer of the map by its ID, and
 * taking the prefix of the address the application was loaded from through the first '/' at or
 * after index 7. That is the root address (scheme, host and port, with the trailing slash) for a
 * 7-character scheme such as "http://"; for "https://" it is the scheme alone.
 */
module MapHelper {
  import opened Wrappers
  import opened Text

  /**
   * `GetLayerIndex`: the position of the first layer whose ID is `layerName`, or `None` (null)
   * when no layer has that ID. The map's layer collection is given as the sequence of its IDs.
   */
  method GetLayerIndex(layerName: string, layerIds: seq<string>) returns (index: Option<nat>)
    ensures index.None? <==> layerName !in layerIds
    ensures index.Some? ==> index.value < |layerIds| && layerIds[index.value] == layerName
    ensures index.Some? ==> forall j :: 0 <= j < index.value ==> layerIds[j] != layerName
  {
    var i := 0;
    while i < |layerIds|
      invariant 0 <= i <= |layerIds|
      invariant forall j :: 0 <= j < i ==> layerIds[j] != layerName
    {
      if layerIds[i] == layerName {
        return Some(i);
      }
      i := i + 1;
    }
    return None;
  }

  /** Where `GetUrl` starts looking for the slash that ends the authority: just past "http://". */
  const AUTHORITY_START := 7

  /**
   * `GetUrl`'s string rule on the application's address `source`: everything up to and including
   * the first '/' at or after index 7, or "" when there is none. `IndexOf` throws on a start index
   * beyond the string, hence the precondition.
   */
  function GetUrl(source: string): (prefix: string)
    requires AUTHORITY_START <= |source|
    ensures StartsWith(source, prefix)
    ensures prefix == "" <==> forall j :: AUTHORITY_START <= j < |source| ==> source[j] != '/'
    ensures prefix != "" ==> |prefix| > AUTHORITY_START && prefix[|prefix| - 1] == '/'
    ensures prefix != "" ==> forall j :: AUTHORITY_START <= j < |prefix| - 1 ==> prefix[j] != '/'
  {
    source[..IndexOfFrom(source, '/', AUTHORITY_START) + 1]
  }

  /**
   * For an address scheme-and-separator (7 characters, such as "http://"), authority, '/', rest,
   * the rule yields the address of the application's root: the same start through that slash.
   */
  lemma GetUrlOfAddress(scheme: string, authority: string, rest: string)
    requires |scheme| == AUTHORITY_START
    requires '/' !in authority
    ensures GetUrl(scheme + authority + "/" + rest) == scheme + authority + "/"
  {
    var source := scheme + authority + "/" + rest;
    var slash := AUTHORITY_START + |authority|;
    assert source[slash] == '/';
    forall j | AUTHORITY_START <= j < slash
      ensures source[j] != '/'
    {
      assert source[j] == authority[j - AUTHORITY_START];
    }
    assert IndexOfFrom(source, '/', AUTHORITY_START) == slash;
    assert source[..slash + 1] == scheme + authority + "/";
  }

  /**
   * For an "https://" address index 7 holds the scheme's own second slash, so the rule yields
   * the scheme alone, whatever follows.
   */
  lemma GetUrlOfHttps(rest: string)
    ensures GetUrl("https://" + rest) == "https://"
  {
    var source := "https://" + rest;
    assert source[AUTHORITY_START] == '/';
    assert IndexOfFrom(source, '/', AUTHORITY_START) == AUTHORITY_START;
    assert source[..AUTHORITY_START + 1] == "https://";
  }

  /** The root address is a fixed point of the rule: applying it again changes nothing. */
  lemma GetUrlIdempotent(source: string)
    requires AUTHORITY_START <= |source| && GetUrl(source) != ""
    ensures GetUrl(GetUrl(source)) == GetUrl(source)
  {
    var prefix := GetUrl(source);
    var k := IndexOfFrom(prefix, '/', AUTHORITY_START);
    assert prefix[|prefix| - 1] == '/';
    assert k == |prefix| - 1;
    assert prefix[..k + 1] == prefix;
  }
}

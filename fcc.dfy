/**
 * The API layer of lib/fcc.class.php. Every operation assembles a
 * parameter array, lets _apiHelper add `format=json` and issue a GET with
 * an `Accept: application/json` header over the shared connection, and
 * reshapes the decoded JSON envelope. The outcome is one of three: null
 * (the transport failed, the body was empty or not JSON, or the envelope is
 * loosely `== null`, `{}` included), an empty array (the expected key is
 * absent), or the extracted value.
 *
 * json_decode is the parameter `decode` (a parse failure is its Null);
 * http_build_query is `encode`; what the network returned is `response`.
 */
module Fcc {
  import opened Php
  import opened Http

  const DEFAULT_SERVER := "http://data.fcc.gov"
  const ACCEPT_JSON := "Accept: application/json"

  const SPEED_TEST_PATH := "/api/speedtest/find"
  const CENSUS_BLOCK_PATH := "/api/block/find"
  const FRN_LIST_PATH := "/api/frn/getList"
  const FRN_INFO_PATH := "/api/frn/getInfo"
  const LICENSES_PATH := "/api/license-view/basicSearch/getLicenses"
  const COMMON_NAMES_PATH := "/api/license-view/licenses/getCommonNames"
  const STATUSES_PATH := "/api/license-view/licenses/getStatuses"
  const CATEGORIES_PATH := "/api/license-view/licenses/getCategories"
  const ENTITIES_PATH := "/api/license-view/licenses/getEntities"
  const RENEWALS_PATH := "/api/license-view/licenses/getRenewals"
  const ISSUED_PATH := "/api/license-view/licenses/getIssued"

  /** The keys findCensusBlock keeps. */
  const CENSUS_KEYS: set<Key> := {StrKey("Block"), StrKey("County"), StrKey("State")}

  // ---------------------------------------------------------------------
  // Parameter assembly
  // ---------------------------------------------------------------------

  /** `array('latitude' => $latitude, 'longitude' => $longitude)`. */
  function Coordinates(latitude: Value, longitude: Value): Entries
  {
    [(StrKey("latitude"), latitude), (StrKey("longitude"), longitude)]
  }

  /**
   * `if ($v !== null) $params[key] = $v;`: an optional argument is sent
   * unless it is null; "", 0 and false are sent.
   */
  function AddOptional(params: Entries, key: string, v: Value): (r: Entries)
    ensures Lookup(r, StrKey(key)) == if v == Null then Lookup(params, StrKey(key)) else Some(v)
    ensures forall k :: k != StrKey(key) ==> Lookup(r, k) == Lookup(params, k)
    ensures Keys(r) == if v == Null || StrKey(key) in Keys(params) then Keys(params) else Keys(params) + [StrKey(key)]
  {
    if v != Null then Assign(params, StrKey(key), v) else params
  }

  /** getFRNList's parameters. */
  function FrnListParams(stateCode: Value, multiStates: Value): Entries
  {
    AddOptional([(StrKey("stateCode"), stateCode)], "multiStates", multiStates)
  }

  /** getLicenses's parameters: the page size is fixed at 1000. */
  function LicenseParams(query: Value): Entries
  {
    [(StrKey("searchValue"), query), (StrKey("pageSize"), Int(1000))]
  }

  /** The parameters of the statistics operations (a null argument is left out). */
  function StatsParams(commonName: Value, limit: Value): Entries
  {
    AddOptional(AddOptional([], "commonName", commonName), "limit", limit)
  }

  /** `$params['format'] = 'json'` in _apiHelper: the array actually sent. */
  function WithFormat(params: Entries): (sent: Entries)
    ensures Lookup(sent, StrKey("format")) == Some(Str("json"))
    ensures forall k :: k != StrKey("format") ==> Lookup(sent, k) == Lookup(params, k)
    ensures sent != []
  {
    Assign(params, StrKey("format"), Str("json"))
  }

  /** What the statistics operations send: the supplied optional arguments, then `format`. */
  lemma SentStatsParams(commonName: Value, limit: Value)
    ensures Keys(WithFormat(StatsParams(commonName, limit))) ==
              (if commonName != Null then [StrKey("commonName")] else [])
              + (if limit != Null then [StrKey("limit")] else [])
              + [StrKey("format")]
    ensures Lookup(WithFormat(StatsParams(commonName, limit)), StrKey("commonName")) ==
              if commonName == Null then None else Some(commonName)
    ensures Lookup(WithFormat(StatsParams(commonName, limit)), StrKey("limit")) ==
              if limit == Null then None else Some(limit)
  {
    var first := AddOptional([], "commonName", commonName);
    var ks1: seq<Key> := if commonName != Null then [StrKey("commonName")] else [];
    assert Keys(first) == ks1;
    var second := AddOptional(first, "limit", limit);
    var ks2 := ks1 + (if limit != Null then [StrKey("limit")] else []);
    assert Keys(second) == ks2;
    assert StrKey("format") !in ks2;
  }

  /** getFRNList sends the state code, multiStates unless it is null, and `format`. */
  lemma SentFrnListParams(stateCode: Value, multiStates: Value)
    ensures Keys(WithFormat(FrnListParams(stateCode, multiStates))) ==
              [StrKey("stateCode")] + (if multiStates != Null then [StrKey("multiStates")] else []) + [StrKey("format")]
    ensures Lookup(WithFormat(FrnListParams(stateCode, multiStates)), StrKey("stateCode")) == Some(stateCode)
    ensures Lookup(WithFormat(FrnListParams(stateCode, multiStates)), StrKey("multiStates")) ==
              if multiStates == Null then None else Some(multiStates)
  {
    var base := [(StrKey("stateCode"), stateCode)];
    assert Keys(base) == [StrKey("stateCode")];
    assert StrKey("format") !in Keys(FrnListParams(stateCode, multiStates));
  }

  /** getLicenses sends exactly the search value, a page size of 1000 and `format`. */
  lemma SentLicenseParams(query: Value)
    ensures WithFormat(LicenseParams(query)) ==
              [(StrKey("searchValue"), query), (StrKey("pageSize"), Int(1000)), (StrKey("format"), Str("json"))]
  {
    assert Keys(LicenseParams(query)) == [StrKey("searchValue"), StrKey("pageSize")];
    AssignNewKeyAppends(LicenseParams(query), StrKey("format"), Str("json"));
  }

  /** A caller-supplied `format` is overwritten in place; no other parameter is touched. */
  lemma FormatOverridesCaller(params: Entries, v: Value)
    requires Lookup(params, StrKey("format")) == Some(v)
    ensures Keys(WithFormat(params)) == Keys(params)
    ensures Lookup(WithFormat(params), StrKey("format")) == Some(Str("json"))
  {
  }

  // ---------------------------------------------------------------------
  // _apiHelper
  // ---------------------------------------------------------------------

  /**
   * The handle's options after _apiHelper's request: always a GET, always
   * the one header `Accept: application/json`, the URL carrying the
   * parameters with `format` added; an earlier body stays as it was.
   */
  function HelperOptions(before: Options, root: string, path: string, params: Entries,
                         encode: Entries -> string): (after: Options)
    ensures CustomRequest in after && after[CustomRequest] == Text("GET")
    ensures HttpHeader in after && after[HttpHeader] == Lines([ACCEPT_JSON])
    ensures Url in after && after[Url] == Text(root + path + "?" + encode(WithFormat(params)))
    ensures PostFields in after <==> PostFields in before
    ensures PostFields in before ==> after[PostFields] == before[PostFields]
  {
    QueryVerbs();
    RequestOptions(before, root, path, "GET", WithFormat(params), [ACCEPT_JSON], encode)
  }

  /**
   * _apiHelper's result: null when the transport's result is `== null`
   * (false, or an empty body), else the body decoded.
   */
  function Decoded(response: Response, decode: string -> Value): (data: Value)
  {
    if LooselyNull(response.AsPhp()) then Null else decode(response.text)
  }

  /** A failed transfer and an empty body give null; any other body, "0" included, is decoded. */
  lemma DecodedCases(response: Response, decode: string -> Value)
    ensures response == Failed ==> Decoded(response, decode) == Null
    ensures response == Body("") ==> Decoded(response, decode) == Null
    ensures response.Body? && response.text != "" ==> Decoded(response, decode) == decode(response.text)
  {
  }

  // ---------------------------------------------------------------------
  // Reshaping the envelope
  // ---------------------------------------------------------------------

  /**
   * A decoded envelope the operations can inspect without a PHP error:
   * an array, or a value the `== null` test already turns away.
   */
  predicate Envelope(data: Value)
  {
    data.Arr? || LooselyNull(data)
  }

  /** `array_key_exists(key, $data) ? $data[key] : array()`. */
  function MemberOrEmpty(data: Value, key: string): (r: Value)
    requires data.Arr?
  {
    match Lookup(data.entries, StrKey(key))
    case Some(v) => v
    case None => Arr([])
  }

  /** findSpeedTest's result for a decoded envelope. */
  function SpeedTestCounty(data: Value): (r: Value)
    requires Envelope(data)
    ensures LooselyNull(data) ==> r == Null
    ensures !LooselyNull(data) && StrKey("SpeedTestCounty") !in Keys(data.entries) ==> r == Arr([])
    ensures !LooselyNull(data) && StrKey("SpeedTestCounty") in Keys(data.entries) ==>
              Lookup(data.entries, StrKey("SpeedTestCounty")) == Some(r)
  {
    if LooselyNull(data) then Null else MemberOrEmpty(data, "SpeedTestCounty")
  }

  /** findCensusBlock's result: the envelope cut down to Block, County and State. */
  function CensusBlock(data: Value): (r: Value)
    requires Envelope(data)
    ensures LooselyNull(data) ==> r == Null
    ensures !LooselyNull(data) ==> r.Arr?
    ensures !LooselyNull(data) ==>
              forall k :: Lookup(r.entries, k) == if k in CENSUS_KEYS then Lookup(data.entries, k) else None
    ensures !LooselyNull(data) ==> forall i :: 0 <= i < |r.entries| ==> r.entries[i].0 in CENSUS_KEYS
    ensures !LooselyNull(data) && (forall k :: k in CENSUS_KEYS ==> k !in Keys(data.entries)) ==> r == Arr([])
  {
    if LooselyNull(data) then Null else Arr(IntersectKeys(data.entries, CENSUS_KEYS))
  }

  /** When the envelope's keys are distinct, so are the result's, and the kept entries keep their order. */
  lemma CensusBlockKeepsOrder(data: Value)
    requires data.Arr? && !LooselyNull(data)
    ensures CensusBlock(data).Arr? && SubsequenceOf(CensusBlock(data).entries, data.entries)
    ensures Distinct(Keys(data.entries)) ==> Distinct(Keys(CensusBlock(data).entries))
  {
    IntersectKeysKeepsOrder(data.entries, CENSUS_KEYS);
    if Distinct(Keys(data.entries)) {
      IntersectKeysDistinct(data.entries, CENSUS_KEYS);
    }
  }

  /** getFRNInfo's result: `Info` when the envelope is an array holding it, else an empty array. */
  function FrnInfo(data: Value): (r: Value)
    ensures LooselyNull(data) ==> r == Null
    ensures !LooselyNull(data) && !(data.Arr? && StrKey("Info") in Keys(data.entries)) ==> r == Arr([])
    ensures !LooselyNull(data) && data.Arr? && StrKey("Info") in Keys(data.entries) ==>
              Lookup(data.entries, StrKey("Info")) == Some(r)
  {
    if LooselyNull(data) then Null
    else if data.Arr? then MemberOrEmpty(data, "Info")
    else Arr([])
  }

  /**
   * `$data[outer][inner]` must not raise a PHP error when `outer` is
   * present: its value is an array that holds `inner`.
   */
  predicate ListShape(data: Value, outer: string, inner: string)
  {
    && Envelope(data)
    && (data.Arr? && StrKey(outer) in Keys(data.entries) ==>
          var o := Lookup(data.entries, StrKey(outer)).value;
          o.Arr? && StrKey(inner) in Keys(o.entries))
  }

  /**
   * getLicenses and the statistics operations:
   * `array_key_exists(outer, $data) ? $data[outer][inner] : array()`.
   */
  function ListUnder(data: Value, outer: string, inner: string): (r: Value)
    requires ListShape(data, outer, inner)
    ensures LooselyNull(data) ==> r == Null
    ensures !LooselyNull(data) && StrKey(outer) !in Keys(data.entries) ==> r == Arr([])
    ensures forall o :: !LooselyNull(data) && Lookup(data.entries, StrKey(outer)) == Some(Arr(o)) ==>
              Lookup(o, StrKey(inner)) == Some(r)
  {
    if LooselyNull(data) then Null
    else match Lookup(data.entries, StrKey(outer))
      case None => Arr([])
      case Some(o) => Lookup(o.entries, StrKey(inner)).value
  }

  // ---------------------------------------------------------------------
  // getFRNList: re-indexing the list by frn
  // ---------------------------------------------------------------------

  /** An item of `Frns.Frn` that `$item['frn']` can index and use as a key. */
  predicate FrnItem(item: Value)
  {
    item.Arr? && StrKey("frn") in Keys(item.entries) && !Lookup(item.entries, StrKey("frn")).value.Arr?
  }

  predicate AllFrnItems(items: seq<Value>)
  {
    forall i :: 0 <= i < |items| ==> FrnItem(items[i])
  }

  /** The key `$results[$item['frn']]` files an item under. */
  function FrnOf(item: Value): Key
    requires FrnItem(item)
  {
    KeyOf(Lookup(item.entries, StrKey("frn")).value)
  }

  /** `$data['Frns']['Frn']` is a list of FRN items whenever `Frns` is present. */
  predicate FrnShape(data: Value)
  {
    data.Arr? && StrKey("Frns") in Keys(data.entries) ==>
      var frns := Lookup(data.entries, StrKey("Frns")).value;
      && frns.Arr?
      && StrKey("Frn") in Keys(frns.entries)
      && var list := Lookup(frns.entries, StrKey("Frn")).value;
         list.Arr? && AllFrnItems(Values(list.entries))
  }

  /** The items that getFRNList's foreach visits. */
  function FrnItems(data: Value): (items: seq<Value>)
    requires FrnShape(data) && data.Arr? && StrKey("Frns") in Keys(data.entries)
    ensures AllFrnItems(items)
  {
    var frns := Lookup(data.entries, StrKey("Frns")).value;
    Values(Lookup(frns.entries, StrKey("Frn")).value.entries)
  }

  /** Each item paired with the key `$results[$item['frn']]` files it under, in list order. */
  function TagByFrn(items: seq<Value>): (tagged: Entries)
    requires AllFrnItems(items)
  {
    seq(|items|, i requires 0 <= i < |items| => (FrnOf(items[i]), items[i]))
  }

  /** The array built by assigning `$results[$key] = $item` for each pair in turn, from `array()`. */
  function Reindex(pairs: Entries): Entries
  {
    if pairs == [] then []
    else
      var last := pairs[|pairs| - 1];
      Assign(Reindex(pairs[..|pairs| - 1]), last.0, last.1)
  }

  /** The keys of the re-indexed array are exactly the keys the pairs carry. */
  lemma {:induction false} ReindexKeys(pairs: Entries, k: Key)
    ensures k in Keys(Reindex(pairs)) <==> k in Keys(pairs)
  {
    if pairs != [] {
      var prefix := pairs[..|pairs| - 1];
      ReindexKeys(prefix, k);
      assert Keys(pairs) == Keys(prefix) + [pairs[|pairs| - 1].0];
    }
  }

  /** A key is filed with the value of the last pair that carries it. */
  lemma {:induction false} ReindexLastWins(pairs: Entries, j: nat)
    requires j < |pairs|
    requires forall i :: j < i < |pairs| ==> pairs[i].0 != pairs[j].0
    ensures Lookup(Reindex(pairs), pairs[j].0) == Some(pairs[j].1)
  {
    if j < |pairs| - 1 {
      var prefix := pairs[..|pairs| - 1];
      assert prefix[j] == pairs[j];
      ReindexLastWins(prefix, j);
    }
  }

  /** The re-indexed array has no duplicate key. */
  lemma {:induction false} ReindexDistinct(pairs: Entries)
    ensures Distinct(Keys(Reindex(pairs)))
  {
    if pairs != [] {
      var prefix := pairs[..|pairs| - 1];
      ReindexDistinct(prefix);
      var before := Keys(Reindex(prefix));
      var k := pairs[|pairs| - 1].0;
      if k !in before {
        var ks := before + [k];
        forall i, j | 0 <= i < j < |ks|
          ensures ks[i] != ks[j]
        {
          if j == |ks| - 1 {
            assert ks[i] in before;
          }
        }
      }
    }
  }

  /** The re-indexed array has no more entries than there are pairs. */
  lemma {:induction false} ReindexNoLonger(pairs: Entries)
    ensures |Reindex(pairs)| <= |pairs|
  {
    if pairs != [] {
      var prefix := pairs[..|pairs| - 1];
      ReindexNoLonger(prefix);
      assert |Reindex(pairs)| == |Keys(Reindex(pairs))|;
      assert |Reindex(prefix)| == |Keys(Reindex(prefix))|;
    }
  }

  /** Re-indexing one more pair assigns it over the array built from the pairs before it. */
  lemma ReindexSnoc(pairs: Entries, x: (Key, Value))
    ensures Reindex(pairs + [x]) == Assign(Reindex(pairs), x.0, x.1)
  {
    assert (pairs + [x])[..|pairs|] == pairs;
  }

  /** One more item re-indexes the array built from the items before it. */
  lemma ReindexStep(items: seq<Value>, i: nat)
    requires i < |items| && AllFrnItems(items)
    ensures Reindex(TagByFrn(items[..i + 1])) == Assign(Reindex(TagByFrn(items[..i])), FrnOf(items[i]), items[i])
  {
    var before, now := items[..i], items[..i + 1];
    assert AllFrnItems(before) && AllFrnItems(now);
    var x := (FrnOf(items[i]), items[i]);
    assert TagByFrn(now) == TagByFrn(before) + [x];
    ReindexSnoc(TagByFrn(before), x);
  }

  /** The foreach of getFRNList: `$results[$item['frn']] = $item` for each item in turn. */
  method IndexByFrn(items: seq<Value>) returns (results: Entries)
    requires AllFrnItems(items)
    ensures results == Reindex(TagByFrn(items))
  {
    results := [];
    var i := 0;
    while i < |items|
      invariant 0 <= i <= |items|
      invariant results == Reindex(TagByFrn(items[..i]))
    {
      var item := items[i];
      ReindexStep(items, i);
      results := Assign(results, FrnOf(item), item);
      i := i + 1;
    }
    assert items[..i] == items;
  }

  /** getFRNList's result for a decoded envelope. */
  function FrnList(data: Value): (r: Value)
    requires FrnShape(data)
    ensures LooselyNull(data) ==> r == Null
    ensures !LooselyNull(data) && !(data.Arr? && StrKey("Frns") in Keys(data.entries)) ==> r == Arr([])
    ensures !LooselyNull(data) && data.Arr? && StrKey("Frns") in Keys(data.entries) ==>
              r == Arr(Reindex(TagByFrn(FrnItems(data))))
  {
    if LooselyNull(data) then Null
    else if data.Arr? && StrKey("Frns") in Keys(data.entries) then Arr(Reindex(TagByFrn(FrnItems(data))))
    else Arr([])
  }

  /**
   * getFRNList's promise in terms of the list: the result is keyed by the
   * items' frn values, each key once, with at most one entry per item.
   */
  lemma FrnListKeys(data: Value, k: Key)
    requires FrnShape(data) && !LooselyNull(data) && data.Arr? && StrKey("Frns") in Keys(data.entries)
    ensures FrnList(data).Arr?
    ensures k in Keys(FrnList(data).entries) <==>
              exists i :: 0 <= i < |FrnItems(data)| && FrnOf(FrnItems(data)[i]) == k
    ensures Distinct(Keys(FrnList(data).entries))
    ensures |FrnList(data).entries| <= |FrnItems(data)|
  {
    var items := FrnItems(data);
    var tagged := TagByFrn(items);
    ReindexKeys(tagged, k);
    ReindexDistinct(tagged);
    ReindexNoLonger(tagged);
    if k in Keys(tagged) {
      var i :| 0 <= i < |tagged| && Keys(tagged)[i] == k;
      assert FrnOf(items[i]) == k;
    }
    if exists i :: 0 <= i < |items| && FrnOf(items[i]) == k {
      var i :| 0 <= i < |items| && FrnOf(items[i]) == k;
      assert Keys(tagged)[i] == k;
    }
  }

  /**
   * An frn given once as the string "5" and once as the number 5 files
   * both items under the one integer key 5: the later item replaces the
   * earlier one.
   */
  lemma FrnNumericStringsShareKey()
    ensures
      var first := Arr([(StrKey("frn"), Str("5"))]);
      var second := Arr([(StrKey("frn"), Int(5))]);
      AllFrnItems([first, second]) && Reindex(TagByFrn([first, second])) == [(IntKey(5), second)]
  {
    var first := Arr([(StrKey("frn"), Str("5"))]);
    var second := Arr([(StrKey("frn"), Int(5))]);
    assert Keys(first.entries)[0] == StrKey("frn") && Keys(second.entries)[0] == StrKey("frn");
    assert Lookup(first.entries, StrKey("frn")) == Some(Str("5"));
    assert Lookup(second.entries, StrKey("frn")) == Some(Int(5));
    assert DigitsValue("5") == 5 by {
      assert "5"[..0] == [];
    }
    assert FrnOf(first) == IntKey(5) && FrnOf(second) == IntKey(5);
    var tagged := TagByFrn([first, second]);
    assert tagged == [(IntKey(5), first)] + [(IntKey(5), second)];
    ReindexSnoc([(IntKey(5), first)], (IntKey(5), second));
    ReindexSnoc([], (IntKey(5), first));
    assert Reindex([(IntKey(5), first)]) == [(IntKey(5), first)];
  }

  // ---------------------------------------------------------------------
  // The uniform outcome
  // ---------------------------------------------------------------------

  /**
   * A failed transfer, an empty body, an undecodable body and an envelope
   * that is loosely null (`{}` or `[]` included) make every operation
   * return null.
   */
  lemma UnavailableIsNull(response: Response, decode: string -> Value)
    requires LooselyNull(Decoded(response, decode))
    ensures SpeedTestCounty(Decoded(response, decode)) == Null
    ensures CensusBlock(Decoded(response, decode)) == Null
    ensures FrnList(Decoded(response, decode)) == Null
    ensures FrnInfo(Decoded(response, decode)) == Null
    ensures ListUnder(Decoded(response, decode), "Licenses", "License") == Null
    ensures ListUnder(Decoded(response, decode), "Stats", "Stat") == Null
  {
  }

  /** An envelope that is a non-empty array without the expected key makes an operation return an empty array, never null. */
  lemma MissingKeyIsEmpty(entries: Entries)
    requires entries != []
    ensures StrKey("SpeedTestCounty") !in Keys(entries) ==> SpeedTestCounty(Arr(entries)) == Arr([])
    ensures StrKey("Frns") !in Keys(entries) ==> FrnList(Arr(entries)) == Arr([])
    ensures StrKey("Info") !in Keys(entries) ==> FrnInfo(Arr(entries)) == Arr([])
    ensures StrKey("Licenses") !in Keys(entries) ==> ListUnder(Arr(entries), "Licenses", "License") == Arr([])
    ensures StrKey("Stats") !in Keys(entries) ==> ListUnder(Arr(entries), "Stats", "Stat") == Arr([])
    ensures (forall k :: k in CENSUS_KEYS ==> k !in Keys(entries)) ==> CensusBlock(Arr(entries)) == Arr([])
  {
  }

  /** The one-item list of the FRN conversions example is re-keyed by its frn. */
  lemma FrnListExample()
    ensures
      var item := Arr([(StrKey("frn"), Str("0016639023")), (StrKey("companyName"), Str("WillitsOnline LLC"))]);
      var envelope := Arr([(StrKey("Frns"), Arr([(StrKey("Frn"), Arr([(IntKey(0), item)]))]))]);
      FrnShape(envelope) && FrnList(envelope) == Arr([(StrKey("0016639023"), item)])
  {
    var item := Arr([(StrKey("frn"), Str("0016639023")), (StrKey("companyName"), Str("WillitsOnline LLC"))]);
    var list := [(IntKey(0), item)];
    var frns := Arr([(StrKey("Frn"), Arr(list))]);
    var envelope := Arr([(StrKey("Frns"), frns)]);
    assert Keys(item.entries)[0] == StrKey("frn");
    assert Lookup(item.entries, StrKey("frn")) == Some(Str("0016639023"));
    assert Keys(frns.entries)[0] == StrKey("Frn");
    assert Lookup(frns.entries, StrKey("Frn")) == Some(Arr(list));
    assert Keys(envelope.entries)[0] == StrKey("Frns");
    assert Lookup(envelope.entries, StrKey("Frns")) == Some(frns);
    assert Values(list) == [item];
    assert FrnShape(envelope);
    assert FrnItems(envelope) == [item];
    assert [item][..0] == [];
    assert TagByFrn([item]) == [(StrKey("0016639023"), item)];
    assert [(StrKey("0016639023"), item)][..0] == [];
  }

  // ---------------------------------------------------------------------
  // The client object
  // ---------------------------------------------------------------------

  /** FCCApi: the operations, over one connection. */
  class FccApi {
    const connection: Connection

    /** Uses the injected connection, or a new one to the FCC data server. */
    constructor (injected: Option<Connection>)
      ensures injected.Some? ==> connection == injected.value
      ensures injected.None? ==>
                && fresh(connection) && fresh(connection.http)
                && connection.root == DEFAULT_SERVER
                && connection.http.options == map[ReturnTransfer := Flag(1)]
    {
      if injected.Some? {
        connection := injected.value;
      } else {
        connection := new Connection(DEFAULT_SERVER, None);
      }
    }

    /** _apiHelper: adds `format=json`, issues the GET and decodes the body. */
    method ApiHelper(path: string, params: Entries, encode: Entries -> string,
                     decode: string -> Value, response: Response) returns (data: Value)
      modifies connection.http
      ensures connection.http.options ==
                HelperOptions(old(connection.http.options), connection.root, path, params, encode)
      ensures data == Decoded(response, decode)
    {
      var sent := params;
      sent := Assign(sent, StrKey("format"), Str("json"));
      var json := connection.Get(path, sent, [ACCEPT_JSON], encode, response);
      data := if LooselyNull(json.AsPhp()) then Null else decode(json.text);
    }

    method FindSpeedTest(latitude: Value, longitude: Value, encode: Entries -> string,
                         decode: string -> Value, response: Response) returns (r: Value)
      requires Envelope(Decoded(response, decode))
      modifies connection.http
      ensures connection.http.options ==
                HelperOptions(old(connection.http.options), connection.root, SPEED_TEST_PATH,
                              Coordinates(latitude, longitude), encode)
      ensures r == SpeedTestCounty(Decoded(response, decode))
    {
      var data := ApiHelper(SPEED_TEST_PATH, Coordinates(latitude, longitude), encode, decode, response);
      r := SpeedTestCounty(data);
    }

    method FindCensusBlock(latitude: Value, longitude: Value, encode: Entries -> string,
                           decode: string -> Value, response: Response) returns (r: Value)
      requires Envelope(Decoded(response, decode))
      modifies connection.http
      ensures connection.http.options ==
                HelperOptions(old(connection.http.options), connection.root, CENSUS_BLOCK_PATH,
                              Coordinates(latitude, longitude), encode)
      ensures r == CensusBlock(Decoded(response, decode))
    {
      var data := ApiHelper(CENSUS_BLOCK_PATH, Coordinates(latitude, longitude), encode, decode, response);
      r := CensusBlock(data);
    }

    method GetFrnList(stateCode: Value, multiStates: Value, encode: Entries -> string,
                      decode: string -> Value, response: Response) returns (r: Value)
      requires FrnShape(Decoded(response, decode))
      modifies connection.http
      ensures connection.http.options ==
                HelperOptions(old(connection.http.options), connection.root, FRN_LIST_PATH,
                              FrnListParams(stateCode, multiStates), encode)
      ensures r == FrnList(Decoded(response, decode))
    {
      var params := [(StrKey("stateCode"), stateCode)];
      if multiStates != Null {
        params := Assign(params, StrKey("multiStates"), multiStates);
      }
      var data := ApiHelper(FRN_LIST_PATH, params, encode, decode, response);
      if LooselyNull(data) {
        return Null;
      }
      if data.Arr? && StrKey("Frns") in Keys(data.entries) {
        var results := IndexByFrn(FrnItems(data));
        r := Arr(results);
      } else {
        r := Arr([]);
      }
    }

    method GetFrnInfo(frn: Value, encode: Entries -> string,
                      decode: string -> Value, response: Response) returns (r: Value)
      modifies connection.http
      ensures connection.http.options ==
                HelperOptions(old(connection.http.options), connection.root, FRN_INFO_PATH,
                              [(StrKey("frn"), frn)], encode)
      ensures r == FrnInfo(Decoded(response, decode))
    {
      var data := ApiHelper(FRN_INFO_PATH, [(StrKey("frn"), frn)], encode, decode, response);
      r := FrnInfo(data);
    }

    method GetLicenses(query: Value, encode: Entries -> string,
                       decode: string -> Value, response: Response) returns (r: Value)
      requires ListShape(Decoded(response, decode), "Licenses", "License")
      modifies connection.http
      ensures connection.http.options ==
                HelperOptions(old(connection.http.options), connection.root, LICENSES_PATH,
                              LicenseParams(query), encode)
      ensures r == ListUnder(Decoded(response, decode), "Licenses", "License")
    {
      var data := ApiHelper(LICENSES_PATH, LicenseParams(query), encode, decode, response);
      r := ListUnder(data, "Licenses", "License");
    }

    /** The shared body of the statistics operations: send `params` to `path`, return `Stats.Stat`. */
    method Stats(path: string, params: Entries, encode: Entries -> string,
                 decode: string -> Value, response: Response) returns (r: Value)
      requires ListShape(Decoded(response, decode), "Stats", "Stat")
      modifies connection.http
      ensures connection.http.options ==
                HelperOptions(old(connection.http.options), connection.root, path, params, encode)
      ensures r == ListUnder(Decoded(response, decode), "Stats", "Stat")
    {
      var data := ApiHelper(path, params, encode, decode, response);
      r := ListUnder(data, "Stats", "Stat");
    }

    method GetLicenseCommonNames(commonName: Value, limit: Value, encode: Entries -> string,
                                 decode: string -> Value, response: Response) returns (r: Value)
      requires ListShape(Decoded(response, decode), "Stats", "Stat")
      modifies connection.http
      ensures connection.http.options ==
                HelperOptions(old(connection.http.options), connection.root, COMMON_NAMES_PATH,
                              StatsParams(commonName, limit), encode)
      ensures r == ListUnder(Decoded(response, decode), "Stats", "Stat")
    {
      var params := [];
      if commonName != Null {
        params := Assign(params, StrKey("commonName"), commonName);
      }
      if limit != Null {
        params := Assign(params, StrKey("limit"), limit);
      }
      r := Stats(COMMON_NAMES_PATH, params, encode, decode, response);
    }

    method GetLicenseStatuses(commonName: Value, limit: Value, encode: Entries -> string,
                              decode: string -> Value, response: Response) returns (r: Value)
      requires ListShape(Decoded(response, decode), "Stats", "Stat")
      modifies connection.http
      ensures connection.http.options ==
                HelperOptions(old(connection.http.options), connection.root, STATUSES_PATH,
                              StatsParams(commonName, limit), encode)
      ensures r == ListUnder(Decoded(response, decode), "Stats", "Stat")
    {
      var params := [];
      if commonName != Null {
        params := Assign(params, StrKey("commonName"), commonName);
      }
      if limit != Null {
        params := Assign(params, StrKey("limit"), limit);
      }
      r := Stats(STATUSES_PATH, params, encode, decode, response);
    }

    method GetLicenseCategories(commonName: Value, limit: Value, encode: Entries -> string,
                                decode: string -> Value, response: Response) returns (r: Value)
      requires ListShape(Decoded(response, decode), "Stats", "Stat")
      modifies connection.http
      ensures connection.http.options ==
                HelperOptions(old(connection.http.options), connection.root, CATEGORIES_PATH,
                              StatsParams(commonName, limit), encode)
      ensures r == ListUnder(Decoded(response, decode), "Stats", "Stat")
    {
      var params := [];
      if commonName != Null {
        params := Assign(params, StrKey("commonName"), commonName);
      }
      if limit != Null {
        params := Assign(params, StrKey("limit"), limit);
      }
      r := Stats(CATEGORIES_PATH, params, encode, decode, response);
    }

    method GetLicenseEntities(encode: Entries -> string,
                              decode: string -> Value, response: Response) returns (r: Value)
      requires ListShape(Decoded(response, decode), "Stats", "Stat")
      modifies connection.http
      ensures connection.http.options ==
                HelperOptions(old(connection.http.options), connection.root, ENTITIES_PATH, [], encode)
      ensures r == ListUnder(Decoded(response, decode), "Stats", "Stat")
    {
      r := Stats(ENTITIES_PATH, [], encode, decode, response);
    }

    method GetLicenseRenewals(commonName: Value, encode: Entries -> string,
                              decode: string -> Value, response: Response) returns (r: Value)
      requires ListShape(Decoded(response, decode), "Stats", "Stat")
      modifies connection.http
      ensures connection.http.options ==
                HelperOptions(old(connection.http.options), connection.root, RENEWALS_PATH,
                              StatsParams(commonName, Null), encode)
      ensures r == ListUnder(Decoded(response, decode), "Stats", "Stat")
    {
      var params := [];
      if commonName != Null {
        params := Assign(params, StrKey("commonName"), commonName);
      }
      r := Stats(RENEWALS_PATH, params, encode, decode, response);
    }

    method GetLicenseIssued(commonName: Value, encode: Entries -> string,
                            decode: string -> Value, response: Response) returns (r: Value)
      requires ListShape(Decoded(response, decode), "Stats", "Stat")
      modifies connection.http
      ensures connection.http.options ==
                HelperOptions(old(connection.http.options), connection.root, ISSUED_PATH,
                              StatsParams(commonName, Null), encode)
      ensures r == ListUnder(Decoded(response, decode), "Stats", "Stat")
    {
      var params := [];
      if commonName != Null {
        params := Assign(params, StrKey("commonName"), commonName);
      }
      r := Stats(ISSUED_PATH, params, encode, decode, response);
    }
  }
}

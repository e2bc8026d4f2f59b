/**
 * The barcode scanner screen: the scanned payload `k=v&k=v...` is parsed into a
 * key/value object, the three table identifiers are checked, and a getUser fetch is
 * started; its outcome either navigates to the chat screen or re-arms scanning.
 */
module BarcodeScannerScreen {
  import opened Wrappers
  import opened JsText
  import opened Effects

  /** One segment after `const [key, value] = item.split("=")`; `None` is `undefined`. */
  datatype Entry = Entry(key: string, value: Option<string>)

  /** Destructuring of `item.split("=")` into its first two elements. */
  function KeyValue(item: string): Entry
  {
    var parts := Split(item, '=');
    Entry(parts[0], if |parts| == 1 then None else Some(parts[1]))
  }

  /**
   * What `[key, value] = item.split("=")` yields: the key is the text before the first
   * `=` (the whole segment when there is none, and then the value is undefined); the
   * value is the text between the first `=` and the second one, or the end of the segment.
   */
  lemma KeyValueShape(item: string)
    ensures var e := KeyValue(item);
      && '=' !in e.key && |e.key| <= |item| && item[..|e.key|] == e.key
      && (e.value.None? <==> '=' !in item)
      && (e.value.None? ==> e.key == item)
      && (e.value.Some? ==>
            var k, v := |e.key|, e.value.value;
            && '=' !in v
            && k + 1 + |v| <= |item|
            && item[k] == '=' && item[k + 1..k + 1 + |v|] == v
            && (k + 1 + |v| == |item| || item[k + 1 + |v|] == '='))
  {
    var parts := Split(item, '=');
    if |parts| > 1 {
      var tail := Join(parts[1..], '=');
      assert item == parts[0] + ['='] + tail;
      assert item[|parts[0]|] == '=';
      assert item[|parts[0]| + 1..] == tail;
      assert |parts| > 2 ==> tail == parts[1] + ['='] + Join(parts[2..], '=');
    }
  }

  /** The `reduce` over the segments: each segment assigns its value to its key, in order. */
  function Collect(items: seq<string>): map<string, Option<string>>
    decreases |items|
  {
    if items == [] then map[]
    else
      var e := KeyValue(items[|items| - 1]);
      Collect(items[..|items| - 1])[e.key := e.value]
  }

  /** The parsed object's keys are exactly the segments' keys. */
  lemma {:induction false} CollectKeys(items: seq<string>)
    ensures Collect(items).Keys == set i | 0 <= i < |items| :: KeyValue(items[i]).key
    decreases |items|
  {
    if items != [] {
      var init := items[..|items| - 1];
      CollectKeys(init);
      assert forall i :: 0 <= i < |init| ==> init[i] == items[i];
      assert (set i | 0 <= i < |items| :: KeyValue(items[i]).key)
        == (set i | 0 <= i < |init| :: KeyValue(init[i]).key) + {KeyValue(items[|items| - 1]).key};
    }
  }

  /** Later segments overwrite earlier ones: a key maps to the value of its last segment. */
  lemma {:induction false} LastOccurrenceWins(items: seq<string>, i: nat)
    requires i < |items|
    requires forall j :: i < j < |items| ==> KeyValue(items[j]).key != KeyValue(items[i]).key
    ensures KeyValue(items[i]).key in Collect(items)
    ensures Collect(items)[KeyValue(items[i]).key] == KeyValue(items[i]).value
    decreases |items|
  {
    if i < |items| - 1 {
      var init := items[..|items| - 1];
      LastOccurrenceWins(init, i);
    }
  }

  /** `data.split("&").reduce(...)`: the scanned payload as a key/value object. */
  function ParseParams(data: string): map<string, Option<string>>
  {
    Collect(Split(data, '&'))
  }

  /** Reading a property of the parsed object: a missing key reads as `undefined`. */
  function Lookup(params: map<string, Option<string>>, key: string): (v: Option<string>)
    ensures key !in params ==> v.None?
    ensures key in params ==> v == params[key]
  {
    if key in params then params[key] else None
  }

  /** The three identifiers the handoff needs. */
  datatype ScanIds = ScanIds(restaurantId: string, tableId: string, aiAgentId: string)

  /** All three identifiers are non-empty. */
  predicate Complete(ids: ScanIds)
  {
    ids.restaurantId != "" && ids.tableId != "" && ids.aiAgentId != ""
  }

  /**
   * `if (restaurantId && tableId && aiAgentId)`: the identifiers, when all three are
   * present and non-empty, taken from the parsed object unchanged.
   */
  function RequiredIds(params: map<string, Option<string>>): (ids: Option<ScanIds>)
    ensures ids.Some? <==>
      Truthy(Lookup(params, "restaurantId")) && Truthy(Lookup(params, "tableId"))
      && Truthy(Lookup(params, "aiAgentId"))
    ensures ids.Some? ==>
      && Complete(ids.value)
      && Lookup(params, "restaurantId") == Some(ids.value.restaurantId)
      && Lookup(params, "tableId") == Some(ids.value.tableId)
      && Lookup(params, "aiAgentId") == Some(ids.value.aiAgentId)
  {
    var r, t, a := Lookup(params, "restaurantId"), Lookup(params, "tableId"), Lookup(params, "aiAgentId");
    if Truthy(r) && Truthy(t) && Truthy(a) then Some(ScanIds(r.value, t.value, a.value)) else None
  }

  // ---------------------------------------------------------------------------
  // Properties of the parser

  /** A key and a value to be written as one `key=value` segment. */
  datatype Pair = Pair(key: string, value: string)

  /** Free of both delimiters. */
  predicate Plain(s: string)
  {
    '&' !in s && '=' !in s
  }

  function Segment(p: Pair): string
  {
    p.key + "=" + p.value
  }

  /** The payload `k1=v1&k2=v2&...` for the given pairs. */
  function Encode(pairs: seq<Pair>): string
    requires |pairs| >= 1
  {
    Join(seq(|pairs|, i requires 0 <= i < |pairs| => Segment(pairs[i])), '&')
  }

  /** A plain `key=value` segment destructures into that key and value. */
  lemma SegmentKeyValue(p: Pair)
    requires Plain(p.key) && Plain(p.value)
    ensures KeyValue(Segment(p)) == Entry(p.key, Some(p.value))
  {
    SplitAtFirstSeparator(p.key, p.value, '=');
    SplitNoSeparator(p.value, '=');
  }

  /** The segments of an encoded payload are the encoded pairs, in order. */
  lemma SplitEncoded(pairs: seq<Pair>)
    requires |pairs| >= 1
    requires forall j :: 0 <= j < |pairs| ==> Plain(pairs[j].key) && Plain(pairs[j].value)
    ensures var items := Split(Encode(pairs), '&');
      && |items| == |pairs|
      && forall j :: 0 <= j < |pairs| ==> KeyValue(items[j]) == Entry(pairs[j].key, Some(pairs[j].value))
  {
    var segs := seq(|pairs|, i requires 0 <= i < |pairs| => Segment(pairs[i]));
    forall j | 0 <= j < |pairs| ensures '&' !in segs[j] {
      assert segs[j] == pairs[j].key + "=" + pairs[j].value;
    }
    SplitJoin(segs, '&');
    forall j | 0 <= j < |pairs| ensures KeyValue(segs[j]) == Entry(pairs[j].key, Some(pairs[j].value)) {
      SegmentKeyValue(pairs[j]);
    }
  }

  /**
   * Round trip: parsing `k1=v1&...&kn=vn` (keys and values free of `&` and `=`) binds
   * each key to the value of its last occurrence.
   */
  lemma ParseEncoded(pairs: seq<Pair>, i: nat)
    requires |pairs| >= 1
    requires forall j :: 0 <= j < |pairs| ==> Plain(pairs[j].key) && Plain(pairs[j].value)
    requires i < |pairs|
    requires forall j :: i < j < |pairs| ==> pairs[j].key != pairs[i].key
    ensures Lookup(ParseParams(Encode(pairs)), pairs[i].key) == Some(pairs[i].value)
  {
    SplitEncoded(pairs);
    LastOccurrenceWins(Split(Encode(pairs), '&'), i);
  }

  /** Round trip, keys: parsing an encoded payload yields exactly the keys written. */
  lemma ParseEncodedKeys(pairs: seq<Pair>)
    requires |pairs| >= 1
    requires forall j :: 0 <= j < |pairs| ==> Plain(pairs[j].key) && Plain(pairs[j].value)
    ensures ParseParams(Encode(pairs)).Keys == set j | 0 <= j < |pairs| :: pairs[j].key
  {
    var items := Split(Encode(pairs), '&');
    SplitEncoded(pairs);
    CollectKeys(items);
    var keys := set j | 0 <= j < |items| :: KeyValue(items[j]).key;
    forall k | k in keys ensures k in set j | 0 <= j < |pairs| :: pairs[j].key {
      var j :| 0 <= j < |items| && KeyValue(items[j]).key == k;
      assert pairs[j].key == k;
    }
    forall k | k in set j | 0 <= j < |pairs| :: pairs[j].key ensures k in keys {
      var j :| 0 <= j < |pairs| && pairs[j].key == k;
      assert KeyValue(items[j]).key == k;
    }
  }

  /**
   * Three plain segments `k1=v1&k2=v2&k3=v3` parse to the map that binds k1, then k2,
   * then k3 (so a repeated key keeps its last value).
   */
  lemma ThreeSegments(k1: string, v1: string, k2: string, v2: string, k3: string, v3: string)
    requires Plain(k1) && Plain(v1) && Plain(k2) && Plain(v2) && Plain(k3) && Plain(v3)
    ensures ParseParams(k1 + "=" + v1 + "&" + k2 + "=" + v2 + "&" + k3 + "=" + v3)
      == map[k1 := Some(v1), k2 := Some(v2), k3 := Some(v3)]
  {
    var p1, p2, p3 := Pair(k1, v1), Pair(k2, v2), Pair(k3, v3);
    var segs := [Segment(p1), Segment(p2), Segment(p3)];
    var data := k1 + "=" + v1 + "&" + k2 + "=" + v2 + "&" + k3 + "=" + v3;
    assert data == segs[0] + "&" + segs[1] + "&" + segs[2];
    SplitThree(segs[0], segs[1], segs[2]);
    assert ParseParams(data) == Collect(segs);
    SegmentKeyValue(p1);
    SegmentKeyValue(p2);
    SegmentKeyValue(p3);
    assert segs[..2][..1] == [Segment(p1)] && segs[..2][1] == Segment(p2);
    assert Collect(segs[..2][..1]) == map[k1 := Some(v1)];
    assert Collect(segs[..2]) == map[k1 := Some(v1)][k2 := Some(v2)];
    assert Collect(segs) == Collect(segs[..2])[k3 := Some(v3)];
  }

  /** Three segments free of `&`, joined with `&`, split back into themselves. */
  lemma SplitThree(s1: string, s2: string, s3: string)
    requires '&' !in s1 && '&' !in s2 && '&' !in s3
    ensures Split(s1 + "&" + s2 + "&" + s3, '&') == [s1, s2, s3]
  {
    var rest := s2 + ['&'] + s3;
    assert s1 + "&" + s2 + "&" + s3 == s1 + ['&'] + rest;
    SplitAtFirstSeparator(s1, rest, '&');
    SplitAtFirstSeparator(s2, s3, '&');
    SplitNoSeparator(s3, '&');
  }

  /** A payload of the form `restaurantId=R&tableId=T&aiAgentId=A` parses to exactly those three bindings. */
  lemma ThreeIdsParse(r: string, t: string, a: string)
    requires Plain(r) && Plain(t) && Plain(a)
    ensures ParseParams("restaurantId=" + r + "&tableId=" + t + "&aiAgentId=" + a)
      == map["restaurantId" := Some(r), "tableId" := Some(t), "aiAgentId" := Some(a)]
  {
    assert Plain("restaurantId") && Plain("tableId") && Plain("aiAgentId");
    ThreeSegments("restaurantId", r, "tableId", t, "aiAgentId", a);
    IdsPayloadSpelling(r, t, a);
  }

  /** The three-identifier payload, written key by key. */
  lemma IdsPayloadSpelling(r: string, t: string, a: string)
    ensures "restaurantId" + "=" + r + "&" + "tableId" + "=" + t + "&" + "aiAgentId" + "=" + a
      == "restaurantId=" + r + "&tableId=" + t + "&aiAgentId=" + a
  {
    assert "restaurantId" + "=" == "restaurantId=";
    assert "&" + "tableId" + "=" == "&tableId=";
    assert "&" + "aiAgentId" + "=" == "&aiAgentId=";
  }

  /**
   * For a payload of the form `restaurantId=R&tableId=T&aiAgentId=A`, the handoff
   * receives R, T and A unchanged exactly when all three are non-empty.
   */
  lemma ThreeIdsPayload(r: string, t: string, a: string)
    requires Plain(r) && Plain(t) && Plain(a)
    ensures var ids := RequiredIds(ParseParams("restaurantId=" + r + "&tableId=" + t + "&aiAgentId=" + a));
      && (ids.Some? <==> r != "" && t != "" && a != "")
      && (ids.Some? ==> ids.value == ScanIds(r, t, a))
  {
    ThreeIdsParse(r, t, a);
  }

  /** The example payload `restaurantId=123&tableId=456&aiAgentId=789` yields its three identifiers. */
  lemma DocumentedPayload()
    ensures RequiredIds(ParseParams("restaurantId=" + "123" + "&tableId=" + "456" + "&aiAgentId=" + "789"))
      == Some(ScanIds("123", "456", "789"))
  {
    ThreeIdsPayload("123", "456", "789");
  }

  /** A segment with no `=` is all key, and its value is undefined. */
  lemma SegmentWithoutEquals(item: string)
    requires '=' !in item
    ensures KeyValue(item) == Entry(item, None)
  {
    SplitNoSeparator(item, '=');
  }

  /** With more than one `=`, only the text between the first and the second is the value. */
  lemma SegmentWithExtraEquals(k: string, v: string, rest: string)
    requires '=' !in k && '=' !in v
    ensures KeyValue(k + "=" + v + "=" + rest) == Entry(k, Some(v))
  {
    assert k + "=" + v + "=" + rest == k + ['='] + (v + ['='] + rest);
    SplitAtFirstSeparator(k, v + ['='] + rest, '=');
    SplitAtFirstSeparator(v, rest, '=');
  }

  /** A payload that only names the table is refused: `restaurantId` reads as undefined. */
  lemma MissingRestaurantRefused(t: string)
    requires Plain(t)
    ensures RequiredIds(ParseParams("tableId=" + t)).None?
  {
    var seg := Segment(Pair("tableId", t));
    assert "tableId" + "=" + t == "tableId=" + t;
    assert Plain("tableId");
    SplitNoSeparator(seg, '&');
    SegmentKeyValue(Pair("tableId", t));
    assert [seg][..0] == [];
    assert Collect([seg]) == map["tableId" := Some(t)];
    assert ParseParams(seg) == map["tableId" := Some(t)];
  }

  // ---------------------------------------------------------------------------
  // The screen

  /** The argument object of `api.getUser({restaurantId, tableId, barcodeData})`. */
  datatype GetUserArgs = GetUserArgs(restaurantId: string, tableId: string, barcodeData: string)

  /** How the awaited getUser call settles: resolved with `userResponse.data`, or rejected. */
  datatype FetchOutcome = Fetched(userData: UserData) | FetchFailed

  const InvalidBarcodeAlert: Alert :=
    Alert("Invalid Barcode", "The scanned barcode does not contain the required information.")

  const FetchFailedAlert: Alert := Alert("Error", "Failed to retrieve user information.")

  /** The chat screen's parameters for a resolved scan: the identifiers unchanged, and the fetched data. */
  function ChatRoute(ids: ScanIds, userData: UserData): (r: Route)
    ensures r.AIScreen?
    ensures r.params.restaurant_id == ids.restaurantId && r.params.table_id == ids.tableId
    ensures r.params.ai_agent_id == ids.aiAgentId && r.params.userData == userData
  {
    AIScreen(AiScreenParams(ids.restaurantId, ids.tableId, ids.aiAgentId, userData))
  }

  class Scanner {
    /** Whether the camera's scan callback is switched off. */
    var scanned: bool
    /** The scan handlers suspended at `await api.getUser(...)`, with the identifiers they parsed. */
    var inFlight: seq<ScanIds>
    /** Every getUser call made, in order. */
    var requests: seq<GetUserArgs>
    var alerts: seq<Alert>
    var navigations: seq<Route>

    /** Fetches are only started, and navigation only happens, with three non-empty identifiers. */
    ghost predicate Valid()
      reads this
    {
      && (forall i :: 0 <= i < |inFlight| ==> Complete(inFlight[i]))
      && (forall i :: 0 <= i < |navigations| ==>
            navigations[i].AIScreen? && navigations[i].params.restaurant_id != ""
            && navigations[i].params.table_id != "" && navigations[i].params.ai_agent_id != "")
    }

    constructor ()
      ensures Valid()
      ensures !scanned && inFlight == [] && requests == [] && alerts == [] && navigations == []
    {
      scanned := false;
      inFlight, requests, alerts, navigations := [], [], [], [];
    }

    /**
     * A barcode event from the camera. While `scanned` is set the callback is unset and
     * the event is lost; otherwise `handleBarCodeScanned` runs up to its `await`.
     */
    method OnBarCodeScanned(data: string)
      requires Valid()
      modifies this
      ensures Valid()
      ensures old(scanned) ==>
        scanned && inFlight == old(inFlight) && requests == old(requests)
        && alerts == old(alerts) && navigations == old(navigations)
      ensures !old(scanned) ==>
        var ids := RequiredIds(ParseParams(data));
        && navigations == old(navigations)
        && (ids.Some? ==>
              && scanned
              && inFlight == old(inFlight) + [ids.value]
              && requests == old(requests) + [GetUserArgs(ids.value.restaurantId, ids.value.tableId, data)]
              && alerts == old(alerts))
        && (ids.None? ==>
              && !scanned
              && inFlight == old(inFlight) && requests == old(requests)
              && alerts == old(alerts) + [InvalidBarcodeAlert])
    {
      if scanned {
        return;
      }
      scanned := true;
      var ids := RequiredIds(ParseParams(data));
      if ids.Some? {
        requests := requests + [GetUserArgs(ids.value.restaurantId, ids.value.tableId, data)];
        inFlight := inFlight + [ids.value];
      } else {
        alerts := alerts + [InvalidBarcodeAlert];
        scanned := false;
      }
    }

    /**
     * The getUser call of suspended handler `k` settles. On success the chat screen is
     * opened with the parsed identifiers unchanged and `scanned` stays as it is; on
     * failure an alert is shown and scanning is re-armed.
     */
    method ResolveFetch(k: nat, outcome: FetchOutcome)
      requires Valid()
      requires k < |inFlight|
      modifies this
      ensures Valid()
      ensures inFlight == old(inFlight[..k] + inFlight[k + 1..])
      ensures requests == old(requests)
      ensures outcome.Fetched? ==>
        && scanned == old(scanned)
        && navigations == old(navigations) + [ChatRoute(old(inFlight[k]), outcome.userData)]
        && alerts == old(alerts)
      ensures outcome.FetchFailed? ==>
        && !scanned
        && navigations == old(navigations)
        && alerts == old(alerts) + [FetchFailedAlert]
    {
      var ids := inFlight[k];
      inFlight := inFlight[..k] + inFlight[k + 1..];
      match outcome {
        case Fetched(userData) =>
          navigations := navigations + [ChatRoute(ids, userData)];
        case FetchFailed =>
          alerts := alerts + [FetchFailedAlert];
          scanned := false;
      }
    }

    /** "Tap to Scan Again": re-arms scanning and changes nothing else. */
    method TapToScanAgain()
      requires Valid()
      modifies this
      ensures Valid()
      ensures !scanned
      ensures inFlight == old(inFlight) && requests == old(requests)
      ensures alerts == old(alerts) && navigations == old(navigations)
    {
      // The button is only rendered while `scanned` holds; either way scanning ends up armed.
      scanned := false;
    }
  }

  /**
   * The scan-again button stays on screen while a fetch is pending, so a valid scan,
   * a tap and a second scan leave two getUser calls in flight at once.
   */
  method TwoFetchesInFlight(data: string) returns (s: Scanner)
    requires RequiredIds(ParseParams(data)).Some?
    ensures s.Valid() && s.scanned && |s.inFlight| == 2 && |s.requests| == 2
  {
    s := new Scanner();
    s.OnBarCodeScanned(data);
    s.TapToScanAgain();
    s.OnBarCodeScanned(data);
  }
}

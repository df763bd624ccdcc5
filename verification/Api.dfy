/** The typed API client (src/lib/api.ts): how each namespaced method builds its
    endpoint, how `fetchAPI` merges headers, and which value it returns or which
    error it throws for a given response. The network call itself is replaced by
    the response it produced. */
module Api {
  import opened Common

  // ---------------------------------------------------------------------
  // Endpoints
  // ---------------------------------------------------------------------

  const DefaultBaseUrl: string := "http://localhost:8000"

  /** `import.meta.env.VITE_API_URL || 'http://localhost:8000'`. */
  function BaseUrl(env: Option<string>): (url: string)
    ensures Truthy(env) ==> url == env.value
    ensures !Truthy(env) ==> url == DefaultBaseUrl
  {
    OrElse(env, DefaultBaseUrl)
  }

  /** The part of a URL after the path.
      - `NoQuery`: no `?` at all;
      - `Literal(text)`: `?` followed by text written straight into a template
        literal, with no encoding;
      - `Form(params)`: `?` followed by `URLSearchParams` serialisation of the
        key/value list (the application/x-www-form-urlencoded serializer of
        section 5.2 of the WHATWG URL Standard), which is kept abstract here.
        That serializer yields the empty string exactly for the empty list, so
        `Form([])` stands for a URL that ends in a bare `?`. */
  datatype Query = NoQuery | Literal(text: string) | Form(params: seq<(string, string)>)

  datatype Endpoint = Endpoint(path: string, query: Query)

  type Params = seq<(string, string)>

  /** `if (value) params.append(key, value)`. */
  function Optional(key: string, value: Option<string>): (ps: Params)
    ensures Truthy(value) ==> ps == [(key, value.value)]
    ensures !Truthy(value) <==> ps == []
  {
    if Truthy(value) then [(key, value.value)] else []
  }

  /** A defaulted numeric argument: `limit = 50` and friends. */
  function IntOr(x: Option<int>, default: int): int
  {
    if x.Some? then x.value else default
  }

  /** `ks` is obtained from `all` by deleting some elements: order is kept. */
  predicate IsSubsequence(ks: seq<string>, all: seq<string>)
  {
    if ks == [] then true
    else if all == [] then false
    else if ks[0] == all[0] then IsSubsequence(ks[1..], all[1..])
    else IsSubsequence(ks, all[1..])
  }

  // profileAPI ------------------------------------------------------------

  function ProfilesGetAll(limit: Option<int>, offset: Option<int>): Endpoint
  {
    Endpoint("/api/profiles",
      Literal("limit=" + IntToString(IntOr(limit, 100)) + "&offset=" + IntToString(IntOr(offset, 0))))
  }

  /** The entity id is pasted into the path as it is. */
  function ProfileGetById(entityId: string): Endpoint
  {
    Endpoint("/api/profiles/" + entityId, NoQuery)
  }

  /** The only builder that percent-encodes a path segment. */
  function ProfileSearch(query: string, field: Option<string>): Endpoint
  {
    Endpoint("/api/profiles/search/" + EncodeUriComponent(query),
      Literal("field=" + (if field.Some? then field.value else "name")))
  }

  // swipeAPI, wifiAPI, labBookingAPI, libraryAPI, notesAPI, cctvAPI ---------

  function SwipesGetRecent(limit: Option<int>, entityId: Option<string>): Endpoint
  {
    Endpoint("/api/swipes", Form([("limit", IntToString(IntOr(limit, 50)))] + Optional("entity_id", entityId)))
  }

  function WifiGetRecent(limit: Option<int>, entityId: Option<string>): Endpoint
  {
    Endpoint("/api/wifi_logs", Form([("limit", IntToString(IntOr(limit, 50)))] + Optional("entity_id", entityId)))
  }

  /** `upcoming=true` is sent only when `upcoming` is true; an omitted flag defaults to false. */
  function LabBookingsGetAll(entityId: Option<string>, upcoming: Option<bool>): Endpoint
  {
    var up := upcoming.Some? && upcoming.value;
    Endpoint("/api/lab_bookings", Form(Optional("entity_id", entityId) + (if up then [("upcoming", "true")] else [])))
  }

  function LibraryGetCheckouts(entityId: Option<string>): Endpoint
  {
    Endpoint("/api/library_checkouts", Form(Optional("entity_id", entityId)))
  }

  function NotesGetAll(entityId: Option<string>, source: Option<string>): Endpoint
  {
    Endpoint("/api/notes", Form(Optional("entity_id", entityId) + Optional("source", source)))
  }

  function CctvGetFrames(locationId: Option<string>, limit: Option<int>): Endpoint
  {
    Endpoint("/api/cctv_frame", Form([("limit", IntToString(IntOr(limit, 50)))] + Optional("location_id", locationId)))
  }

  // entityResolutionAPI ---------------------------------------------------

  function ResolveParams(cardId: Option<string>, deviceHash: Option<string>, faceId: Option<string>): Params
  {
    Optional("card_id", cardId) + Optional("device_hash", deviceHash) + Optional("face_id", faceId)
  }

  function Resolve(cardId: Option<string>, deviceHash: Option<string>, faceId: Option<string>): Endpoint
  {
    Endpoint("/api/resolve", Form(ResolveParams(cardId, deviceHash, faceId)))
  }

  function GetTimeline(entityId: string, days: Option<int>): Endpoint
  {
    Endpoint("/api/entity/" + entityId + "/timeline", Literal("days=" + IntToString(IntOr(days, 7))))
  }

  // dashboardAPI ----------------------------------------------------------

  function DateTimeParams(targetDate: Option<string>, targetTime: Option<string>): Params
  {
    Optional("target_date", targetDate) + Optional("target_time", targetTime)
  }

  /** `${path}${queryString ? `?${queryString}` : ''}`: a `?` only for a non-empty query string. */
  function WithQueryIfAny(path: string, ps: Params): (e: Endpoint)
    ensures e.path == path
    ensures ps == [] ==> e.query == NoQuery
    ensures ps != [] ==> e.query == Form(ps)
  {
    Endpoint(path, if ps == [] then NoQuery else Form(ps))
  }

  function DashboardStats(targetDate: Option<string>, targetTime: Option<string>): Endpoint
  {
    WithQueryIfAny("/api/dashboard/stats", DateTimeParams(targetDate, targetTime))
  }

  function ActivityHeatmap(days: Option<int>): Endpoint
  {
    Endpoint("/api/analytics/activity-heatmap", Literal("days=" + IntToString(IntOr(days, 7))))
  }

  function WeeklyActivity(targetDate: Option<string>, targetTime: Option<string>): Endpoint
  {
    WithQueryIfAny("/api/analytics/weekly-activity", DateTimeParams(targetDate, targetTime))
  }

  function SourceDistribution(targetDate: Option<string>, targetTime: Option<string>): Endpoint
  {
    WithQueryIfAny("/api/analytics/source-distribution", DateTimeParams(targetDate, targetTime))
  }

  // securityAPI, alertsAPI, healthAPI ---------------------------------------

  function SecurityStats(): Endpoint
  {
    Endpoint("/api/security/stats", NoQuery)
  }

  /** `if (limit)`: a limit of 0 is falsy and is dropped. */
  function AlertsGetAll(status: Option<string>, limit: Option<int>): Endpoint
  {
    var lim := if limit.Some? && limit.value != 0 then [("limit", IntToString(limit.value))] else [];
    Endpoint("/api/alerts", Form(Optional("status", status) + lim))
  }

  /** PUT `/api/alerts/{id}?status=...`, the id pasted into the path as it is. */
  function AlertsUpdateStatus(alertId: string, status: string): Endpoint
  {
    Endpoint("/api/alerts/" + alertId, Literal("status=" + status))
  }

  function HealthCheck(): Endpoint
  {
    Endpoint("/health", NoQuery)
  }

  // ---------------------------------------------------------------------
  // encodeURIComponent
  // ---------------------------------------------------------------------

  /** Characters `encodeURIComponent` leaves alone. */
  predicate Unreserved(c: char)
  {
    ('A' <= c <= 'Z') || ('a' <= c <= 'z') || ('0' <= c <= '9')
    || c == '-' || c == '_' || c == '.' || c == '!' || c == '~' || c == '*' || c == '\'' || c == '(' || c == ')'
  }

  predicate IsHexDigit(c: char)
  {
    ('0' <= c <= '9') || ('A' <= c <= 'F')
  }

  function HexDigit(d: nat): (c: char)
    requires d < 16
    ensures IsHexDigit(c)
  {
    if d < 10 then ('0' as int + d) as char else ('A' as int + d - 10) as char
  }

  /** `%XX` for one byte, upper-case hex. */
  function PercentByte(b: nat): (s: string)
    requires b < 256
    ensures |s| == 3 && s[0] == '%' && IsHexDigit(s[1]) && IsHexDigit(s[2])
  {
    ['%', HexDigit(b / 16), HexDigit(b % 16)]
  }

  /** The UTF-8 bytes of a Unicode scalar value. */
  function Utf8(cp: nat): (bytes: seq<nat>)
    requires cp < 0x11_0000
    ensures 1 <= |bytes| <= 4
    ensures forall i :: 0 <= i < |bytes| ==> bytes[i] < 256
  {
    if cp < 0x80 then [cp]
    else if cp < 0x800 then [0xC0 + cp / 64, 0x80 + cp % 64]
    else if cp < 0x1_0000 then [0xE0 + cp / 4096, 0x80 + (cp / 64) % 64, 0x80 + cp % 64]
    else [0xF0 + cp / 262144, 0x80 + (cp / 4096) % 64, 0x80 + (cp / 64) % 64, 0x80 + cp % 64]
  }

  function PercentBytes(bytes: seq<nat>): (s: string)
    requires forall i :: 0 <= i < |bytes| ==> bytes[i] < 256
    ensures forall i :: 0 <= i < |s| ==> s[i] == '%' || IsHexDigit(s[i])
  {
    if bytes == [] then [] else PercentByte(bytes[0]) + PercentBytes(bytes[1..])
  }

  /** One character: itself when unreserved, otherwise one `%XX` escape per
      UTF-8 byte. */
  function EncodeChar(c: char): (s: string)
    ensures Unreserved(c) ==> s == [c]
    ensures !Unreserved(c) ==> |s| == 3 * |Utf8(c as nat)|
    ensures !Unreserved(c) ==> forall k :: 0 <= k < |Utf8(c as nat)| ==> s[3 * k..3 * k + 3] == PercentByte(Utf8(c as nat)[k])
    ensures forall i :: 0 <= i < |s| ==> Unreserved(s[i]) || s[i] == '%' || IsHexDigit(s[i])
  {
    if Unreserved(c) then [c]
    else
      PercentBytesLayout(Utf8(c as nat));
      PercentBytes(Utf8(c as nat))
  }

  /** `PercentBytes` writes one three-character escape per byte, in order. */
  lemma {:induction false} PercentBytesLayout(bytes: seq<nat>)
    requires forall i :: 0 <= i < |bytes| ==> bytes[i] < 256
    ensures |PercentBytes(bytes)| == 3 * |bytes|
    ensures forall k :: 0 <= k < |bytes| ==> PercentBytes(bytes)[3 * k..3 * k + 3] == PercentByte(bytes[k])
  {
    if bytes != [] {
      var rest := PercentBytes(bytes[1..]);
      PercentBytesLayout(bytes[1..]);
      var s := PercentBytes(bytes);
      assert s == PercentByte(bytes[0]) + rest;
      forall k | 0 <= k < |bytes| ensures s[3 * k..3 * k + 3] == PercentByte(bytes[k]) {
        if k == 0 {
          assert s[..3] == PercentByte(bytes[0]);
        } else {
          assert s[3 * k..3 * k + 3] == rest[3 * (k - 1)..3 * (k - 1) + 3];
          assert bytes[1..][k - 1] == bytes[k];
        }
      }
    }
  }

  /** `encodeURIComponent(s)`: unreserved characters stay, every other
      character becomes the percent-escapes of its UTF-8 bytes. */
  function EncodeUriComponent(s: string): (r: string)
    ensures forall i :: 0 <= i < |r| ==> Unreserved(r[i]) || r[i] == '%' || IsHexDigit(r[i])
    ensures (forall i :: 0 <= i < |s| ==> Unreserved(s[i])) ==> r == s
  {
    if s == [] then [] else EncodeChar(s[0]) + EncodeUriComponent(s[1..])
  }

  // ---------------------------------------------------------------------
  // Decoding: the inverse of encodeURIComponent
  // ---------------------------------------------------------------------

  function HexValue(c: char): (d: nat)
    requires IsHexDigit(c)
    ensures d < 16
  {
    if '0' <= c <= '9' then c as nat - '0' as nat else c as nat - 'A' as nat + 10
  }

  lemma HexRoundTrip(d: nat)
    requires d < 16
    ensures HexValue(HexDigit(d)) == d
  {
  }

  /** The UTF-8 bytes of a string, character by character. */
  function Utf8String(s: string): seq<nat>
  {
    if s == [] then [] else Utf8(s[0] as nat) + Utf8String(s[1..])
  }

  /** Percent-decoding to bytes (`decodeURIComponent` before its UTF-8 step):
      an unreserved character is its own ASCII byte and `%XY` the byte with
      hex digits X and Y; anything else is malformed. */
  function PercentDecode(r: string): Option<seq<nat>>
    decreases |r|
  {
    if r == [] then Some([])
    else if r[0] == '%' then
      if |r| >= 3 && IsHexDigit(r[1]) && IsHexDigit(r[2]) then
        var rest := PercentDecode(r[3..]);
        if rest.Some? then Some([16 * HexValue(r[1]) + HexValue(r[2])] + rest.value) else None
      else None
    else if Unreserved(r[0]) then
      var rest := PercentDecode(r[1..]);
      if rest.Some? then Some([r[0] as nat] + rest.value) else None
    else None
  }

  /** One escape decodes to its byte, ahead of whatever follows. */
  lemma PercentByteDecode(b: nat, tail: string)
    requires b < 256
    requires PercentDecode(tail).Some?
    ensures PercentDecode(PercentByte(b) + tail) == Some([b] + PercentDecode(tail).value)
  {
    var r := PercentByte(b) + tail;
    assert r[0] == '%' && r[1] == HexDigit(b / 16) && r[2] == HexDigit(b % 16) && r[3..] == tail;
    HexRoundTrip(b / 16);
    HexRoundTrip(b % 16);
  }

  /** The inductive step of `PercentBytesDecode`: escaping one more byte in
      front decodes to one more byte in front. */
  lemma PercentBytesCons(bytes: seq<nat>, rest: string, v: seq<nat>)
    requires bytes != [] && forall i :: 0 <= i < |bytes| ==> bytes[i] < 256
    requires PercentDecode(PercentBytes(bytes[1..]) + rest) == Some(bytes[1..] + v)
    ensures PercentDecode(PercentBytes(bytes) + rest) == Some(bytes + v)
  {
    var head, more := PercentByte(bytes[0]), PercentBytes(bytes[1..]);
    var tail := more + rest;
    calc {
      PercentBytes(bytes) + rest;
      (head + more) + rest;
      head + tail;
    }
    PercentByteDecode(bytes[0], tail);
    PrependFirst(bytes, v);
  }

  /** Putting the first element back in front of the rest and a suffix. */
  lemma PrependFirst(s: seq<nat>, v: seq<nat>)
    requires s != []
    ensures [s[0]] + (s[1..] + v) == s + v
  {
    assert [s[0]] + s[1..] == s;
  }

  /** Escaped bytes decode back to themselves, ahead of whatever follows. */
  lemma {:induction false} PercentBytesDecode(bytes: seq<nat>, rest: string)
    requires forall i :: 0 <= i < |bytes| ==> bytes[i] < 256
    requires PercentDecode(rest).Some?
    ensures PercentDecode(PercentBytes(bytes) + rest) == Some(bytes + PercentDecode(rest).value)
  {
    var v := PercentDecode(rest).value;
    if bytes == [] {
      assert PercentBytes(bytes) + rest == rest;
      assert bytes + v == v;
    } else {
      PercentBytesDecode(bytes[1..], rest);
      PercentBytesCons(bytes, rest, v);
    }
  }

  /** Decoding the encoding of a string gives back its UTF-8 bytes. */
  lemma {:induction false} EncodeDecodeBytes(s: string)
    ensures PercentDecode(EncodeUriComponent(s)) == Some(Utf8String(s))
  {
    if s != [] {
      var c := s[0];
      var rest := EncodeUriComponent(s[1..]);
      EncodeDecodeBytes(s[1..]);
      assert EncodeUriComponent(s) == EncodeChar(c) + rest;
      if Unreserved(c) {
        assert (EncodeChar(c) + rest)[1..] == rest;
        assert Utf8(c as nat) == [c as nat];
      } else {
        PercentBytesDecode(Utf8(c as nat), rest);
      }
    }
  }

  /** How many bytes a UTF-8 sequence takes, read from its first byte. */
  function Utf8Length(lead: nat): nat
  {
    if lead < 0x80 then 1 else if lead < 0xE0 then 2 else if lead < 0xF0 then 3 else 4
  }

  /** The code point spelt by the bytes of one UTF-8 sequence. */
  function Utf8Value(bs: seq<nat>): int
    requires 1 <= |bs| <= 4
  {
    var b := seq(|bs|, i requires 0 <= i < |bs| => bs[i] as int);
    if |b| == 1 then b[0]
    else if |b| == 2 then (b[0] - 0xC0) * 64 + (b[1] - 0x80)
    else if |b| == 3 then (b[0] - 0xE0) * 4096 + (b[1] - 0x80) * 64 + (b[2] - 0x80)
    else (b[0] - 0xF0) * 262144 + (b[1] - 0x80) * 4096 + (b[2] - 0x80) * 64 + (b[3] - 0x80)
  }

  /** A Unicode scalar value: a code point that is not a surrogate. */
  predicate IsScalar(n: int)
  {
    0 <= n < 0xD800 || 0xE000 <= n < 0x11_0000
  }

  /** Reads a byte sequence back as characters, one UTF-8 sequence at a time. */
  function Utf8Decode(bs: seq<nat>): Option<string>
    decreases |bs|
  {
    if bs == [] then Some([])
    else
      var n := Utf8Length(bs[0]);
      if |bs| < n then None
      else
        var v := Utf8Value(bs[..n]);
        if !IsScalar(v) then None
        else
          var rest := Utf8Decode(bs[n..]);
          if rest.Some? then Some([v as char] + rest.value) else None
  }

  /** The bytes of one character announce their own length and spell the
      character. */
  lemma Utf8Char(c: char)
    ensures Utf8Length(Utf8(c as nat)[0]) == |Utf8(c as nat)|
    ensures Utf8Value(Utf8(c as nat)) == c as int
  {
    var cp := c as nat;
    if cp < 0x80 {
    } else if cp < 0x800 {
      assert cp == (cp / 64) * 64 + cp % 64;
    } else if cp < 0x1_0000 {
      assert cp / 64 == (cp / 4096) * 64 + (cp / 64) % 64;
      assert cp == (cp / 64) * 64 + cp % 64;
    } else {
      assert cp / 4096 == (cp / 262144) * 64 + (cp / 4096) % 64;
      assert cp / 64 == (cp / 4096) * 64 + (cp / 64) % 64;
      assert cp == (cp / 64) * 64 + cp % 64;
    }
  }

  /** UTF-8 decoding inverts UTF-8 encoding. */
  lemma {:induction false} Utf8RoundTrip(s: string)
    ensures Utf8Decode(Utf8String(s)) == Some(s)
  {
    if s != [] {
      var c := s[0];
      var head := Utf8(c as nat);
      var bs := Utf8String(s);
      Utf8RoundTrip(s[1..]);
      Utf8Char(c);
      assert bs == head + Utf8String(s[1..]);
      assert bs[0] == head[0];
      assert bs[..|head|] == head;
      assert bs[|head|..] == Utf8String(s[1..]);
      assert s == [c] + s[1..];
    }
  }

  /** Distinct strings have distinct encodings, so a search term can always be
      recovered from the path segment. */
  lemma EncodeInjective(s1: string, s2: string)
    requires EncodeUriComponent(s1) == EncodeUriComponent(s2)
    ensures s1 == s2
  {
    EncodeDecodeBytes(s1);
    EncodeDecodeBytes(s2);
    Utf8RoundTrip(s1);
    Utf8RoundTrip(s2);
  }

  // ---------------------------------------------------------------------
  // fetchAPI
  // ---------------------------------------------------------------------

  /** A parsed JSON value. */
  datatype Json =
    | JNull
    | JBool(b: bool)
    | JNum(n: real)
    | JStr(s: string)
    | JArr(items: seq<Json>)
    | JObj(fields: seq<(string, Json)>)

  /** `obj[key]` on a parsed object: the last occurrence of a repeated key wins. */
  function Field(fields: seq<(string, Json)>, key: string): Option<Json>
  {
    if fields == [] then None
    else if fields[|fields| - 1].0 == key then Some(fields[|fields| - 1].1)
    else Field(fields[..|fields| - 1], key)
  }

  /** JavaScript truthiness of a property read; a missing property is `undefined`. */
  predicate JsonTruthy(v: Option<Json>)
  {
    match v
    case None => false
    case Some(JNull) => false
    case Some(JBool(b)) => b
    case Some(JNum(n)) => n != 0.0
    case Some(JStr(s)) => s != ""
    case Some(_) => true
  }

  /** A response body: JSON, or text that `response.json()` rejects. */
  datatype Body = Parsed(json: Json) | Malformed

  datatype Response = Response(status: int, statusText: string, body: Body)
  {
    /** `response.ok`: a status in the range 200-299. */
    predicate Ok() { 200 <= status <= 299 }
  }

  /** What `fetchAPI` throws. */
  datatype ThrownError =
    | ErrorMessage(message: string)   // `new Error(text)`
    | ErrorFromValue(detail: Json)    // `new Error(value)` for a truthy non-string `detail`
    | BodyAccessOnNull                // a non-ok body that is JSON `null`: reading `.detail` throws a TypeError
    | InvalidJson                     // an ok response whose body `response.json()` rejects
    | TransportFailure                // `fetch` itself rejected (network, DNS, CORS)

  datatype Outcome = Returned(value: Json) | Thrown(error: ThrownError)

  /** The value the catch handler substitutes for an unreadable error body. */
  const UnknownErrorBody: Json := JObj([("detail", JStr("Unknown error"))])

  /** `error.detail || `HTTP ${status}: ${statusText}``, as the error thrown. */
  function ErrorFor(status: int, statusText: string, error: Json): (e: ThrownError)
  {
    if error == JNull then BodyAccessOnNull
    else
      var detail := if error.JObj? then Field(error.fields, "detail") else None;
      if JsonTruthy(detail) then
        (if detail.value.JStr? then ErrorMessage(detail.value.s) else ErrorFromValue(detail.value))
      else ErrorMessage("HTTP " + IntToString(status) + ": " + statusText)
  }

  /** The settled result of `fetchAPI` given what `fetch` produced (`None`:
      `fetch` rejected). Every failure is logged with the endpoint and re-thrown. */
  function FetchOutcome(response: Option<Response>): Outcome
  {
    if response.None? then Thrown(TransportFailure)
    else
      var r := response.value;
      if !r.Ok() then
        Thrown(ErrorFor(r.status, r.statusText, if r.body.Parsed? then r.body.json else UnknownErrorBody))
      else if r.body.Parsed? then Returned(r.body.json)
      else Thrown(InvalidJson)
  }

  /** No key appears twice: the entries of a plain JavaScript object. */
  predicate UniqueKeys(obj: Params)
  {
    forall i, j :: 0 <= i < j < |obj| ==> obj[i].0 != obj[j].0
  }

  /** `obj[key]`. */
  function Property(obj: Params, key: string): Option<string>
  {
    if obj == [] then None
    else if obj[0].0 == key then Some(obj[0].1)
    else Property(obj[1..], key)
  }

  /** Object spread of one property: an existing key keeps its position and
      takes the new value, a new key goes at the end. */
  function SetProperty(obj: Params, key: string, value: string): (r: Params)
    ensures Keys(r) == if key in Keys(obj) then Keys(obj) else Keys(obj) + [key]
  {
    if obj == [] then [(key, value)]
    else if obj[0].0 == key then [(key, value)] + obj[1..]
    else [obj[0]] + SetProperty(obj[1..], key, value)
  }

  /** `{ ...base, ...extra }` for plain objects. */
  function Spread(base: Params, extra: Params): Params
    decreases |extra|
  {
    if extra == [] then base
    else Spread(SetProperty(base, extra[0].0, extra[0].1), extra[1..])
  }

  /** `{ 'Content-Type': 'application/json', ...options?.headers }`. */
  function RequestHeaders(callerHeaders: Params): Params
  {
    Spread([("Content-Type", "application/json")], callerHeaders)
  }

  /** One HTTP call: the method `fetch` is given (GET when the options name none) and the endpoint. */
  datatype Call = Call(verb: string, endpoint: Endpoint)

  /** `alertsAPI.updateStatus`: the only call in the client that names a method. */
  function UpdateAlertStatusCall(alertId: string, status: string): (c: Call)
    ensures c.verb == "PUT"
    ensures c.endpoint.path == "/api/alerts/" + alertId
  {
    Call("PUT", AlertsUpdateStatus(alertId, status))
  }

  // ---------------------------------------------------------------------
  // Properties
  // ---------------------------------------------------------------------

  lemma {:induction false} UniqueKeysTail(obj: Params)
    requires UniqueKeys(obj) && obj != []
    ensures UniqueKeys(obj[1..])
    ensures obj[0].0 !in Keys(obj[1..])
  {
    var ks := Keys(obj[1..]);
    forall j | 0 <= j < |ks| ensures ks[j] != obj[0].0 {
      assert ks[j] == obj[j + 1].0;
    }
  }

  lemma {:induction false} PropertyAbsent(obj: Params, y: string)
    requires y !in Keys(obj)
    ensures Property(obj, y) == None
  {
    if obj != [] {
      assert Keys(obj)[0] == obj[0].0;
      assert Keys(obj[1..]) == Keys(obj)[1..];
      PropertyAbsent(obj[1..], y);
    }
  }

  /** Writing one property changes that property and no other, and keeps keys unique. */
  lemma {:induction false} SetPropertyGet(obj: Params, key: string, value: string, y: string)
    requires UniqueKeys(obj)
    ensures UniqueKeys(SetProperty(obj, key, value))
    ensures Property(SetProperty(obj, key, value), y) == if y == key then Some(value) else Property(obj, y)
  {
    var r := SetProperty(obj, key, value);
    if obj == [] {
    } else if obj[0].0 == key {
      UniqueKeysTail(obj);
      assert r[1..] == obj[1..];
      if y == key {
      } else {
        assert Property(r, y) == Property(obj[1..], y);
      }
      forall i, j | 0 <= i < j < |r| ensures r[i].0 != r[j].0 {
        assert Keys(obj[1..])[j - 1] == obj[j].0;
      }
    } else {
      UniqueKeysTail(obj);
      SetPropertyGet(obj[1..], key, value, y);
      var rest := SetProperty(obj[1..], key, value);
      assert r == [obj[0]] + rest;
      forall i, j | 0 <= i < j < |r| ensures r[i].0 != r[j].0 {
        if i == 0 {
          assert Keys(rest)[j - 1] == rest[j - 1].0;
          assert obj[0].0 != key;
        }
      }
    }
  }

  /** `{ ...base, ...extra }`: a key of `extra` reads as in `extra`, any other key as in `base`. */
  lemma {:induction false} SpreadGet(base: Params, extra: Params, y: string)
    requires UniqueKeys(base) && UniqueKeys(extra)
    ensures UniqueKeys(Spread(base, extra))
    ensures Property(Spread(base, extra), y) == if y in Keys(extra) then Property(extra, y) else Property(base, y)
    decreases |extra|
  {
    if extra != [] {
      var b2 := SetProperty(base, extra[0].0, extra[0].1);
      SetPropertyGet(base, extra[0].0, extra[0].1, y);
      UniqueKeysTail(extra);
      SpreadGet(b2, extra[1..], y);
      assert Keys(extra) == [extra[0].0] + Keys(extra[1..]);
      if y !in Keys(extra[1..]) && y != extra[0].0 {
        assert Property(extra, y) == Property(extra[1..], y);
      }
    }
  }

  /** The request headers always carry a Content-Type, `application/json` unless
      the caller supplies another, and every caller header arrives unchanged. */
  lemma RequestHeadersMeaning(callerHeaders: Params, y: string)
    requires UniqueKeys(callerHeaders)
    ensures UniqueKeys(RequestHeaders(callerHeaders))
    ensures y in Keys(callerHeaders) ==> Property(RequestHeaders(callerHeaders), y) == Property(callerHeaders, y)
    ensures "Content-Type" !in Keys(callerHeaders) ==>
      Property(RequestHeaders(callerHeaders), "Content-Type") == Some("application/json")
    ensures Property(RequestHeaders(callerHeaders), "Content-Type").Some?
  {
    SpreadGet([("Content-Type", "application/json")], callerHeaders, y);
    SpreadGet([("Content-Type", "application/json")], callerHeaders, "Content-Type");
    if "Content-Type" in Keys(callerHeaders) {
      var j :| 0 <= j < |callerHeaders| && Keys(callerHeaders)[j] == "Content-Type";
      PropertyFound(callerHeaders, j);
    }
  }

  lemma {:induction false} PropertyFound(obj: Params, j: nat)
    requires j < |obj|
    ensures Property(obj, obj[j].0).Some?
  {
    if j > 0 && obj[0].0 != obj[j].0 {
      PropertyFound(obj[1..], j - 1);
    }
  }

  /** The resolve query carries `card_id`, `device_hash`, `face_id` in that order,
      each exactly when its argument is a non-empty string. */
  lemma ResolveParamsMeaning(cardId: Option<string>, deviceHash: Option<string>, faceId: Option<string>)
    ensures IsSubsequence(Keys(ResolveParams(cardId, deviceHash, faceId)), ["card_id", "device_hash", "face_id"])
    ensures "card_id" in Keys(ResolveParams(cardId, deviceHash, faceId)) <==> Truthy(cardId)
    ensures "device_hash" in Keys(ResolveParams(cardId, deviceHash, faceId)) <==> Truthy(deviceHash)
    ensures "face_id" in Keys(ResolveParams(cardId, deviceHash, faceId)) <==> Truthy(faceId)
    ensures ResolveParams(cardId, deviceHash, faceId) == [] <==> !Truthy(cardId) && !Truthy(deviceHash) && !Truthy(faceId)
  {
    var ks := Keys(ResolveParams(cardId, deviceHash, faceId));
    assert ks == Present(Truthy(cardId), "card_id") + Present(Truthy(deviceHash), "device_hash")
      + Present(Truthy(faceId), "face_id");
    ThreeInOrder(Truthy(cardId), Truthy(deviceHash), Truthy(faceId));
  }

  function Present(b: bool, key: string): seq<string>
  {
    if b then [key] else []
  }

  lemma ThreeInOrder(a: bool, b: bool, c: bool)
    ensures IsSubsequence(Present(a, "card_id") + Present(b, "device_hash") + Present(c, "face_id"),
      ["card_id", "device_hash", "face_id"])
  {
    var all := ["card_id", "device_hash", "face_id"];
    assert all[1..] == ["device_hash", "face_id"] && all[2..] == ["face_id"];
    if a {
      if b {
        if c { assert IsSubsequence(["face_id"], ["face_id"]); }
      } else {
        if c { assert IsSubsequence(["face_id"], ["face_id"]); }
      }
    } else {
      if b {
        if c { assert IsSubsequence(["face_id"], ["face_id"]); }
      } else {
        if c {
          assert IsSubsequence(["face_id"], ["face_id"]);
          assert IsSubsequence(["face_id"], ["device_hash", "face_id"]);
        }
      }
    }
  }

  /** A limit of 0 is falsy, so asking for 0 alerts sends no limit at all. */
  lemma AlertsZeroLimitDropped(status: Option<string>)
    ensures AlertsGetAll(status, Some(0)) == AlertsGetAll(status, None)
    ensures AlertsGetAll(status, Some(0)).query.params == Optional("status", status)
  {
  }

  /** The dashboard endpoints end in a `?` only when a date or time is given. */
  lemma DashboardQueryOnlyWhenGiven(targetDate: Option<string>, targetTime: Option<string>)
    ensures DashboardStats(targetDate, targetTime).query.NoQuery? <==> !Truthy(targetDate) && !Truthy(targetTime)
    ensures WeeklyActivity(targetDate, targetTime).query.NoQuery? <==> !Truthy(targetDate) && !Truthy(targetTime)
    ensures SourceDistribution(targetDate, targetTime).query.NoQuery? <==> !Truthy(targetDate) && !Truthy(targetTime)
  {
  }

  /** The swipe, Wi-Fi and CCTV queries always start with the limit, 50 by default. */
  lemma LimitFirst(limit: Option<int>, id: Option<string>)
    ensures SwipesGetRecent(limit, id).query.params[0] == ("limit", IntToString(IntOr(limit, 50)))
    ensures WifiGetRecent(limit, id).query.params[0] == ("limit", IntToString(IntOr(limit, 50)))
    ensures CctvGetFrames(id, limit).query.params[0] == ("limit", IntToString(IntOr(limit, 50)))
    ensures |SwipesGetRecent(limit, id).query.params| == if Truthy(id) then 2 else 1
  {
  }

  /** The search term lands in a single path segment: its encoding contains no
      `/`, `?`, `#` or `&`, and plain words pass through unchanged. A profile id
      is pasted raw, so an id with a `/` adds path segments. */
  lemma SearchTermIsOneSegment(query: string, field: Option<string>)
    ensures exists seg :: (ProfileSearch(query, field).path == "/api/profiles/search/" + seg
      && '/' !in seg && '?' !in seg && '#' !in seg && '&' !in seg)
    ensures (forall i :: 0 <= i < |query| ==> Unreserved(query[i])) ==>
      ProfileSearch(query, field).path == "/api/profiles/search/" + query
    ensures ProfileGetById("a/b").path == "/api/profiles/a/b"
  {
    var seg := EncodeUriComponent(query);
    assert ProfileSearch(query, field).path == "/api/profiles/search/" + seg;
  }

  /** `encodeURIComponent` on a space. */
  lemma EncodeSpace()
    ensures EncodeUriComponent("a b") == "a%20b"
  {
    assert HexDigit(2) == '2' && HexDigit(0) == '0';
    assert PercentBytes([32]) == PercentByte(32) + PercentBytes([]);
    assert EncodeChar(' ') == "%20";
    assert EncodeUriComponent("a b") == EncodeChar('a') + EncodeUriComponent(" b");
    assert EncodeUriComponent(" b") == EncodeChar(' ') + EncodeUriComponent("b");
  }

  /** `encodeURIComponent` on a non-ASCII letter. */
  lemma EncodeAccent()
    ensures EncodeUriComponent("\U{E9}") == "%C3%A9"
  {
    assert Utf8(0xE9) == [0xC3, 0xA9];
    assert HexDigit(12) == 'C' && HexDigit(3) == '3' && HexDigit(10) == 'A' && HexDigit(9) == '9';
    assert PercentBytes([0xC3, 0xA9]) == PercentByte(0xC3) + PercentBytes([0xA9]);
    assert PercentBytes([0xA9]) == PercentByte(0xA9) + PercentBytes([]);
    assert EncodeChar('\U{E9}') == "%C3%A9";
  }

  /** How `fetchAPI` settles: an ok response returns its parsed body unchanged,
      every other case throws, and a non-ok response never throws the ok-path
      errors. */
  lemma FetchOutcomeCases(response: Option<Response>)
    ensures response.None? ==> FetchOutcome(response) == Thrown(TransportFailure)
    ensures response.Some? && response.value.Ok() && response.value.body.Parsed? ==>
      FetchOutcome(response) == Returned(response.value.body.json)
    ensures response.Some? && response.value.Ok() && response.value.body.Malformed? ==>
      FetchOutcome(response) == Thrown(InvalidJson)
    ensures response.Some? && !response.value.Ok() ==>
      FetchOutcome(response).Thrown? && !FetchOutcome(response).error.InvalidJson? && !FetchOutcome(response).error.TransportFailure?
  {
  }

  /** The error message of a failed response: the server's `detail` when it is a
      non-empty string, "Unknown error" when the body is not JSON, and
      `HTTP <status>: <statusText>` when the body has no truthy `detail`. */
  lemma ErrorMessages(status: int, statusText: string, fields: seq<(string, Json)>)
    requires !(200 <= status <= 299)
    ensures forall d :: Field(fields, "detail") == Some(JStr(d)) && d != "" ==>
      FetchOutcome(Some(Response(status, statusText, Parsed(JObj(fields))))) == Thrown(ErrorMessage(d))
    ensures FetchOutcome(Some(Response(status, statusText, Malformed))) == Thrown(ErrorMessage("Unknown error"))
    ensures !JsonTruthy(Field(fields, "detail")) ==>
      FetchOutcome(Some(Response(status, statusText, Parsed(JObj(fields)))))
        == Thrown(ErrorMessage("HTTP " + IntToString(status) + ": " + statusText))
    ensures FetchOutcome(Some(Response(status, statusText, Parsed(JNull)))) == Thrown(BodyAccessOnNull)
  {
    assert Field(UnknownErrorBody.fields, "detail") == Some(JStr("Unknown error"));
  }
}

/** What both API clients do around a `fetch`: the request options they build,
    the percent-encoding of path segments, and the classification of the
    response text into returned data or a thrown error. Parsing JSON is an input
    (what `JSON.parse` produced, or nothing when it threw). */
module Http {
  import opened Wrappers
  import Text

  /** A parsed JSON value. Object members keep their textual order, duplicates included. */
  datatype Json =
    | JNull
    | JBool(b: bool)
    | JNumber(n: int)
    | JString(s: string)
    | JArray(items: seq<Json>)
    | JObject(members: seq<(string, Json)>)

  /** JavaScript truthiness of a JSON value. */
  predicate Truthy(v: Json) {
    match v
    case JNull => false
    case JBool(b) => b
    case JNumber(n) => n != 0
    case JString(s) => s != ""
    case _ => true
  }

  // ---------------------------------------------------------------------------
  // Objects as association lists

  function Keys<T>(m: seq<(string, T)>): (ks: seq<string>)
    ensures |ks| == |m| && forall i :: 0 <= i < |m| ==> ks[i] == m[i].0
  {
    seq(|m|, i requires 0 <= i < |m| => m[i].0)
  }

  /** The value of the last member named `key`: the one a JavaScript object built
      from these members in order keeps. */
  function Get<T>(m: seq<(string, T)>, key: string): (r: Option<T>)
    ensures r.None? <==> key !in Keys(m)
    ensures r.Some? ==> (key, r.value) in m
  {
    if m == [] then None
    else if m[|m| - 1].0 == key then Some(m[|m| - 1].1)
    else
      var r := Get(m[..|m| - 1], key);
      assert Keys(m) == Keys(m[..|m| - 1]) + [m[|m| - 1].0];
      r
  }

  /** The position of the last member named `key`. */
  function LastIndex<T>(m: seq<(string, T)>, key: string): (i: nat)
    requires key in Keys(m)
    ensures i < |m| && m[i].0 == key
    decreases |m|
  {
    var n := |m| - 1;
    if m[n].0 == key then n
    else
      assert Keys(m) == Keys(m[..n]) + [m[n].0];
      LastIndex(m[..n], key)
  }

  /** The value found is that of the last member named `key`: no later member has
      the key, as in an object literal or `JSON.parse`. */
  lemma {:induction false} GetIsLast<T>(m: seq<(string, T)>, key: string)
    requires key in Keys(m)
    ensures Get(m, key) == Some(m[LastIndex(m, key)].1)
    ensures forall j :: LastIndex(m, key) < j < |m| ==> m[j].0 != key
    decreases |m|
  {
    var n := |m| - 1;
    if m[n].0 != key {
      assert Keys(m) == Keys(m[..n]) + [m[n].0];
      GetIsLast(m[..n], key);
      assert forall j :: 0 <= j < n ==> m[..n][j] == m[j];
    }
  }

  /** Every member named `key` given the value `v`, in place. */
  function Replace<T>(m: seq<(string, T)>, key: string, v: T): (r: seq<(string, T)>)
    ensures Keys(r) == Keys(m)
  {
    seq(|m|, i requires 0 <= i < |m| => if m[i].0 == key then (key, v) else m[i])
  }

  lemma {:induction false} GetReplaceSame<T>(m: seq<(string, T)>, key: string, v: T)
    requires key in Keys(m)
    ensures Get(Replace(m, key, v), key) == Some(v)
    decreases |m|
  {
    var n := |m| - 1;
    assert Replace(m, key, v)[..n] == Replace(m[..n], key, v);
    if m[n].0 != key {
      assert Keys(m) == Keys(m[..n]) + [m[n].0];
      GetReplaceSame(m[..n], key, v);
    }
  }

  lemma {:induction false} GetReplaceOther<T>(m: seq<(string, T)>, key: string, v: T, other: string)
    requires other != key
    ensures Get(Replace(m, key, v), other) == Get(m, other)
    decreases |m|
  {
    if m != [] {
      var n := |m| - 1;
      assert Replace(m, key, v)[..n] == Replace(m[..n], key, v);
      GetReplaceOther(m[..n], key, v, other);
    }
  }

  /** `obj[key] = v`: an existing key keeps its position, a new one goes last. */
  function Assign<T>(obj: seq<(string, T)>, key: string, v: T): (r: seq<(string, T)>)
    ensures Get(r, key) == Some(v)
    ensures forall other :: other != key ==> Get(r, other) == Get(obj, other)
    ensures key in Keys(obj) ==> Keys(r) == Keys(obj)
    ensures key !in Keys(obj) ==> Keys(r) == Keys(obj) + [key]
  {
    if key in Keys(obj) then
      var r := Replace(obj, key, v);
      assert forall other :: Get(r, other) == if other == key then Some(v) else Get(obj, other) by {
        forall other ensures Get(r, other) == if other == key then Some(v) else Get(obj, other) {
          if other == key {
            GetReplaceSame(obj, key, v);
          } else {
            GetReplaceOther(obj, key, v, other);
          }
        }
      }
      r
    else
      var r := obj + [(key, v)];
      assert r[..|r| - 1] == obj;
      assert Keys(r) == Keys(obj) + [key];
      r
  }

  /** `{...a, ...b}`: the members of `b` assigned over those of `a`, in order. */
  function Spread<T>(a: seq<(string, T)>, b: seq<(string, T)>): (r: seq<(string, T)>)
    ensures forall k :: Get(r, k) == if Get(b, k).Some? then Get(b, k) else Get(a, k)
  {
    if b == [] then a
    else
      var n := |b| - 1;
      var r := Assign(Spread(a, b[..n]), b[n].0, b[n].1);
      assert forall k :: k != b[n].0 ==> Get(b, k) == Get(b[..n], k);
      r
  }

  // ---------------------------------------------------------------------------
  // Request options

  type Headers = seq<(string, string)>

  const DefaultHeaders: Headers := [("Content-Type", "application/json")]

  /** The options a caller passes; `None` is a key the options object does not have. */
  datatype RequestOptions = RequestOptions(
    httpMethod: Option<string>,
    body: Option<string>,
    headers: Option<Headers>,
    credentials: Option<string>)

  const NoOptions := RequestOptions(None, None, None, None)

  /** The second argument of `fetch`. */
  datatype Init = Init(headers: Headers, credentials: string, httpMethod: Option<string>, body: Option<string>)

  /** The init object as written: the merged headers and `credentials: "include"`,
      then every key of the options spread over them, `headers` included. So the
      caller's headers, when given, replace the merged set outright. */
  function FetchInit(options: RequestOptions): (r: Init)
    ensures options.headers.None? ==> r.headers == DefaultHeaders
    ensures options.headers.Some? ==> r.headers == options.headers.value
    ensures r.credentials == options.credentials.GetOr("include")
    ensures r.httpMethod == options.httpMethod && r.body == options.body
  {
    var merged := Spread(DefaultHeaders, options.headers.GetOr([]));
    Init(
      if options.headers.Some? then options.headers.value else merged,
      options.credentials.GetOr("include"),
      options.httpMethod,
      options.body)
  }

  /** With its own `headers`, a call loses the JSON content type. */
  lemma CallerHeadersDropContentType()
    ensures var init := FetchInit(RequestOptions(Some("POST"), Some("{}"), Some([("Authorization", "Bearer t")]), None));
            Get(init.headers, "Content-Type").None?
  {
    var init := FetchInit(RequestOptions(Some("POST"), Some("{}"), Some([("Authorization", "Bearer t")]), None));
    assert Keys(init.headers) == ["Authorization"];
  }

  /** The init object as the header merge intends: the caller's headers over the
      defaults, whatever other options are given. */
  function MergedFetchInit(options: RequestOptions): (r: Init)
    ensures forall k :: Get(r.headers, k) ==
              if options.headers.Some? && Get(options.headers.value, k).Some? then Get(options.headers.value, k)
              else Get(DefaultHeaders, k)
    ensures r.credentials == options.credentials.GetOr("include")
    ensures r.httpMethod == options.httpMethod && r.body == options.body
  {
    Init(
      Spread(DefaultHeaders, options.headers.GetOr([])),
      options.credentials.GetOr("include"),
      options.httpMethod,
      options.body)
  }

  /** The merged init keeps the content type unless the caller sets one. */
  lemma MergedKeepsContentType(options: RequestOptions)
    requires options.headers.None? || Get(options.headers.value, "Content-Type").None?
    ensures Get(MergedFetchInit(options).headers, "Content-Type") == Some("application/json")
  {
    assert Get(DefaultHeaders, "Content-Type") == Some("application/json");
  }

  /** For every call that passes no headers, which is every call both clients make,
      the two inits are the same. */
  lemma InitsAgreeWithoutHeaders(options: RequestOptions)
    requires options.headers.None?
    ensures FetchInit(options) == MergedFetchInit(options)
  {
    assert Spread(DefaultHeaders, []) == DefaultHeaders;
  }

  // ---------------------------------------------------------------------------
  // encodeURIComponent

  /** The characters `encodeURIComponent` leaves as they are. */
  predicate Unreserved(c: char) {
    ('A' <= c <= 'Z') || ('a' <= c <= 'z') || ('0' <= c <= '9')
    || c == '-' || c == '_' || c == '.' || c == '!' || c == '~' || c == '*' || c == '\'' || c == '(' || c == ')'
  }

  predicate IsUpperHex(c: char) {
    ('0' <= c <= '9') || ('A' <= c <= 'F')
  }

  function HexDigit(d: nat): (c: char)
    requires d < 16
    ensures IsUpperHex(c)
  {
    if d < 10 then ('0' as int + d) as char else ('A' as int + d - 10) as char
  }

  /** The value of an upper-case hexadecimal digit: the inverse of `HexDigit`. */
  function HexValue(c: char): (d: nat)
    requires IsUpperHex(c)
    ensures d < 16 && HexDigit(d) == c
  {
    if '0' <= c <= '9' then c as int - '0' as int else c as int - 'A' as int + 10
  }

  /** One byte as `%XY`, in upper-case hexadecimal. */
  function PercentByte(b: nat): (r: string)
    requires b < 256
    ensures |r| == 3 && r[0] == '%' && IsUpperHex(r[1]) && IsUpperHex(r[2])
  {
    ['%', HexDigit(b / 16), HexDigit(b % 16)]
  }

  /** The UTF-8 bytes of a code point: six bits per continuation byte, the rest in
      the lead byte. */
  function Utf8(cp: nat): (bs: seq<nat>)
    requires cp < 0x11_0000
    ensures 1 <= |bs| <= 4
    ensures forall i :: 0 <= i < |bs| ==> bs[i] < 256
    ensures |bs| == 1 <==> cp < 0x80
    ensures |bs| == 1 ==> bs[0] == cp
  {
    var q1 := cp / 0x40;
    var q2 := q1 / 0x40;
    var q3 := q2 / 0x40;
    if cp < 0x80 then [cp]
    else if cp < 0x800 then [0xC0 + q1, 0x80 + cp % 0x40]
    else if cp < 0x1_0000 then [0xE0 + q2, 0x80 + q1 % 0x40, 0x80 + cp % 0x40]
    else [0xF0 + q3, 0x80 + q2 % 0x40, 0x80 + q1 % 0x40, 0x80 + cp % 0x40]
  }

  /** How many bytes a UTF-8 sequence with this lead byte has. */
  function Utf8Length(lead: nat): (n: nat)
    ensures 1 <= n <= 4
    ensures n == 1 <==> lead < 0x80
  {
    if lead < 0x80 then 1 else if lead < 0xE0 then 2 else if lead < 0xF0 then 3 else 4
  }

  /** The code point a UTF-8 sequence stands for. */
  function Utf8Value(bs: seq<nat>): int
    requires 1 <= |bs| <= 4
  {
    var b: seq<int> := bs;
    if |b| == 1 then b[0]
    else if |b| == 2 then (b[0] - 0xC0) * 0x40 + (b[1] - 0x80)
    else if |b| == 3 then (b[0] - 0xE0) * 0x1000 + (b[1] - 0x80) * 0x40 + (b[2] - 0x80)
    else (b[0] - 0xF0) * 0x4_0000 + (b[1] - 0x80) * 0x1000 + (b[2] - 0x80) * 0x40 + (b[3] - 0x80)
  }

  /** Decoding undoes `Utf8`, and the lead byte tells how many bytes to read. */
  lemma Utf8RoundTrip(cp: nat)
    requires cp < 0x11_0000
    ensures Utf8Length(Utf8(cp)[0]) == |Utf8(cp)|
    ensures Utf8Value(Utf8(cp)) == cp
  {
    var q1 := cp / 0x40;
    var q2 := q1 / 0x40;
    var q3 := q2 / 0x40;
    assert cp == q1 * 0x40 + cp % 0x40;
    assert q1 == q2 * 0x40 + q1 % 0x40;
    assert q2 == q3 * 0x40 + q2 % 0x40;
  }

  /** The characters an encoded string is made of. */
  predicate EncodedChar(c: char) {
    Unreserved(c) || c == '%' || IsUpperHex(c)
  }

  function PercentBytes(bs: seq<nat>): (r: string)
    requires forall i :: 0 <= i < |bs| ==> bs[i] < 256
    ensures |r| == 3 * |bs|
    ensures forall i :: 0 <= i < |r| ==> EncodedChar(r[i])
  {
    if bs == [] then [] else PercentByte(bs[0]) + PercentBytes(bs[1..])
  }

  function EncodeChar(c: char): (r: string)
    ensures Unreserved(c) ==> r == [c]
    ensures !Unreserved(c) ==> |r| >= 3 && r[0] == '%'
    ensures !Unreserved(c) ==> r == PercentBytes(Utf8(c as int))
    ensures forall i :: 0 <= i < |r| ==> EncodedChar(r[i])
  {
    if Unreserved(c) then [c] else PercentBytes(Utf8(c as int))
  }

  /** `encodeURIComponent`: the result is made of unreserved characters and percent
      escapes only, so it never contains a '/', and it leaves a string of
      unreserved characters as it is. */
  function EncodeURIComponent(s: string): (r: string)
    ensures |r| >= |s|
    ensures forall i :: 0 <= i < |r| ==> EncodedChar(r[i])
    ensures '/' !in r && '?' !in r && '#' !in r
    ensures (forall i :: 0 <= i < |s| ==> Unreserved(s[i])) ==> r == s
  {
    if s == [] then []
    else
      var r := EncodeChar(s[0]) + EncodeURIComponent(s[1..]);
      assert forall i :: 0 <= i < |r| ==> EncodedChar(r[i]);
      r
  }

  // ----- decoding, the inverse of encodeURIComponent

  /** The byte a leading `%XY` stands for. */
  function ByteAt(r: string): (b: nat)
    requires |r| >= 3 && IsUpperHex(r[1]) && IsUpperHex(r[2])
    ensures b < 256
  {
    HexValue(r[1]) * 16 + HexValue(r[2])
  }

  lemma PercentByteRoundTrip(b: nat)
    requires b < 256
    ensures ByteAt(PercentByte(b)) == b
  {
    assert HexValue(HexDigit(b / 16)) == b / 16;
    assert HexValue(HexDigit(b % 16)) == b % 16;
  }

  /** The bytes of `n` leading `%XY` triples, if there are that many. */
  function ReadBytes(r: string, n: nat): (bs: Option<seq<nat>>)
    ensures bs.Some? ==> |bs.value| == n && |r| >= 3 * n
    decreases n
  {
    if n == 0 then Some([])
    else if |r| >= 3 && r[0] == '%' && IsUpperHex(r[1]) && IsUpperHex(r[2]) then
      match ReadBytes(r[3..], n - 1)
      case None => None
      case Some(rest) => Some([ByteAt(r)] + rest)
    else None
  }

  lemma {:induction false} ReadPercentBytes(bs: seq<nat>, rest: string)
    requires forall i :: 0 <= i < |bs| ==> bs[i] < 256
    ensures ReadBytes(PercentBytes(bs) + rest, |bs|) == Some(bs)
    decreases |bs|
  {
    if bs != [] {
      var r := PercentBytes(bs) + rest;
      var head := PercentByte(bs[0]);
      assert PercentBytes(bs) == head + PercentBytes(bs[1..]);
      assert r[0] == head[0] && r[1] == head[1] && r[2] == head[2];
      assert r[3..] == PercentBytes(bs[1..]) + rest;
      PercentByteRoundTrip(bs[0]);
      ReadPercentBytes(bs[1..], rest);
      assert [bs[0]] + bs[1..] == bs;
    }
  }

  predicate IsScalar(cp: int) {
    0 <= cp < 0xD800 || 0xE000 <= cp < 0x11_0000
  }

  /** Percent-decoding of what `EncodeURIComponent` produces: a character other than
      '%' stands for itself, and a run of `%XY` triples for the code point whose
      UTF-8 bytes they are. Anything else is malformed. */
  function Decode(r: string): (s: Option<string>)
    decreases |r|
  {
    if r == [] then Some([])
    else if r[0] != '%' then
      match Decode(r[1..])
      case None => None
      case Some(t) => Some([r[0]] + t)
    else if |r| < 3 || !IsUpperHex(r[1]) || !IsUpperHex(r[2]) then None
    else
      var n := Utf8Length(ByteAt(r));
      match ReadBytes(r, n)
      case None => None
      case Some(bs) =>
        var cp := Utf8Value(bs);
        if !IsScalar(cp) then None
        else
          match Decode(r[3 * n..])
          case None => None
          case Some(t) => Some([cp as char] + t)
  }

  /** Decoding gives back the string that was encoded. */
  lemma {:induction false} DecodeEncode(s: string)
    ensures Decode(EncodeURIComponent(s)) == Some(s)
    decreases |s|
  {
    if s != [] {
      var e := EncodeChar(s[0]);
      var t := EncodeURIComponent(s[1..]);
      var r := e + t;
      assert EncodeURIComponent(s) == r;
      DecodeEncode(s[1..]);
      if Unreserved(s[0]) {
        assert r[0] == s[0] && r[1..] == t;
      } else {
        var cp := s[0] as int;
        var bs := Utf8(cp);
        Utf8RoundTrip(cp);
        ReadPercentBytes(bs, t);
        var head := PercentByte(bs[0]);
        assert PercentBytes(bs) == head + PercentBytes(bs[1..]);
        assert r[0] == '%' && r[1] == head[1] && r[2] == head[2];
        PercentByteRoundTrip(bs[0]);
        assert ByteAt(r) == bs[0];
        assert r[3 * |bs|..] == t;
        assert (cp as char) == s[0];
      }
      assert [s[0]] + s[1..] == s;
    }
  }

  /** So two different strings never encode alike. */
  lemma EncodeInjective(s: string, t: string)
    requires EncodeURIComponent(s) == EncodeURIComponent(t)
    ensures s == t
  {
    DecodeEncode(s);
    DecodeEncode(t);
  }

  /** A space becomes '%20', not '+'. */
  lemma EncodeSpace()
    ensures EncodeURIComponent("A B") == "A%20B"
  {
    assert Utf8(32) == [32];
    assert PercentByte(32) == "%20";
    assert PercentBytes([32]) == "%20" + PercentBytes([]);
    assert EncodeChar(' ') == "%20";
    assert EncodeURIComponent("B") == "B";
    assert " B"[1..] == "B";
    assert EncodeURIComponent(" B") == "%20" + "B";
    assert "A B"[1..] == " B";
  }

  // ---------------------------------------------------------------------------
  // Response classification

  /** What `fetch` resolved to: the `ok` flag, the status and the body text. */
  datatype HttpResponse = HttpResponse(ok: bool, status: int, text: string)

  /** What `request` does with a response: resolve with data, throw an `Error`
      carrying a message and the status, or throw the `TypeError` of reading
      `error` from a parsed `null`. The message is the value handed to the `Error`
      constructor. */
  datatype Outcome = Returned(data: Json) | Thrown(message: Json, status: int) | NullRead

  const RequestFailed := "Request failed"

  /** The `error` property of parsed data: a member of an object, and undefined on
      any other non-null value. */
  function ErrorField(data: Json): (r: Option<Json>)
    requires !data.JNull?
    ensures r.Some? ==> data.JObject? && ("error", r.value) in data.members
  {
    if data.JObject? then Get(data.members, "error") else None
  }

  /** The first `n` characters, or all of them (`slice(0, n)`). */
  function Prefix(s: string, n: nat): (r: string)
    ensures |r| <= n && Text.IsPrefix(r, s)
    ensures |s| <= n ==> r == s
    ensures n <= |s| ==> |r| == n
  {
    if |s| <= n then s else s[..n]
  }

  /** The classification after a successful parse (or an empty body, parsed as `{}`). */
  function Settle(ok: bool, status: int, data: Json): (r: Outcome) {
    if !ok then
      if data.JNull? then NullRead
      else
        var e := ErrorField(data);
        Thrown(if e.Some? && Truthy(e.value) then e.value else JString(RequestFailed), status)
    else Returned(data)
  }

  /** `request` after the fetch. An empty body counts as `{}`; a body that does not
      parse becomes `{raw: text}` on success and an error with the first 200
      characters of the text otherwise; parsed data is returned on success and
      otherwise its truthy `error`, or 'Request failed', is thrown with the status. */
  function Classify(res: HttpResponse, parsed: Option<Json>): (r: Outcome)
    ensures r.Returned? <==> res.ok
    ensures r.NullRead? <==> !res.ok && res.text != "" && parsed == Some(JNull)
    ensures r.Thrown? ==> r.status == res.status && Truthy(r.message)
    ensures res.ok && res.text == "" ==> r == Returned(JObject([]))
    ensures res.ok && res.text != "" && parsed.None? ==> r == Returned(JObject([("raw", JString(res.text))]))
    ensures res.ok && res.text != "" && parsed.Some? ==> r == Returned(parsed.value)
    ensures !res.ok && res.text != "" && parsed.None? ==>
              r == Thrown(JString(Prefix(res.text, 200)), res.status)
    ensures !res.ok && res.text == "" ==> r == Thrown(JString(RequestFailed), res.status)
    ensures !res.ok && res.text != "" && parsed.Some? && !parsed.value.JObject? && !parsed.value.JNull? ==>
              r == Thrown(JString(RequestFailed), res.status)
    ensures !res.ok && res.text != "" && parsed.Some? && parsed.value.JObject? ==>
              var e := Get(parsed.value.members, "error");
              r == Thrown(if e.Some? && Truthy(e.value) then e.value else JString(RequestFailed), res.status)
  {
    if res.text == "" then Settle(res.ok, res.status, JObject([]))
    else if parsed.None? then
      if !res.ok then
        var head := Prefix(res.text, 200);
        Thrown(JString(if head != "" then head else RequestFailed), res.status)
      else Returned(JObject([("raw", JString(res.text))]))
    else Settle(res.ok, res.status, parsed.value)
  }

  /** An error response whose JSON has no usable `error` is reported as
      'Request failed', whatever else it holds. */
  lemma ErrorWithoutMessage(status: int, text: string, members: seq<(string, Json)>)
    requires text != ""
    requires "error" !in Keys(members)
    ensures Classify(HttpResponse(false, status, text), Some(JObject(members))) == Thrown(JString(RequestFailed), status)
  {
  }

  /** On success nothing is thrown and parsed data comes back as it was parsed, so a
      body `{"raw": t}` and a non-JSON body `t` resolve to the same value. */
  lemma RawIsIndistinguishable(status: int, t: string, body: string)
    requires t != "" && body != ""
    ensures Classify(HttpResponse(true, status, t), None)
            == Classify(HttpResponse(true, status, body), Some(JObject([("raw", JString(t))])))
  {
  }

  // ---------------------------------------------------------------------------
  // A whole request

  /** The arguments a wrapper passes to `request`. */
  datatype RequestArgs = RequestArgs(path: string, options: RequestOptions)

  /** The `fetch` a request makes. */
  datatype Call = Call(url: string, init: Init)

  /** A request: the call it makes and, given what that call answered, its outcome. */
  datatype Exchange = Exchange(call: Call, outcome: Outcome)
}

/**
 * The vendor client of the Python backend (class `NanoAITTS` of
 * backend/app/services/tts_service.py): the rolling hash `_e`, the browser
 * fingerprint, the message id, the timestamp, the signed header set, the
 * catalogue loader and the request that `get_audio` builds.
 *
 * Python integers are unbounded; the hash is modelled on 64-bit vectors and
 * the lemmas below show that no intermediate value reaches 2^36, so no bit is
 * lost. Randomness, the clock, `hashlib.md5` and `urllib.parse.quote` are
 * inputs.
 */
module PyTtsService {
  import opened Wrappers
  import opened Strings
  import opened Bits
  import opened OrderedMaps
  import opened Json
  import opened Clock

  const UserAgent: string := "Mozilla/5.0 (Windows NT 10.0; Win64; x64) AppleWebKit/537.36 (KHTML, like Gecko) Chrome/117.0.0.0 Safari/537.36"
  const Domain: string := "https://bot.n.cn"

  // ---------------------------------------------------------------------
  // `_e`: a rolling hash over the code points, last character first.
  // The masks are HASH_MASK_1 = 268435455 (0x0FFFFFFF) and
  // HASH_MASK_2 = 266338304 (0x0FE00000).
  // ---------------------------------------------------------------------

  /** `ord(c)`; every code point is below 2^21. */
  function CodePoint(c: char): (v: bv64)
    ensures v < 0x20_0000
  {
    (c as bv21) as bv64
  }

  function CodePoints(s: string): (r: seq<bv64>)
    ensures |r| == |s|
    ensures forall i :: 0 <= i < |s| ==> r[i] == CodePoint(s[i])
  {
    seq(|s|, i requires 0 <= i < |s| => CodePoint(s[i]))
  }

  /** The sum that starts each step: `((at << 6) & HASH_MASK_1) + st + (st << 14)`. */
  function Mixed(at: bv64, st: bv64): bv64 {
    ((at << 6) & 268435455) + st + (st << 14)
  }

  /** The rest of the step: `at ^ (it >> 21)` when `it = at & HASH_MASK_2` is not zero. */
  function Fold(a: bv64): bv64 {
    var it := a & 266338304;
    if it != 0 then a ^ (it >> 21) else a
  }

  /** One iteration of the loop body. */
  function Step(at: bv64, st: bv64): bv64 {
    Fold(Mixed(at, st))
  }

  /** The hash of a code-point sequence: the loop runs from the last element to the first. */
  function HashOf(codes: seq<bv64>): bv64
    decreases |codes|
  {
    if codes == [] then 0 else Step(HashOf(codes[1..]), codes[0])
  }

  /** `_e(nt)`. */
  method E(nt: string) returns (at: bv64)
    ensures at == HashOf(CodePoints(nt))
    ensures nt == "" ==> at == 0
    ensures at < 0x10_0000_0000
  {
    ghost var codes := CodePoints(nt);
    at := 0;
    var i := |nt|;
    while i > 0
      invariant 0 <= i <= |nt|
      invariant at == HashOf(codes[i..])
      invariant at < 0x10_0000_0000
    {
      i := i - 1;
      var st := CodePoint(nt[i]);
      assert codes[i..][1..] == codes[i + 1..];
      StepBound(at, st);
      at := Step(at, st);
    }
    assert codes[0..] == codes;
  }

  /** `(at << 6) & HASH_MASK_1` keeps 28 bits. */
  lemma MaskedShiftBound(at: bv64)
    ensures (at << 6) & 268435455 < 0x1000_0000
  {
  }

  /** `(a & HASH_MASK_2) >> 21` keeps 7 bits. */
  lemma MixBound(a: bv64)
    ensures (a & 266338304) >> 21 < 128
  {
  }

  lemma SumBound(m: bv64, st: bv64)
    requires m < 0x1000_0000 && st < 0x20_0000
    ensures m + st + (st << 14) < 0x10_0000_0000
  {
  }

  lemma SumBoundBmp(m: bv64, st: bv64)
    requires m < 0x1000_0000 && st <= 0xFFFF
    ensures m + st + (st << 14) < 0x8000_0000
  {
  }

  lemma XorBelow(a: bv64, v: bv64, bound: bv64)
    requires a < bound && v < 128 && (bound == 0x10_0000_0000 || bound == 0x8000_0000)
    ensures a ^ v < bound
  {
  }

  lemma MixedDef(at: bv64, st: bv64)
    ensures Mixed(at, st) == ((at << 6) & 268435455) + st + (st << 14)
  {
  }

  /** When `it` is zero, xoring with `it >> 21` changes nothing, so the conditional is an unconditional xor. */
  lemma FoldXor(a: bv64)
    ensures Fold(a) == a ^ ((a & 266338304) >> 21)
  {
  }

  /** For code points (below 2^21) a step keeps the accumulator below 2^36. */
  lemma StepBound(at: bv64, st: bv64)
    requires st < 0x20_0000
    ensures Step(at, st) < 0x10_0000_0000
  {
    MixedDef(at, st);
    MaskedShiftBound(at);
    SumBound((at << 6) & 268435455, st);
    FoldXor(Mixed(at, st));
    MixBound(Mixed(at, st));
    XorBelow(Mixed(at, st), (Mixed(at, st) & 266338304) >> 21, 0x10_0000_0000);
  }

  /** For code points of the Basic Multilingual Plane (at most 0xFFFF) a step stays below 2^31. */
  lemma StepBoundBmp(at: bv64, st: bv64)
    requires st <= 0xFFFF
    ensures Step(at, st) < 0x8000_0000
  {
    MixedDef(at, st);
    MaskedShiftBound(at);
    SumBoundBmp((at << 6) & 268435455, st);
    FoldXor(Mixed(at, st));
    MixBound(Mixed(at, st));
    XorBelow(Mixed(at, st), (Mixed(at, st) & 266338304) >> 21, 0x8000_0000);
  }

  lemma {:induction false} HashBound(codes: seq<bv64>)
    requires forall i :: 0 <= i < |codes| ==> codes[i] < 0x20_0000
    ensures HashOf(codes) < 0x10_0000_0000
  {
    if codes != [] {
      StepBound(HashOf(codes[1..]), codes[0]);
    }
  }

  lemma {:induction false} HashBoundBmp(codes: seq<bv64>)
    requires forall i :: 0 <= i < |codes| ==> codes[i] <= 0xFFFF
    ensures HashOf(codes) < 0x8000_0000
  {
    if codes != [] {
      StepBoundBmp(HashOf(codes[1..]), codes[0]);
    }
  }

  // ---------------------------------------------------------------------
  // `generate_unique_hash`: the fingerprint descriptor and the fingerprint.
  // ---------------------------------------------------------------------

  /**
   * The f-string of the fingerprint fields: app name, `ver` (the float 1.0,
   * which Python renders "1.0"), language, platform, user agent, width "x"
   * height, colour depth and referrer.
   */
  const FingerprintBase: string :=
    "chrome" + "1.0" + "zh-CN" + "Win32" + UserAgent + "1920" + "x" + "1080" + "24" + "https://bot.n.cn/chat"

  /** The descriptor `nt` after the loop: the base and one rendering of `1 ^ len(base)`. */
  function Descriptor(): string {
    FingerprintBase + NatToString(Xor(1, |FingerprintBase|))
  }

  /** The `while it:` loop of `generate_unique_hash`: it runs exactly once. */
  method BuildDescriptor() returns (nt: string)
    ensures nt == Descriptor()
  {
    nt := FingerprintBase;
    var at := |nt|;
    var it := 1;
    while it != 0
      invariant 0 <= it <= 1
      invariant at == |FingerprintBase| + 1 - it
      invariant nt == if it == 1 then FingerprintBase else Descriptor()
    {
      nt := nt + NatToString(Xor(it, at));
      it := it - 1;
      at := at + 1;
    }
  }

  /** The base has 162 characters, so the loop appends "163". */
  lemma DescriptorSuffix()
    ensures |FingerprintBase| == 162
    ensures Descriptor() == FingerprintBase + "163"
  {
    XorOne(162);
    assert NatToString(163) == "163" by {
      assert NatToString(16) == "16" by { assert NatToString(1) == "1"; }
    }
  }

  /** `(r ^ _e(descriptor)) * 2147483647` for the rounded random value `r`. */
  function Fingerprint(r: nat, hash: bv64): int {
    Xor(r, hash as int) * 2147483647
  }

  lemma Narrow36(x: bv64)
    requires x < 0x10_0000_0000
    ensures (x as bv36) as bv64 == x
  {
  }

  lemma Bv36Below(x: bv36)
    ensures x as int < 0x10_0000_0000
  {
  }

  /** A hash value below 2^36 is an integer below 2^36. */
  lemma Bv64Below(x: bv64)
    requires x < 0x10_0000_0000
    ensures x as int < 0x10_0000_0000
  {
    Narrow36(x);
    Bv36Below(x as bv36);
  }

  lemma MultipleFacts(x: nat)
    requires x < 0x10_0000_0000
    ensures x * 2147483647 >= 0 && (x * 2147483647) % 2147483647 == 0
    ensures x * 2147483647 < 0x10_0000_0000 * 2147483647
  {
  }

  /** `generate_unique_hash` with `r = round(random.random() * 2147483647)`. */
  method GenerateUniqueHash(r: nat) returns (fp: int)
    requires r <= 2147483647
    ensures fp == Fingerprint(r, HashOf(CodePoints(Descriptor())))
    ensures fp >= 0 && fp % 2147483647 == 0
    ensures fp < 0x10_0000_0000 * 2147483647
  {
    var nt := BuildDescriptor();
    var h := E(nt);
    Bv64Below(h);
    Pow2Value36();
    XorBound(r, h as int, 36);
    MultipleFacts(Xor(r, h as int));
    fp := Xor(r, h as int) * 2147483647;
  }

  // ---------------------------------------------------------------------
  // `generate_mid`.
  // ---------------------------------------------------------------------

  /** `rt.replace(".", "e")[:32]`. */
  function FormatMid(rt: string): (mid: string)
    ensures |mid| == if |rt| < 32 then |rt| else 32
    ensures '.' !in mid
    ensures forall i :: 0 <= i < |mid| ==> mid[i] == if rt[i] == '.' then 'e' else rt[i]
  {
    Take(ReplaceChar(rt, '.', 'e'), 32)
  }

  /**
   * The message id for the rounded random value `r` and `clockText`, the
   * `str` of the float `int(time.time() * 1000) + random.random() + random.random()`.
   */
  function Mid(r: nat, clockText: string): string
    requires r <= 2147483647
  {
    FormatMid(NatToString(HashOf(CodePoints(Domain)) as int)
      + IntToString(Fingerprint(r, HashOf(CodePoints(Descriptor()))))
      + clockText)
  }

  /** `generate_mid`. */
  method GenerateMid(r: nat, clockText: string) returns (mid: string)
    requires r <= 2147483647
    ensures mid == Mid(r, clockText)
  {
    var domainHash := E(Domain);
    var fp := GenerateUniqueHash(r);
    var rt := NatToString(domainHash as int) + IntToString(fp) + clockText;
    mid := FormatMid(rt);
  }

  /** A message id is the dot-free prefix of its raw text: nothing but the dots changes. */
  lemma FormatMidPrefix(rt: string)
    ensures FormatMid(rt) == ReplaceChar(rt, '.', 'e')[..|FormatMid(rt)|]
    ensures '.' !in rt ==> FormatMid(rt) == rt[..|FormatMid(rt)|]
  {
    if '.' !in rt {
      assert ReplaceChar(rt, '.', 'e') == rt;
    }
  }

  // ---------------------------------------------------------------------
  // `get_iso8601_time`: `strftime("%Y-%m-%dT%H:%M:%S+08:00")`.
  // ---------------------------------------------------------------------

  /** `%m`, `%d`, `%H`, `%M`, `%S`: two digits, zero padded. */
  /** `%Y` renders the year in decimal (four digits for the years 1000 to 9999). */
  function Timestamp(now: DateTime): (s: string)
    requires now.Valid()
  {
    NatToString(now.year) + "-" + TwoDigits(now.month) + "-" + TwoDigits(now.day)
      + "T" + TwoDigits(now.hour) + ":" + TwoDigits(now.minute) + ":" + TwoDigits(now.second) + "+08:00"
  }

  /** The fixed layout `YYYY-MM-DDTHH:MM:SS+08:00`, read back into its fields. */
  function ParseTimestamp(s: string): Option<DateTime> {
    if |s| == 25 && s[4] == '-' && s[7] == '-' && s[10] == 'T' && s[13] == ':' && s[16] == ':'
      && s[19..] == "+08:00"
      && AllDigits(s[0..4]) && AllDigits(s[5..7]) && AllDigits(s[8..10])
      && AllDigits(s[11..13]) && AllDigits(s[14..16]) && AllDigits(s[17..19])
    then Some(DateTime(ParseNat(s[0..4]), ParseNat(s[5..7]), ParseNat(s[8..10]),
                       ParseNat(s[11..13]), ParseNat(s[14..16]), ParseNat(s[17..19])))
    else None
  }

  /** For four-digit years the timestamp has 25 characters, ends in "+08:00" and gives back every field. */
  lemma TimestampRoundTrip(now: DateTime)
    requires now.Valid() && now.year >= 1000
    ensures |Timestamp(now)| == 25
    ensures Timestamp(now)[19..] == "+08:00"
    ensures ParseTimestamp(Timestamp(now)) == Some(now)
  {
    NatToStringLength(now.year);
    ParseNatToString(now.year);
    var date := NatToString(now.year) + "-" + TwoDigits(now.month) + "-" + TwoDigits(now.day);
    var time := "T" + TwoDigits(now.hour) + ":" + TwoDigits(now.minute) + ":" + TwoDigits(now.second) + "+08:00";
    DateSlices(NatToString(now.year), TwoDigits(now.month), TwoDigits(now.day));
    TimeSlices(TwoDigits(now.hour), TwoDigits(now.minute), TwoDigits(now.second));
    assert Timestamp(now) == date + time;
    StampSlices(date, time);
  }

  /** Where the fields of the date `YYYY-MM-DD` sit. */
  lemma DateSlices(y: string, mo: string, d: string)
    requires |y| == 4 && |mo| == 2 && |d| == 2
    ensures var date := y + "-" + mo + "-" + d;
      |date| == 10 && date[4] == '-' && date[7] == '-' && date[0..4] == y && date[5..7] == mo && date[8..10] == d
  {
  }

  /** Where the fields of the time `THH:MM:SS+08:00` sit. */
  lemma TimeSlices(h: string, mi: string, se: string)
    requires |h| == 2 && |mi| == 2 && |se| == 2
    ensures var time := "T" + h + ":" + mi + ":" + se + "+08:00";
      |time| == 15 && time[0] == 'T' && time[3] == ':' && time[6] == ':'
      && time[1..3] == h && time[4..6] == mi && time[7..9] == se && time[9..] == "+08:00"
  {
  }

  /** A date and a time side by side: each field at its place in the whole. */
  lemma StampSlices(date: string, time: string)
    requires |date| == 10 && |time| == 15
    ensures var s := date + time;
      |s| == 25 && s[4] == date[4] && s[7] == date[7] && s[10] == time[0] && s[13] == time[3] && s[16] == time[6]
      && s[0..4] == date[0..4] && s[5..7] == date[5..7] && s[8..10] == date[8..10]
      && s[11..13] == time[1..3] && s[14..16] == time[4..6] && s[17..19] == time[7..9] && s[19..] == time[9..]
  {
  }

  // ---------------------------------------------------------------------
  // `get_headers`. `md5` is `hashlib.md5(msg.encode("utf-8")).hexdigest()`.
  // ---------------------------------------------------------------------

  const HeaderNames: set<string> :=
    {"device-platform", "timestamp", "access-token", "zm-token", "zm-ver", "zm-ua", "User-Agent"}

  /** The header set for a given timestamp and access token (the message id). */
  function Headers(md5: string -> string, timestamp: string, accessToken: string): (h: map<string, string>)
    ensures h.Keys == HeaderNames
    ensures h["device-platform"] == "Web" && h["zm-ver"] == "1.2" && h["User-Agent"] == UserAgent
    ensures h["timestamp"] == timestamp && h["access-token"] == accessToken
    ensures h["zm-ua"] == md5(UserAgent)
  {
    var zmUa := md5(UserAgent);
    map["device-platform" := "Web", "timestamp" := timestamp, "access-token" := accessToken,
        "zm-token" := md5("Web" + timestamp + "1.2" + accessToken + zmUa),
        "zm-ver" := "1.2", "zm-ua" := zmUa, "User-Agent" := UserAgent]
  }

  /** What the vendor checks: the token is the digest of the other signed headers, in this order. */
  predicate Signed(md5: string -> string, h: map<string, string>) {
    HeaderNames <= h.Keys
    && h["zm-ua"] == md5(h["User-Agent"])
    && h["zm-token"] == md5(h["device-platform"] + h["timestamp"] + h["zm-ver"] + h["access-token"] + h["zm-ua"])
  }

  /** Every header set `get_headers` produces passes the vendor's check. */
  lemma HeadersSigned(md5: string -> string, timestamp: string, accessToken: string)
    ensures Signed(md5, Headers(md5, timestamp, accessToken))
  {
  }

  /**
   * The token commits to the timestamp and the message id: under a digest
   * without collisions, two header sets with timestamps of one length (as
   * every ISO 8601 timestamp here is) share a `zm-token` only when they have
   * the same timestamp and the same access token.
   */
  lemma HeadersTokenBinds(md5: string -> string, t1: string, a1: string, t2: string, a2: string)
    requires forall x, y :: md5(x) == md5(y) ==> x == y
    requires |t1| == |t2|
    requires Headers(md5, t1, a1)["zm-token"] == Headers(md5, t2, a2)["zm-token"]
    ensures t1 == t2 && a1 == a2
  {
    var z := md5(UserAgent);
    var s1 := "Web" + t1 + "1.2" + a1 + z;
    var s2 := "Web" + t2 + "1.2" + a2 + z;
    assert md5(s1) == md5(s2);
    assert s1 == s2;
    assert s1[3..3 + |t1|] == t1;
    assert s2[3..3 + |t2|] == t2;
    assert s1[6 + |t1|..|s1| - |z|] == a1;
    assert s2[6 + |t2|..|s2| - |z|] == a2;
  }

  /** `get_headers` at clock reading `now`. */
  method GetHeaders(md5: string -> string, now: DateTime, r: nat, clockText: string)
    returns (h: map<string, string>)
    requires now.Valid() && r <= 2147483647
    ensures h == Headers(md5, Timestamp(now), Mid(r, clockText))
    ensures Signed(md5, h)
  {
    var timestamp := Timestamp(now);
    var accessToken := GenerateMid(r, clockText);
    h := Headers(md5, timestamp, accessToken);
  }

  // ---------------------------------------------------------------------
  // `get_audio`: the request it posts. `quote` is `urllib.parse.quote`.
  // ---------------------------------------------------------------------

  datatype Request = Request(url: string, headers: map<string, string>, body: string)

  const AudioEndpoint: string := "https://bot.n.cn/api/tts/v1?roleid="

  /** The voice goes into the query string as given, without encoding. */
  function AudioUrl(voice: string): (u: string)
    ensures |u| == |AudioEndpoint| + |voice|
    ensures u[..|AudioEndpoint|] == AudioEndpoint && u[|AudioEndpoint|..] == voice
  {
    AudioEndpoint + voice
  }

  function FormBody(quote: string -> string, text: string): string {
    "&text=" + quote(text) + "&audio_type=mp3&format=stream"
  }

  /** Split on '&', the body has an empty first field, the quoted text, and the two fixed fields. */
  lemma FormBodyFields(quote: string -> string, text: string)
    requires '&' !in quote(text)
    ensures SplitOn(FormBody(quote, text), '&') == ["", "text=" + quote(text), "audio_type=mp3", "format=stream"]
  {
    var q := "text=" + quote(text);
    var tail := "audio_type=mp3" + ['&'] + "format=stream";
    assert "&audio_type=mp3&format=stream" == ['&'] + tail;
    assert "&text=" + quote(text) == ['&'] + q;
    assert FormBody(quote, text) == "" + ['&'] + (q + ['&'] + tail);
    assert '&' !in q;
    assert '&' !in "audio_type=mp3";
    assert '&' !in "format=stream";
    SplitOnFour("", q, "audio_type=mp3", "format=stream", '&');
  }

  /** `get_audio` sends the seven signed headers and the form content type, and the signature still holds. */
  lemma AudioHeaders(md5: string -> string, timestamp: string, accessToken: string)
    ensures var h := Headers(md5, timestamp, accessToken)["Content-Type" := "application/x-www-form-urlencoded"];
      h.Keys == HeaderNames + {"Content-Type"} && h["Content-Type"] == "application/x-www-form-urlencoded" && Signed(md5, h)
  {
  }

  /** The request of `get_audio`: the header set plus the form content type. */
  method AudioRequest(md5: string -> string, quote: string -> string, now: DateTime, r: nat, clockText: string,
                      text: string, voice: string) returns (req: Request)
    requires now.Valid() && r <= 2147483647
    ensures req.url == AudioUrl(voice)
    ensures req.headers == Headers(md5, Timestamp(now), Mid(r, clockText))["Content-Type" := "application/x-www-form-urlencoded"]
    ensures req.body == FormBody(quote, text)
  {
    var url := AudioUrl(voice);
    var headers := GetHeaders(md5, now, r, clockText);
    headers := headers["Content-Type" := "application/x-www-form-urlencoded"];
    req := Request(url, headers, FormBody(quote, text));
  }

  /**
   * `get_audio`: the bytes `http_post` returns, or its error message, which
   * `get_audio` re-raises unchanged. `post` stands for `http_post`.
   */
  method GetAudio(md5: string -> string, quote: string -> string, post: Request -> Result<seq<bv8>, string>,
                  now: DateTime, r: nat, clockText: string, text: string, voice: string)
    returns (audio: Result<seq<bv8>, string>)
    requires now.Valid() && r <= 2147483647
    ensures audio == post(Request(AudioUrl(voice),
      Headers(md5, Timestamp(now), Mid(r, clockText))["Content-Type" := "application/x-www-form-urlencoded"],
      FormBody(quote, text)))
  {
    var req := AudioRequest(md5, quote, now, r, clockText, text, voice);
    audio := post(req);
  }
}

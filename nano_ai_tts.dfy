/**
 * The vendor client of the Cloudflare worker (class `NanoAITTS` of
 * src/services/nano-ai-tts.js): the rolling hash `_e` over UTF-16 code
 * units, the browser fingerprint, the message id, the timestamp, the signed
 * header set (with the MD5 of src/utils/md5.js), the voice catalogue and its
 * loading, the request of `getAudio`, the batching of `getAudioBatch` and
 * the buffer concatenation of `_combineAudioBuffers`.
 *
 * JavaScript numbers are doubles; every intermediate value of `_e` is shown
 * to stay a non-negative 31-bit integer, so the 32-bit vectors below compute
 * exactly what the doubles hold. `Math.random`, the clock, `fetch`, the KV
 * store and `encodeURIComponent` are inputs.
 */
module NanoAiTts {
  import opened Wrappers
  import opened Strings
  import opened Bits
  import opened OrderedMaps
  import opened Json
  import opened Clock
  import opened AudioBatch
  import Md5

  const UserAgent: string := "Mozilla/5.0 (Windows NT 10.0; Win64; x64) AppleWebKit/537.36 (KHTML, like Gecko) Chrome/117.0.0.0 Safari/537.36"
  const RobotsUrl: string := "https://bot.n.cn/api/robot/platform"
  const TtsApiUrl: string := "https://bot.n.cn/api/tts/v1"
  const Domain: string := "https://bot.n.cn"

  // ---------------------------------------------------------------------
  // Strings as JavaScript sees them: sequences of UTF-16 code units.
  // ---------------------------------------------------------------------

  /** The code units of one character: itself below U+10000, a surrogate pair above. */
  function CharUnits(c: char): (u: seq<bv16>)
    ensures |u| == if c as int < 0x1_0000 then 1 else 2
  {
    if c as int < 0x1_0000 then [c as int as bv16]
    else
      var v := c as int - 0x1_0000;
      [(0xD800 + v / 0x400) as bv16, (0xDC00 + v % 0x400) as bv16]
  }

  /** `nt.charCodeAt(0)`, …, `nt.charCodeAt(nt.length - 1)`. */
  function CodeUnits(s: string): seq<bv16> {
    Concat(seq(|s|, i requires 0 <= i < |s| => CharUnits(s[i])))
  }

  // ---------------------------------------------------------------------
  // `_e`: the rolling hash, last code unit first. The masks are
  // HASH_MASK_1 = 268435455 (0x0FFFFFFF) and HASH_MASK_2 = 266338304
  // (0x0FE00000).
  // ---------------------------------------------------------------------

  /** JavaScript `x >> n` on a 32-bit two's-complement value: the sign bit is copied into the vacated positions. */
  function Sar(x: bv32, n: bv32): bv32
    requires n < 32
  {
    if x & 0x8000_0000 != 0 then (x >> n) | !(0xFFFF_FFFF >> n) else x >> n
  }

  /** `((at << 6) & HASH_MASK_1) + st + (st << 14)`. */
  function Mixed(at: bv32, st: bv16): bv32 {
    ((at << 6) & 268435455) + st as bv32 + ((st as bv32) << 14)
  }

  /** `it = at & HASH_MASK_2; if (it !== 0) at = at ^ (it >> 21)`. */
  function Fold(a: bv32): bv32 {
    var it := a & 266338304;
    if it != 0 then a ^ Sar(it, 21) else a
  }

  /** One iteration of the loop body. */
  function Step(at: bv32, st: bv16): bv32 {
    Fold(Mixed(at, st))
  }

  /** The hash of a code-unit sequence: the loop runs from the last unit to the first. */
  function HashOf(units: seq<bv16>): bv32
    decreases |units|
  {
    if units == [] then 0 else Step(HashOf(units[1..]), units[0])
  }

  /** `_e(nt)`; the value it returns is a non-negative 31-bit integer. */
  method E(nt: string) returns (at: bv32)
    ensures at == HashOf(CodeUnits(nt))
    ensures nt == "" ==> at == 0
    ensures at < 0x8000_0000
  {
    var units := CodeUnits(nt);
    at := 0;
    var i := |units|;
    while i > 0
      invariant 0 <= i <= |units|
      invariant at == HashOf(units[i..])
      invariant at < 0x8000_0000
    {
      i := i - 1;
      var st := units[i];
      assert units[i..][1..] == units[i + 1..];
      StepBound(at, st);
      at := Step(at, st);
    }
    assert units[0..] == units;
  }

  lemma MixedDef(at: bv32, st: bv16)
    ensures Mixed(at, st) == ((at << 6) & 268435455) + st as bv32 + ((st as bv32) << 14)
  {
  }

  /** `(at << 6) & HASH_MASK_1` keeps 28 bits, the same in 32 and in 64 bits. */
  lemma MaskedShift(at: bv32)
    ensures (at << 6) & 268435455 < 0x1000_0000
    ensures ((at << 6) & 268435455) as bv64 == ((at as bv64) << 6) & 268435455
  {
  }

  /** `st` and `st << 14` of a code unit keep 16 and 30 bits. */
  lemma UnitShift(st: bv16)
    ensures st as bv32 < 0x1_0000 && (st as bv32) as bv64 == st as bv64
    ensures (st as bv32) << 14 < 0x4000_0000 && ((st as bv32) << 14) as bv64 == (st as bv64) << 14
  {
  }

  lemma SumExact(x: bv32, y: bv32, z: bv32)
    requires x < 0x1000_0000 && y < 0x1_0000 && z < 0x4000_0000
    ensures x + y + z < 0x8000_0000
    ensures (x + y + z) as bv64 == x as bv64 + y as bv64 + z as bv64
  {
  }

  /** The 32-bit sum of a step is the exact sum: it stays below 2^31, so the double never leaves the int32 range. */
  lemma MixedExact(at: bv32, st: bv16)
    ensures Mixed(at, st) < 0x8000_0000
    ensures Mixed(at, st) as bv64 == (((at as bv64) << 6) & 268435455) + st as bv64 + ((st as bv64) << 14)
  {
    MixedDef(at, st);
    MaskedShift(at);
    UnitShift(st);
    SumExact((at << 6) & 268435455, st as bv32, (st as bv32) << 14);
  }

  /** On a non-negative operand the sign-propagating shift is the plain shift. */
  lemma SarOfNonNegative(x: bv32, n: bv32)
    requires n < 32 && x < 0x8000_0000
    ensures Sar(x, n) == x >> n
  {
  }

  lemma FoldZero(a: bv32)
    ensures a & 266338304 == 0 ==> Fold(a) == a && a ^ ((a & 266338304) >> 21) == a
  {
  }

  lemma FoldNonZero(a: bv32)
    ensures a & 266338304 != 0 ==> Fold(a) == a ^ Sar(a & 266338304, 21)
  {
  }

  /** HASH_MASK_2 clears the sign bit, so `it` is never negative. */
  lemma MaskNonNegative(a: bv32)
    ensures a & 266338304 < 0x8000_0000
  {
  }

  /** The fold is an unconditional xor with seven bits of the value: the test `it !== 0` and the sign of `>>` change nothing. */
  lemma FoldPlain(a: bv32)
    ensures Fold(a) == a ^ ((a & 266338304) >> 21)
  {
    MaskNonNegative(a);
    SarOfNonNegative(a & 266338304, 21);
    FoldZero(a);
    FoldNonZero(a);
  }

  lemma XorMaskBound(a: bv32)
    requires a < 0x8000_0000
    ensures a ^ ((a & 266338304) >> 21) < 0x8000_0000
  {
  }

  /** Below 2^31 the fold stays below 2^31. */
  lemma FoldBound(a: bv32)
    requires a < 0x8000_0000
    ensures Fold(a) < 0x8000_0000
  {
    FoldPlain(a);
    XorMaskBound(a);
  }

  /** Every step leaves a non-negative 31-bit value, whatever the accumulator and the code unit. */
  lemma StepBound(at: bv32, st: bv16)
    ensures Step(at, st) < 0x8000_0000
  {
    MixedExact(at, st);
    FoldBound(Mixed(at, st));
  }

  lemma HashBound(units: seq<bv16>)
    ensures HashOf(units) < 0x8000_0000
  {
    if units != [] {
      StepBound(HashOf(units[1..]), units[0]);
    }
  }

  // ---------------------------------------------------------------------
  // `generateUniqueHash`: the fingerprint descriptor and the fingerprint.
  // The user agent is the client's field `ua`, set to UserAgent by the
  // constructor.
  // ---------------------------------------------------------------------

  /**
   * The template literal of the fingerprint fields: app name, `ver` (the
   * number 1.0, which JavaScript renders "1"), language, platform, user
   * agent, width "x" height, colour depth and referrer.
   */
  function FingerprintBase(ua: string): string {
    "chrome" + "1" + "zh-CN" + "Win32" + ua + "1920" + "x" + "1080" + "24" + "https://bot.n.cn/chat"
  }

  /** The descriptor `nt` after the loop: the base and one rendering of `1 ^ nt.length`. */
  function Descriptor(ua: string): string {
    FingerprintBase(ua) + NatToString(Xor(1, |FingerprintBase(ua)|))
  }

  /** The `while (it)` loop of `generateUniqueHash`: it runs exactly once. */
  method BuildDescriptor(ua: string) returns (nt: string)
    ensures nt == Descriptor(ua)
  {
    nt := FingerprintBase(ua);
    var at := |nt|;
    var it := 1;
    while it != 0
      invariant 0 <= it <= 1
      invariant at == |FingerprintBase(ua)| + 1 - it
      invariant nt == if it == 1 then FingerprintBase(ua) else Descriptor(ua)
    {
      nt := nt + NatToString(Xor(it, at));
      it := it - 1;
      at := at + 1;
    }
  }

  /** With the worker's user agent the base has 160 characters, so the loop appends "161". */
  lemma DescriptorSuffix(ua: string)
    requires ua == UserAgent
    ensures |FingerprintBase(ua)| == 160
    ensures Descriptor(ua) == FingerprintBase(ua) + "161"
  {
    XorOne(160);
    assert NatToString(161) == "161" by {
      assert NatToString(16) == "16" by { assert NatToString(1) == "1"; }
    }
  }

  /** The number of binary digits of `x`. */
  function BitLength(x: nat): (k: nat)
    ensures x < Pow2(k)
    ensures x > 0 ==> k >= 1 && Pow2(k - 1) <= x
    decreases x
  {
    if x == 0 then 0 else 1 + BitLength(x / 2)
  }

  /** The spacing of the doubles next to `x`: 1 up to 2^53, doubling with every further binary digit. */
  function Ulp(x: nat): (u: nat)
    ensures u >= 1
    ensures BitLength(x) <= 53 ==> u == 1
  {
    if BitLength(x) <= 53 then 1 else Pow2(BitLength(x) - 53)
  }

  lemma DivMod(x: nat, u: nat)
    requires u >= 1
    ensures x == (x / u) * u + x % u && 0 <= x % u < u
  {
  }

  lemma MulSucc(q: nat, u: nat)
    ensures (q + 1) * u == q * u + u
  {
  }

  /**
   * The double nearest to the integer `x`: `x` with its binary digits
   * beyond the 53rd rounded to the nearest multiple of the spacing, ties
   * going to the even significand (IEEE 754 round-to-nearest). It is the
   * value of the product of two integral doubles.
   */
  function NearestDouble(x: nat): (d: nat)
    ensures 2 * (d - x) <= Ulp(x) && 2 * (x - d) <= Ulp(x)
    ensures BitLength(x) <= 53 ==> d == x
  {
    var u := Ulp(x);
    var q := x / u;
    var rest := x % u;
    DivMod(x, u);
    MulSucc(q, u);
    if 2 * rest > u || (2 * rest == u && q % 2 == 1) then (q + 1) * u else q * u
  }

  /** ToInt32 of an integral number: its residue modulo 2^32 as a bit pattern. */
  function ToInt32(x: int): bv32 {
    (x % 0x1_0000_0000) as bv32
  }

  /** A 32-bit pattern read as a two's-complement integer, as the result of `^` is. */
  function Int32Value(v: bv32): (i: int)
    ensures -0x8000_0000 <= i < 0x8000_0000
  {
    var n := v as int;
    if n < 0x8000_0000 then n else n - 0x1_0000_0000
  }

  /**
   * `Math.round(Math.random() * 2147483647) ^ this._e(nt) * 2147483647`:
   * `*` binds tighter than `^`, so the hash is multiplied first (a double
   * near 2^62) and the rounded random value `r` is xored with that product.
   */
  function Fingerprint(r: nat, hash: bv32): (fp: int)
    ensures -0x8000_0000 <= fp < 0x8000_0000
  {
    Int32Value(ToInt32(r) ^ ToInt32(NearestDouble(hash as int * 2147483647)))
  }

  /**
   * What one call of `getHeaders` draws from its environment: the local
   * clock, `r = Math.round(Math.random() * 2147483647)`, and `clockText`, the
   * `String` of `Date.now() + Math.random() + Math.random()`.
   */
  datatype Env = Env(now: DateTime, r: nat, clockText: string)
  {
    predicate Valid() {
      now.Valid() && r <= 2147483647
    }
  }

  /** `rt`: the domain hash, the fingerprint and the clock text. */
  function MidText(ua: string, env: Env): string {
    NatToString(HashOf(CodeUnits(Domain)) as int)
      + IntToString(Fingerprint(env.r, HashOf(CodeUnits(Descriptor(ua)))))
      + env.clockText
  }

  /** `rt.replace(/\./g, 'e').substring(0, 32)`: dot-free, at most 32 characters, a prefix of the dot-replaced text. */
  function Mid(ua: string, env: Env): (mid: string)
    ensures '.' !in mid
    ensures |mid| == if |MidText(ua, env)| < 32 then |MidText(ua, env)| else 32
    ensures IsPrefix(mid, ReplaceChar(MidText(ua, env), '.', 'e'))
  {
    Take(ReplaceChar(MidText(ua, env), '.', 'e'), 32)
  }

  /** A raw text without dots is truncated only: the message id is its prefix. */
  lemma MidOfDotFree(ua: string, env: Env)
    requires '.' !in MidText(ua, env)
    ensures IsPrefix(Mid(ua, env), MidText(ua, env))
  {
    assert ReplaceChar(MidText(ua, env), '.', 'e') == MidText(ua, env);
  }

  /** `String(n).padStart(2, '0')`: two digits that read back as `n`. */
  function Pad2(n: nat): (s: string)
    requires n < 100
    ensures s == TwoDigits(n)
  {
    PadTwoDigits(n);
    PadStart(NatToString(n), 2, '0')
  }

  /** `getISO8601Time`: `${year}-${month}-${day}T${hours}:${minutes}:${seconds}+08:00`. */
  function Timestamp(now: DateTime): string
    requires now.Valid()
  {
    NatToString(now.year) + "-" + Pad2(now.month) + "-" + Pad2(now.day)
      + "T" + Pad2(now.hour) + ":" + Pad2(now.minute) + ":" + Pad2(now.second) + "+08:00"
  }

  /** `md5Hash(msg)` of src/utils/md5.js: the MD5 of the UTF-8 bytes as 32 lower-case hex digits. */
  function Md5Of(msg: string): (hex: string)
    ensures |hex| == 32
  {
    Md5.Md5Hex(Md5.Utf8Encode(msg))
  }

  const HeaderNames: set<string> :=
    {"device-platform", "timestamp", "access-token", "zm-token", "zm-ver", "zm-ua", "User-Agent"}

  /** The seven header names are distinct (their lengths differ). */
  lemma HeaderNamesDistinct()
    ensures "device-platform" != "timestamp" && "device-platform" != "access-token" && "device-platform" != "zm-token"
    ensures "device-platform" != "zm-ver" && "device-platform" != "zm-ua" && "device-platform" != "User-Agent"
    ensures "timestamp" != "access-token" && "timestamp" != "zm-token" && "timestamp" != "zm-ver"
    ensures "timestamp" != "zm-ua" && "timestamp" != "User-Agent" && "access-token" != "zm-token"
    ensures "access-token" != "zm-ver" && "access-token" != "zm-ua" && "access-token" != "User-Agent"
    ensures "zm-token" != "zm-ver" && "zm-token" != "zm-ua" && "zm-token" != "User-Agent"
    ensures "zm-ver" != "zm-ua" && "zm-ver" != "User-Agent" && "zm-ua" != "User-Agent"
  {
    assert |"device-platform"| == 15 && |"timestamp"| == 9 && |"access-token"| == 12 && |"zm-token"| == 8;
    assert |"zm-ver"| == 6 && |"zm-ua"| == 5 && |"User-Agent"| == 10;
  }

  /**
   * The object `getHeaders` returns for a timestamp and an access token (the
   * message id), over the digest `md5`; the client uses Md5Of.
   */
  function Headers(md5: string -> string, ua: string, timestamp: string, accessToken: string): (h: map<string, string>)
    ensures h.Keys == HeaderNames
    ensures h["device-platform"] == "Web" && h["zm-ver"] == "1.2" && h["User-Agent"] == ua
    ensures h["timestamp"] == timestamp && h["access-token"] == accessToken
    ensures h["zm-ua"] == md5(ua)
  {
    HeaderNamesDistinct();
    var zmUa := md5(ua);
    map["device-platform" := "Web", "timestamp" := timestamp, "access-token" := accessToken,
        "zm-token" := md5("Web" + timestamp + "1.2" + accessToken + zmUa),
        "zm-ver" := "1.2", "zm-ua" := zmUa, "User-Agent" := ua]
  }

  /** What the vendor checks: the token is the digest of the other signed headers, in this order. */
  predicate SignedHeaders(md5: string -> string, h: map<string, string>) {
    HeaderNames <= h.Keys
    && h["zm-ua"] == md5(h["User-Agent"])
    && h["zm-token"] == md5(h["device-platform"] + h["timestamp"] + h["zm-ver"] + h["access-token"] + h["zm-ua"])
  }

  /** Every header set `getHeaders` produces passes the vendor's check, and so does it with a content type added. */
  lemma HeadersSigned(md5: string -> string, ua: string, timestamp: string, accessToken: string)
    ensures SignedHeaders(md5, Headers(md5, ua, timestamp, accessToken))
    ensures SignedHeaders(md5, Headers(md5, ua, timestamp, accessToken)["Content-Type" := "application/x-www-form-urlencoded"])
  {
    HeaderNamesDistinct();
  }

  // ---------------------------------------------------------------------
  // `_parseVoices`: the catalogue as JavaScript reads the parsed document.
  // A property read yields a value or `undefined` (None); JSON values have
  // no inherited member named "data", "list", "tag", "title" or "icon".
  // ---------------------------------------------------------------------

  /** The `{name: item.title, iconUrl: item.icon}` object stored for a tag; None is `undefined`. */
  datatype Voice = Voice(name: Option<Json>, iconUrl: Option<Json>)

  const DefaultVoice: Voice := Voice(Some(Str("DeepSeek (Default)")), Some(Str("")))

  /** `{DeepSeek: {name: 'DeepSeek (Default)', iconUrl: ''}}`. */
  const DefaultVoices: OrderedMap<Voice> := Singleton("DeepSeek", DefaultVoice)

  /** JavaScript truthiness; `[]` and `{}` are truthy, unlike in Python. */
  predicate Truthy(v: Option<Json>) {
    match v
    case None => false
    case Some(Null) => false
    case Some(Bool(b)) => b
    case Some(Num(n)) => n != 0
    case Some(Str(s)) => s != ""
    case Some(Arr(_)) => true
    case Some(Obj(_)) => true
  }

  /** `v.key` on a value that is neither `null` nor `undefined`: an own member of an object, otherwise `undefined`. */
  function Member(v: Json, key: string): (m: Option<Json>)
    ensures m.Some? <==> v.Obj? && key in v.fields
  {
    if v.Obj? && key in v.fields then Some(v.fields[key]) else None
  }

  /** How far `if (data && data.data && data.data.list) for (const item of data.data.list)` gets. */
  datatype Walk = Skip | Throws | Iterate(items: seq<Json>)

  /** The guard, then the iteration protocol: an array yields its elements, a string its characters, anything else truthy is not iterable. */
  function ListOf(data: Json): Walk {
    if !Truthy(Some(data)) then Skip
    else
      var d := Member(data, "data");
      if !Truthy(d) then Skip
      else
        var l := Member(d.value, "list");
        if !Truthy(l) then Skip
        else match l.value
          case Arr(xs) => Iterate(xs)
          case Str(t) => Iterate(seq(|t|, i requires 0 <= i < |t| => Str([t[i]])))
          case _ => Throws
  }

  /**
   * `String(v)` of a parsed JSON value; None where it throws: an object
   * with its own `toString` member (not callable) has no primitive value.
   * An array joins its elements with ",", `null` elements as "".
   */
  function JsToString(j: Json): Option<string>
    decreases j
  {
    match j
    case Null => Some("null")
    case Bool(b) => Some(if b then "true" else "false")
    case Num(n) => Some(IntToString(n))
    case Str(s) => Some(s)
    case Obj(f) => if "toString" in f then None else Some("[object Object]")
    case Arr(xs) =>
      var parts := seq(|xs|, i requires 0 <= i < |xs| => if xs[i].Null? then Some("") else JsToString(xs[i]));
      if forall i :: 0 <= i < |parts| ==> parts[i].Some?
      then Some(Join(seq(|parts|, i requires 0 <= i < |parts| => if parts[i].Some? then parts[i].value else ""), ","))
      else None
  }

  /** The property key `obj[v]` uses: `undefined` becomes "undefined". */
  function PropertyKey(v: Option<Json>): (k: Option<string>)
    ensures v.Some? && v.value.Str? ==> k == Some(v.value.s)
  {
    if v.None? then Some("undefined") else JsToString(v.value)
  }

  /** A catalogue item stored under its key. */
  datatype Keyed = Keyed(key: string, voice: Voice)

  /** `this.voices[item.tag] = {name: item.title, iconUrl: item.icon}`; None where it throws (`null.tag`, a tag without a string value). */
  function EntryOf(item: Json): Option<Keyed> {
    if item.Null? then None
    else match PropertyKey(Member(item, "tag"))
      case None => None
      case Some(k) => Some(Keyed(k, Voice(Member(item, "title"), Member(item, "icon"))))
  }

  /** `this.voices` when `_parseVoices` returns or throws, and whether it threw. */
  datatype Parse = Parse(voices: OrderedMap<Voice>, threw: bool)

  /** One pass of the loop body; after a throw nothing more happens. */
  function ParseStep(p: Parse, item: Json): (q: Parse)
    requires p.voices.Valid()
    ensures q.voices.Valid()
  {
    if p.threw then p
    else match EntryOf(item)
      case None => Parse(p.voices, true)
      case Some(e) => Parse(p.voices.Put(e.key, e.voice), false)
  }

  /** The items stored in order into `{}`. */
  function ParseItems(items: seq<Json>): (p: Parse)
    ensures p.voices.Valid()
    decreases |items|
  {
    if items == [] then Parse(Empty(), false) else ParseStep(ParseItems(items[..|items| - 1]), items[|items| - 1])
  }

  lemma ParseItemsStep(items: seq<Json>, i: nat)
    requires i < |items|
    ensures ParseItems(items[..i + 1]) == ParseStep(ParseItems(items[..i]), items[i])
  {
    assert items[..i + 1][..i] == items[..i];
  }

  /** `_parseVoices(data)`: `this.voices = {}`, then the guarded loop. */
  function ParseOutcome(data: Json): (p: Parse)
    ensures p.voices.Valid()
  {
    match ListOf(data)
    case Skip => Parse(Empty(), false)
    case Throws => Parse(Empty(), true)
    case Iterate(items) => ParseItems(items)
  }

  /** Once an item has thrown, the rest of the list changes nothing. */
  lemma {:induction false} ParseItemsStops(items: seq<Json>, i: nat)
    requires i <= |items| && ParseItems(items[..i]).threw
    ensures ParseItems(items) == ParseItems(items[..i])
    decreases |items| - i
  {
    if i < |items| {
      ParseItemsStep(items, i);
      ParseItemsStops(items, i + 1);
    } else {
      assert items[..i] == items;
    }
  }

  /** One item that cannot be stored (a `null`, a tag without a string value) makes `_parseVoices` throw. */
  lemma ParseItemsThrows(items: seq<Json>, i: nat)
    requires i < |items| && EntryOf(items[i]).None?
    ensures ParseItems(items).threw
  {
    ParseItemsStep(items, i);
    ParseItemsStops(items, i + 1);
  }

  ghost predicate AllStored(items: seq<Json>) {
    forall i :: 0 <= i < |items| ==> EntryOf(items[i]).Some?
  }

  /** The property keys of a list of storable items, in list order. */
  function Keys(items: seq<Json>): (ks: seq<string>)
    requires AllStored(items)
    ensures |ks| == |items|
    ensures forall i :: 0 <= i < |items| ==> ks[i] == EntryOf(items[i]).value.key
  {
    seq(|items|, i requires 0 <= i < |items| => EntryOf(items[i]).value.key)
  }

  /** The voice of the last item stored under `key`. */
  function LastVoice(items: seq<Json>, key: string): Option<Voice>
    decreases |items|
  {
    if items == [] then None
    else
      var e := EntryOf(items[|items| - 1]);
      if e.Some? && e.value.key == key then Some(e.value.voice) else LastVoice(items[..|items| - 1], key)
  }

  /** On storable items the keys are the distinct keys in order of first occurrence, each holding the last voice stored under it. */
  lemma {:induction false} ParseItemsContents(items: seq<Json>)
    requires AllStored(items)
    ensures !ParseItems(items).threw
    ensures ParseItems(items).voices.keys == Dedup(Keys(items))
    ensures forall k :: k in ParseItems(items).voices.values ==> LastVoice(items, k) == Some(ParseItems(items).voices.values[k])
    ensures forall k :: k !in ParseItems(items).voices.values ==> LastVoice(items, k) == None
    decreases |items|
  {
    if items != [] {
      var p := items[..|items| - 1];
      assert AllStored(p) by {
        forall i | 0 <= i < |p| ensures EntryOf(p[i]).Some? {
          assert p[i] == items[i];
        }
      }
      ParseItemsContents(p);
      assert Keys(p) == Keys(items)[..|items| - 1];
      assert EntryOf(items[|items| - 1]).Some?;
    }
  }

  /**
   * For the vendor's `{"data": {"list": items}}`: the voices are replaced
   * wholesale, one key per distinct tag (a string tag is its own key),
   * the last item with a tag supplying its name and icon; an empty list
   * leaves `{}`, with no default voice.
   */
  lemma ParseOfDocument(items: seq<Json>)
    requires AllStored(items)
    ensures !ParseOutcome(CatalogueDocument(items)).threw
    ensures ParseOutcome(CatalogueDocument(items)).voices.keys == Dedup(Keys(items))
    ensures forall k :: k in ParseOutcome(CatalogueDocument(items)).voices.values ==>
      LastVoice(items, k) == Some(ParseOutcome(CatalogueDocument(items)).voices.values[k])
    ensures items == [] ==> ParseOutcome(CatalogueDocument(items)).voices.values == map[]
  {
    assert ListOf(CatalogueDocument(items)) == Iterate(items);
    ParseItemsContents(items);
  }

  /** Without a truthy `data.data.list` the voices become `{}`: no default is added. */
  lemma ParseWithoutList(data: Json)
    requires data.Obj? && ("data" !in data.fields || !Truthy(Member(data.fields["data"], "list")))
    ensures ParseOutcome(data) == Parse(Empty(), false)
  {
  }

  // ---------------------------------------------------------------------
  // `loadVoices`: the KV read, `JSON.parse`, `fetch` of robots.json,
  // `response.json()` and the KV write are replaced by their outcomes.
  // ---------------------------------------------------------------------

  /** `await this.kv.get('robots_json')`: nothing usable (null or ""), a cached text and the result of `JSON.parse` on it (None where it throws), or a rejection. */
  datatype CacheRead = Miss | Hit(parsed: Option<Json>) | ReadFailed

  /** The robots.json request: a parsed body of an `ok` response, or any failure (network, a status that is not ok, `response.json()`). */
  datatype FetchResult = Fetched(data: Json) | FetchFailed

  /** Everything one `loadVoices` call receives from outside, with the environment of its `getHeaders`. */
  datatype LoadInputs = LoadInputs(env: Env, cache: CacheRead, fetch: FetchResult, putFails: bool)

  /** The voices after the call, and whether `this.voicesLoaded = true` was reached. */
  datatype Load = Load(voices: OrderedMap<Voice>, setsLoaded: bool)

  /** The outcome of `loadVoices(forceRefresh)` on a client with (`kv`) or without a KV namespace. */
  function LoadOutcome(kv: bool, forceRefresh: bool, inp: LoadInputs): (l: Load)
    ensures l.voices.Valid()
  {
    if kv && !forceRefresh && inp.cache.ReadFailed? then Load(DefaultVoices, true)
    else if kv && !forceRefresh && inp.cache.Hit? && inp.cache.parsed.None? then Load(DefaultVoices, true)
    else if kv && !forceRefresh && inp.cache.Hit? && ParseOutcome(inp.cache.parsed.value).threw then Load(DefaultVoices, true)
    else if kv && !forceRefresh && inp.cache.Hit? then Load(ParseOutcome(inp.cache.parsed.value).voices, false)
    else match inp.fetch
      case FetchFailed => Load(DefaultVoices, true)
      case Fetched(data) =>
        if kv && inp.putFails then Load(DefaultVoices, true)
        else if ParseOutcome(data).threw then Load(DefaultVoices, true)
        else Load(ParseOutcome(data).voices, true)
  }

  /** The document that reached `_parseVoices`: the cached one on a KV hit, the fetched one otherwise. */
  function LoadSource(kv: bool, forceRefresh: bool, inp: LoadInputs): Option<Json> {
    if kv && !forceRefresh && !inp.cache.Miss? then (if inp.cache.Hit? then inp.cache.parsed else None)
    else if inp.fetch.Fetched? && !(kv && inp.putFails) then Some(inp.fetch.data)
    else None
  }

  /**
   * The three ways out of `loadVoices`: a parsed document's voices, or
   * exactly the DeepSeek default after any failure (and then the flag is
   * set); only a KV hit that parsed returns early, without the flag.
   */
  lemma LoadCases(kv: bool, forceRefresh: bool, inp: LoadInputs)
    ensures var l := LoadOutcome(kv, forceRefresh, inp); var src := LoadSource(kv, forceRefresh, inp);
      (src.Some? && !ParseOutcome(src.value).threw ==> l.voices == ParseOutcome(src.value).voices)
      && (src.None? || ParseOutcome(src.value).threw ==> l == Load(DefaultVoices, true))
      && (!l.setsLoaded <==> kv && !forceRefresh && inp.cache.Hit? && src.Some? && !ParseOutcome(src.value).threw)
  {
  }

  /** `forceRefresh` and a missing KV namespace both bypass the cache read; without KV the write is skipped too. */
  lemma LoadIgnoresCache(kv: bool, forceRefresh: bool, inp: LoadInputs, c: CacheRead, putFails: bool)
    ensures forceRefresh || !kv ==>
      LoadOutcome(kv, forceRefresh, inp) == LoadOutcome(kv, forceRefresh, inp.(cache := c))
    ensures !kv ==> LoadOutcome(kv, forceRefresh, inp) == LoadOutcome(kv, forceRefresh, inp.(putFails := putFails))
  {
  }

  // ---------------------------------------------------------------------
  // `getAudio`. `encodeURIComponent` is the parameter `encode`, and the
  // vendor's answer to a request is given by the parameter `post`.
  // ---------------------------------------------------------------------

  /** A POST request: URL, headers and form body. */
  datatype Request = Request(url: string, headers: map<string, string>, body: string)

  /** The settled `fetch`: a response with `ok`, `status`, `statusText` and the bytes of `arrayBuffer()`, or a rejection with its message. */
  datatype HttpReply =
    | Reply(ok: bool, status: int, statusText: string, body: seq<bv8>)
    | NetworkError(message: string)

  /** What the client needs besides its own state: its KV flag and user agent, MD5, the percent-encoder and the vendor. */
  datatype Ctx = Ctx(kv: bool, ua: string, md5: string -> string, encode: string -> string, post: Request -> HttpReply)

  function AudioUrl(encode: string -> string, voice: string): string {
    TtsApiUrl + "?roleid=" + encode(voice)
  }

  function FormBody(encode: string -> string, text: string): string {
    "&text=" + encode(text) + "&audio_type=mp3&format=stream"
  }

  /** The request `getAudio` sends: this call's signed headers plus the form content type. */
  function AudioRequest(ctx: Ctx, env: Env, text: string, voice: string): (q: Request)
    requires env.Valid()
    ensures SignedHeaders(ctx.md5, q.headers)
    ensures "Content-Type" in q.headers && q.headers["Content-Type"] == "application/x-www-form-urlencoded"
  {
    HeadersSigned(ctx.md5, ctx.ua, Timestamp(env.now), Mid(ctx.ua, env));
    Request(AudioUrl(ctx.encode, voice),
            Headers(ctx.md5, ctx.ua, Timestamp(env.now), Mid(ctx.ua, env))["Content-Type" := "application/x-www-form-urlencoded"],
            FormBody(ctx.encode, text))
  }

  /** The `try` around `fetch`: a rejection and a status that is not ok both end in "Failed to get audio: …". */
  function AudioOutcome(reply: HttpReply): Result<seq<bv8>, string> {
    match reply
    case NetworkError(m) => Err("Failed to get audio: " + m)
    case Reply(ok, status, statusText, body) =>
      if ok then Ok(body) else Err("Failed to get audio: " + "TTS API error: " + IntToString(status) + " " + statusText)
  }

  /** The audio is exactly the body of an ok response; every error names its cause after the one fixed prefix. */
  lemma AudioOutcomeCases(reply: HttpReply)
    ensures AudioOutcome(reply).Ok? <==> reply.Reply? && reply.ok
    ensures AudioOutcome(reply).Ok? ==> AudioOutcome(reply).value == reply.body
    ensures AudioOutcome(reply).Err? ==> IsPrefix("Failed to get audio: ", AudioOutcome(reply).error)
    ensures reply.NetworkError? ==> AudioOutcome(reply).error[21..] == reply.message
  {
  }

  function NotFoundMessage(voice: string, keys: seq<string>): string {
    "Voice \"" + voice + "\" " + "not found" + ". Available voices: " + Join(keys, ", ")
  }

  /** The rejection names the voice and contains "not found". */
  lemma NotFoundMessageSays(voice: string, keys: seq<string>)
    ensures OccursAt(NotFoundMessage(voice, keys), voice, 7)
    ensures OccursAt(NotFoundMessage(voice, keys), "not found", |voice| + 9)
  {
    var m := NotFoundMessage(voice, keys);
    assert m[7..7 + |voice|] == voice;
    assert m[|voice| + 9..|voice| + 18] == "not found";
  }

  /** Names every plain object inherits from `Object.prototype`; reading them yields a function (or, for `__proto__`, the prototype), which is truthy. */
  const PrototypeNames: set<string> :=
    {"constructor", "hasOwnProperty", "isPrototypeOf", "propertyIsEnumerable", "toLocaleString",
     "toString", "valueOf", "__proto__", "__defineGetter__", "__defineSetter__", "__lookupGetter__",
     "__lookupSetter__"}

  /** `!!this.voices[voice]` as written: an own key (its value is an object) or an inherited member. */
  predicate LookupTruthy(voices: OrderedMap<Voice>, voice: string) {
    voice in voices.values || voice in PrototypeNames
  }

  /** The intended test: `voice` is one of the catalogue's own keys. */
  predicate HasVoice(voices: OrderedMap<Voice>, voice: string) {
    voice in voices.values
  }

  /** As written, "toString" passes the voice check of the default catalogue, which has only "DeepSeek". */
  lemma InheritedNamePasses()
    ensures LookupTruthy(DefaultVoices, "toString")
    ensures !HasVoice(DefaultVoices, "toString")
  {
    assert "toString" != "DeepSeek";
  }

  /** The client state `getAudio` reads and may change. */
  datatype State = State(voices: OrderedMap<Voice>, loaded: bool)

  /** One `getAudio` call's inputs: its `getHeaders` environment and what `loadVoices` would receive. */
  datatype CallInputs = CallInputs(env: Env, load: LoadInputs)
  {
    predicate Valid() {
      env.Valid() && load.env.Valid()
    }
  }

  /** The state, the result and the request sent (if any) of one `getAudio(text, voice)`. */
  datatype Call = Call(state: State, result: Result<seq<bv8>, string>, sent: Option<Request>)

  /** The state after loading the voices when they are not yet loaded. */
  function Loaded(kv: bool, st: State, load: LoadInputs): State {
    if st.loaded then st
    else
      var l := LoadOutcome(kv, false, load);
      State(l.voices, l.setsLoaded)
  }

  /** The rest of `getAudio` once the voices are loaded: the voice check, then the request. */
  function Send(ctx: Ctx, st: State, env: Env, text: string, voice: string): Call
    requires env.Valid()
  {
    if !HasVoice(st.voices, voice) then Call(st, Err(NotFoundMessage(voice, st.voices.keys)), None)
    else
      var q := AudioRequest(ctx, env, text, voice);
      Call(st, AudioOutcome(ctx.post(q)), Some(q))
  }

  function CallStep(ctx: Ctx, st: State, ci: CallInputs, text: string, voice: string): Call
    requires ci.Valid()
  {
    Send(ctx, Loaded(ctx.kv, st, ci.load), ci.env, text, voice)
  }

  /**
   * A voice that is not a key of the (loaded) catalogue is rejected with a
   * "not found" message and no request goes out; a key leads to exactly
   * one request, for that voice, whose answer decides the result.
   */
  lemma CallStepCases(ctx: Ctx, st: State, ci: CallInputs, text: string, voice: string)
    requires ci.Valid()
    ensures var c := CallStep(ctx, st, ci, text, voice);
      c.state == Loaded(ctx.kv, st, ci.load)
      && (!HasVoice(c.state.voices, voice) <==> c.sent.None?)
      && (c.sent.None? ==> c.result.Err? && OccursAt(c.result.error, "not found", |voice| + 9))
      && (c.sent.Some? ==>
            c.sent.value.url == AudioUrl(ctx.encode, voice)
            && c.sent.value.body == FormBody(ctx.encode, text)
            && c.result == AudioOutcome(ctx.post(c.sent.value)))
  {
    var st1 := Loaded(ctx.kv, st, ci.load);
    NotFoundMessageSays(voice, st1.voices.keys);
  }

  /** Once loaded, `getAudio` never reloads and never changes the state. */
  lemma CallStepLoaded(ctx: Ctx, st: State, ci: CallInputs, text: string, voice: string)
    requires ci.Valid() && st.loaded
    ensures CallStep(ctx, st, ci, text, voice).state == st
  {
  }

  // ---------------------------------------------------------------------
  // `getAudioBatch` and `_combineAudioBuffers`: the schedule of the calls
  // is that of module AudioBatch, with `getAudio` as the call.
  // ---------------------------------------------------------------------

  predicate ValidCalls(calls: seq<CallInputs>) {
    forall i :: 0 <= i < |calls| ==> calls[i].Valid()
  }

  /**
   * `step` is `getAudio` with context `ctx` for `voice`. The equation is
   * only instantiated where a `CallStep` term is present, so the proofs
   * about the schedule never unfold a single call.
   */
  ghost predicate IsCallOf(step: CallFn<State, CallInputs>, ctx: Ctx, voice: string) {
    forall st: State, text: string, ci: CallInputs {:trigger CallStep(ctx, st, ci, text, voice)} ::
      ci.Valid() ==> step(st, text, ci) == Outcome(CallStep(ctx, st, ci, text, voice).state, CallStep(ctx, st, ci, text, voice).result)
  }

  /** A call function that is `getAudio` with context `ctx` for `voice`. */
  ghost function CallOf(ctx: Ctx, voice: string): (step: CallFn<State, CallInputs>)
    ensures IsCallOf(step, ctx, voice)
  {
    (st: State, text: string, ci: CallInputs) =>
      if ci.Valid() then
        var c := CallStep(ctx, st, ci, text, voice);
        Outcome(c.state, c.result)
      else Outcome(st, Err(""))
  }

  /** With the voices loaded, `getAudioBatch` leaves the client state unchanged, whatever its outcome. */
  lemma BatchKeepsLoadedState(step: CallFn<State, CallInputs>, ctx: Ctx, voice: string, st: State,
                              chunks: seq<string>, calls: seq<CallInputs>, c: nat)
    requires IsCallOf(step, ctx, voice) && c >= 1 && |calls| == |chunks| && ValidCalls(calls) && st.loaded
    ensures RunFrom(step, st, chunks, calls, c, 0, []).state == st
  {
    forall k | 0 <= k < |chunks|
      ensures step(st, chunks[k], calls[k]).state == st
    {
      CallStepLoaded(ctx, st, calls[k], chunks[k], voice);
    }
    BatchFixed(step, st, chunks, calls, c);
  }

  class Client {
    const ua: string
    /** `this.kv` is truthy: the worker was given a KV namespace. */
    const kv: bool
    var voices: OrderedMap<Voice>
    var voicesLoaded: bool

    constructor (kv: bool)
      ensures ua == UserAgent && this.kv == kv
      ensures voices == Empty() && !voicesLoaded
    {
      ua := UserAgent;
      this.kv := kv;
      voices := Empty();
      voicesLoaded := false;
    }

    /** This client's context, with the MD5 of src/utils/md5.js. */
    function Context(encode: string -> string, post: Request -> HttpReply): Ctx {
      Ctx(kv, ua, Md5Of, encode, post)
    }

    function Snapshot(): State
      reads this
    {
      State(voices, voicesLoaded)
    }

    /** `generateUniqueHash` with `r = Math.round(Math.random() * 2147483647)`. */
    method GenerateUniqueHash(r: nat) returns (fp: int)
      ensures fp == Fingerprint(r, HashOf(CodeUnits(Descriptor(ua))))
      ensures -0x8000_0000 <= fp < 0x8000_0000
    {
      var nt := BuildDescriptor(ua);
      var h := E(nt);
      fp := Fingerprint(r, h);
    }

    /** `generateMid`. */
    method GenerateMid(env: Env) returns (mid: string)
      requires env.Valid()
      ensures mid == Mid(ua, env)
    {
      var domainHash := E(Domain);
      var fp := GenerateUniqueHash(env.r);
      var rt := NatToString(domainHash as int) + IntToString(fp) + env.clockText;
      mid := Take(ReplaceChar(rt, '.', 'e'), 32);
    }

    /** `getHeaders` with the environment of this call; `md5Hash` is the imperative MD5. */
    method GetHeaders(env: Env) returns (h: map<string, string>)
      requires env.Valid()
      ensures h == Headers(Md5Of, ua, Timestamp(env.now), Mid(ua, env))
      ensures SignedHeaders(Md5Of, h)
    {
      var timestamp := Timestamp(env.now);
      var accessToken := GenerateMid(env);
      var zmUa := Md5.Md5Hash(ua);
      var zmToken := Md5.Md5Hash("Web" + timestamp + "1.2" + accessToken + zmUa);
      h := map["device-platform" := "Web", "timestamp" := timestamp, "access-token" := accessToken,
               "zm-token" := zmToken, "zm-ver" := "1.2", "zm-ua" := zmUa, "User-Agent" := ua];
      HeadersSigned(Md5Of, ua, timestamp, accessToken);
    }

    /** `_parseVoices(data)`; `threw` when it throws, leaving the keys stored so far. */
    method ParseVoices(data: Json) returns (threw: bool)
      modifies this
      ensures Parse(voices, threw) == ParseOutcome(data)
      ensures voicesLoaded == old(voicesLoaded)
    {
      voices := Empty();
      threw := false;
      var walk := ListOf(data);
      if walk.Throws? {
        threw := true;
      } else if walk.Iterate? {
        threw := StoreItems(walk.items);
      }
    }

    /** The `for` loop of `_parseVoices` over the list, into `{}`. */
    method StoreItems(items: seq<Json>) returns (threw: bool)
      requires voices == Empty()
      modifies this
      ensures Parse(voices, threw) == ParseItems(items)
      ensures voicesLoaded == old(voicesLoaded)
    {
      threw := false;
      var i := 0;
      while i < |items| && !threw
        invariant 0 <= i <= |items|
        invariant ParseItems(items[..i]) == Parse(voices, threw)
        invariant voicesLoaded == old(voicesLoaded)
      {
        ParseItemsStep(items, i);
        var e := EntryOf(items[i]);
        if e.None? {
          threw := true;
        } else {
          voices := voices.Put(e.value.key, e.value.voice);
        }
        i := i + 1;
      }
      if threw {
        ParseItemsStops(items, i);
      } else {
        assert items[..i] == items;
      }
    }

    /** `loadVoices(forceRefresh)`: the KV copy, else robots.json (written back to KV), else the default. */
    method LoadVoices(forceRefresh: bool, inp: LoadInputs)
      requires inp.env.Valid()
      modifies this
      ensures voices == LoadOutcome(kv, forceRefresh, inp).voices
      ensures voicesLoaded == (old(voicesLoaded) || LoadOutcome(kv, forceRefresh, inp).setsLoaded)
    {
      var failed := false;
      if kv && !forceRefresh {
        match inp.cache {
          case Miss =>
          case ReadFailed =>
            failed := true;
          case Hit(parsed) =>
            if parsed.None? {
              failed := true;
            } else {
              var threw := ParseVoices(parsed.value);
              if !threw {
                return;
              }
              failed := true;
            }
        }
      }
      if !failed {
        match inp.fetch {
          case FetchFailed =>
            failed := true;
          case Fetched(data) =>
            if kv && inp.putFails {
              failed := true;
            } else {
              failed := ParseVoices(data);
            }
        }
      }
      if failed {
        voices := DefaultVoices;
      }
      voicesLoaded := true;
    }

    /** `if (!this.voicesLoaded) await this.loadVoices()`. */
    method EnsureLoaded(load: LoadInputs)
      requires load.env.Valid()
      modifies this
      ensures Snapshot() == Loaded(kv, old(Snapshot()), load)
    {
      if !voicesLoaded {
        LoadVoices(false, load);
      }
    }

    /** The voice check and the request of `getAudio`; nothing of the client changes. */
    method SendAudio(text: string, voice: string, encode: string -> string, post: Request -> HttpReply, env: Env)
      returns (r: Result<seq<bv8>, string>, sent: Option<Request>)
      requires env.Valid()
      ensures Call(Snapshot(), r, sent) == Send(Context(encode, post), Snapshot(), env, text, voice)
    {
      if !HasVoice(voices, voice) {
        r := Err(NotFoundMessage(voice, voices.keys));
        sent := None;
        return;
      }
      var url := TtsApiUrl + "?roleid=" + encode(voice);
      var headers := GetHeaders(env);
      headers := headers["Content-Type" := "application/x-www-form-urlencoded"];
      var formData := "&text=" + encode(text) + "&audio_type=mp3&format=stream";
      var q := Request(url, headers, formData);
      r := AudioOutcome(post(q));
      sent := Some(q);
    }

    /** `getAudio(text, voice)`: load if needed, check the voice, send one request. */
    method GetAudio(text: string, voice: string, encode: string -> string, post: Request -> HttpReply, ci: CallInputs)
      returns (r: Result<seq<bv8>, string>, sent: Option<Request>)
      requires ci.Valid()
      modifies this
      ensures Call(Snapshot(), r, sent) == CallStep(Context(encode, post), old(Snapshot()), ci, text, voice)
    {
      EnsureLoaded(ci.load);
      r, sent := SendAudio(text, voice, encode, post, ci.env);
    }

    /** `getAudio` as one call of the step function `step` of a batch. */
    method GetAudioInBatch(text: string, voice: string, encode: string -> string, post: Request -> HttpReply,
                           ci: CallInputs, ghost step: CallFn<State, CallInputs>)
      returns (r: Result<seq<bv8>, string>)
      requires ci.Valid() && IsCallOf(step, Context(encode, post), voice)
      modifies this
      ensures Outcome(Snapshot(), r) == step(old(Snapshot()), text, ci)
    {
      var sent;
      r, sent := GetAudio(text, voice, encode, post, ci);
    }

    /** One batch, `chunks.slice(lo, hi).map(...)`: every call is made, in order, before the results are looked at. */
    method RunBatch(chunks: seq<string>, lo: nat, hi: nat, voice: string, encode: string -> string,
                    post: Request -> HttpReply, calls: seq<CallInputs>, ghost step: CallFn<State, CallInputs>)
      returns (results: seq<Result<seq<bv8>, string>>)
      requires lo <= hi <= |chunks| == |calls| && ValidCalls(calls) && IsCallOf(step, Context(encode, post), voice)
      modifies this
      ensures Calls(Snapshot(), results) == RunCalls(step, old(Snapshot()), chunks, calls, lo, hi)
    {
      results := [];
      var k := lo;
      while k < hi
        invariant lo <= k <= hi
        invariant RunCalls(step, old(Snapshot()), chunks, calls, lo, k) == Calls(Snapshot(), results)
      {
        assert calls[k].Valid();
        var res := GetAudioInBatch(chunks[k], voice, encode, post, calls[k], step);
        results := results + [res];
        k := k + 1;
      }
    }

    /**
     * `getAudioBatch(chunks, voice, concurrency)`: batches of `concurrency`
     * calls, then the buffers combined; `step` is `getAudio` of this client.
     */
    method GetAudioBatch(chunks: seq<string>, voice: string, concurrency: nat,
                         encode: string -> string, post: Request -> HttpReply, calls: seq<CallInputs>,
                         ghost step: CallFn<State, CallInputs>)
      returns (r: Result<seq<bv8>, string>)
      requires concurrency >= 1 && |calls| == |chunks| && ValidCalls(calls)
      requires IsCallOf(step, Context(encode, post), voice)
      modifies this
      ensures var b := RunFrom(step, old(Snapshot()), chunks, calls, concurrency, 0, []);
        Snapshot() == b.state && r == (if b.result.Ok? then Ok(Concat(b.result.value)) else Err(b.result.error))
    {
      ghost var whole := RunFrom(step, Snapshot(), chunks, calls, concurrency, 0, []);
      var audioBuffers: seq<seq<bv8>> := [];
      var i := 0;
      while i < |chunks|
        invariant Min(i, |chunks|) <= |chunks|
        invariant RunFrom(step, Snapshot(), chunks, calls, concurrency, Min(i, |chunks|), audioBuffers) == whole
        decreases |chunks| - i
      {
        var end := Min(i + concurrency, |chunks|);
        ghost var before := Snapshot();
        var results := RunBatch(chunks, i, end, voice, encode, post, calls, step);
        var err := FirstError(results);
        if err.Some? {
          RunFromFailing(step, before, chunks, calls, concurrency, i, audioBuffers, err.value);
          r := Err("Batch processing failed: " + err.value);
          return;
        }
        RunFromPassing(step, before, chunks, calls, concurrency, i, audioBuffers);
        audioBuffers := audioBuffers + Values(results);
        i := i + concurrency;
        assert Min(i, |chunks|) == end;
      }
      var combined := CombineAudioBuffers(audioBuffers);
      r := Ok(combined[..]);
    }
  }

  /** `_combineAudioBuffers`: a buffer of the total length, each input copied at the running offset. */
  method CombineAudioBuffers(buffers: seq<seq<bv8>>) returns (combined: array<bv8>)
    ensures fresh(combined)
    ensures combined[..] == Concat(buffers)
  {
    var totalSize := 0;
    for k := 0 to |buffers|
      invariant totalSize == |Concat(buffers[..k])|
    {
      assert buffers[..k + 1] == buffers[..k] + [buffers[k]];
      ConcatAppend(buffers[..k], buffers[k]);
      totalSize := totalSize + |buffers[k]|;
    }
    assert buffers[..|buffers|] == buffers;
    combined := new bv8[totalSize];
    var offset := 0;
    for k := 0 to |buffers|
      invariant combined.Length == totalSize == |Concat(buffers)|
      invariant offset == |Concat(buffers[..k])| <= totalSize
      invariant combined[..offset] == Concat(buffers[..k])
    {
      assert buffers[..k + 1] == buffers[..k] + [buffers[k]];
      ConcatAppend(buffers[..k], buffers[k]);
      ConcatJoin(buffers[..k + 1], buffers[k + 1..]);
      assert buffers[..k + 1] + buffers[k + 1..] == buffers;
      var view := buffers[k];
      forall t | 0 <= t < |view| {
        combined[offset + t] := view[t];
      }
      assert combined[..offset + |view|] == Concat(buffers[..k]) + view;
      offset := offset + |view|;
    }
    assert combined[..] == combined[..offset];
  }

  /** `refreshVoiceCache(kv)`: a fresh client loads with `forceRefresh` and hands back its voices. */
  method RefreshVoiceCache(kv: bool, inp: LoadInputs) returns (voices: OrderedMap<Voice>)
    requires inp.env.Valid()
    ensures voices == LoadOutcome(kv, true, inp).voices
  {
    var tts := new Client(kv);
    tts.LoadVoices(true, inp);
    voices := tts.voices;
  }
}

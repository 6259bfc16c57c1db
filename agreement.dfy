/**
 * Where the two clients agree and where they part: the rolling hash `_e`
 * of backend/app/services/tts_service.py (on code points, in 64 bits) and
 * of src/services/nano-ai-tts.js (on UTF-16 code units, in 32 bits) give
 * the same value on text without characters beyond U+FFFF; the timestamps
 * and the header sets are the same; the fingerprint descriptors are not,
 * since Python renders the version 1.0 as "1.0" and JavaScript as "1".
 */
module Agreement {
  import opened Strings
  import opened Clock
  import Js = NanoAiTts
  import Py = PyTtsService

  // ---------------------------------------------------------------------
  // `_e`.
  // ---------------------------------------------------------------------

  /** The fold widened to 64 bits is the fold of the widened value. */
  lemma FoldWiden(m: bv32)
    ensures (m ^ ((m & 266338304) >> 21)) as bv64 == (m as bv64) ^ (((m as bv64) & 266338304) >> 21)
  {
  }

  lemma FoldAgrees(m: bv32)
    ensures Py.Fold(m as bv64) == Js.Fold(m) as bv64
  {
    Js.FoldPlain(m);
    Py.FoldXor(m as bv64);
    FoldWiden(m);
  }

  lemma MixedAgrees(x: bv32, u: bv16)
    ensures Py.Mixed(x as bv64, u as bv64) == Js.Mixed(x, u) as bv64
  {
    Js.MixedExact(x, u);
  }

  /** One step of the JavaScript loop, widened, is one step of the Python loop. */
  lemma StepsAgree(x: bv32, u: bv16)
    ensures Py.Step(x as bv64, u as bv64) == Js.Step(x, u) as bv64
  {
    MixedAgrees(x, u);
    FoldAgrees(Js.Mixed(x, u));
  }

  /** A character of the Basic Multilingual Plane is one code unit with the value of its code point. */
  lemma CharAgrees(c: char)
    requires c as int < 0x1_0000
    ensures Js.CharUnits(c) == [c as int as bv16]
    ensures Py.CodePoint(c) == (c as int as bv16) as bv64
  {
  }

  /** The code units of a string are those of its first character, then those of the rest. */
  lemma CodeUnitsCons(s: string)
    requires s != []
    ensures Js.CodeUnits(s) == Js.CharUnits(s[0]) + Js.CodeUnits(s[1..])
  {
    var xs := seq(|s|, i requires 0 <= i < |s| => Js.CharUnits(s[i]));
    assert xs[1..] == seq(|s[1..]|, i requires 0 <= i < |s[1..]| => Js.CharUnits(s[1..][i]));
  }

  predicate InBmp(s: string) {
    forall i :: 0 <= i < |s| ==> s[i] as int < 0x1_0000
  }

  lemma InBmpTail(s: string)
    requires s != [] && InBmp(s)
    ensures InBmp(s[1..])
  {
    forall i | 0 <= i < |s[1..]| ensures s[1..][i] as int < 0x1_0000 {
      assert s[1..][i] == s[i + 1];
    }
  }

  /** The first character of a text: one code unit, the code point of the same value, and the rest. */
  lemma HeadFacts(s: string, u0: bv16)
    requires s != [] && InBmp(s) && u0 == s[0] as int as bv16
    ensures Js.CodeUnits(s) == [u0] + Js.CodeUnits(s[1..])
    ensures Py.CodePoints(s)[0] == u0 as bv64 && Py.CodePoints(s)[1..] == Py.CodePoints(s[1..])
  {
    CharAgrees(s[0]);
    CodeUnitsCons(s);
    assert Py.CodePoints(s)[1..] == Py.CodePoints(s[1..]);
  }

  /** The two loops agree on sequences whose first elements and whose tails they agree on. */
  lemma HashesAgreeSeqs(us: seq<bv16>, u0: bv16, ur: seq<bv16>, cs: seq<bv64>, cr: seq<bv64>)
    requires us == [u0] + ur && cs != [] && cs[0] == u0 as bv64 && cs[1..] == cr
    requires Py.HashOf(cr) == Js.HashOf(ur) as bv64
    ensures Py.HashOf(cs) == Js.HashOf(us) as bv64
  {
    HashStepsAgree(Py.HashOf(cs), Js.HashOf(us), Py.HashOf(cr), Js.HashOf(ur), cs[0], u0);
  }

  /** The loop values agree after one more step when they agreed before it. */
  lemma HashStepsAgree(pc: bv64, jc: bv32, pr: bv64, jr: bv32, c0: bv64, u0: bv16)
    requires pr == jr as bv64 && c0 == u0 as bv64 && pc == Py.Step(pr, c0) && jc == Js.Step(jr, u0)
    ensures pc == jc as bv64
  {
    StepsAgree(jr, u0);
  }

  /** The hashes agree on a text when they agree on its tail. */
  lemma HashesAgreeCons(s: string)
    requires s != [] && InBmp(s)
    requires Py.HashOf(Py.CodePoints(s[1..])) == Js.HashOf(Js.CodeUnits(s[1..])) as bv64
    ensures Py.HashOf(Py.CodePoints(s)) == Js.HashOf(Js.CodeUnits(s)) as bv64
  {
    var u0 := s[0] as int as bv16;
    HeadFacts(s, u0);
    HashesAgreeSeqs(Js.CodeUnits(s), u0, Js.CodeUnits(s[1..]), Py.CodePoints(s), Py.CodePoints(s[1..]));
  }

  /**
   * On text within the Basic Multilingual Plane the two hashes are the same
   * number: every intermediate value of the 32-bit loop stays below 2^31,
   * so its shifts, masks and xors act as the 64-bit ones do.
   */
  lemma {:induction false} HashesAgree(s: string)
    requires InBmp(s)
    ensures Py.HashOf(Py.CodePoints(s)) == Js.HashOf(Js.CodeUnits(s)) as bv64
    decreases |s|
  {
    if s == [] {
      assert Js.CodeUnits(s) == [];
      assert Py.CodePoints(s) == [];
    } else {
      InBmpTail(s);
      HashesAgree(s[1..]);
      HashesAgreeCons(s);
    }
  }

  /** The hashes as numbers: `_e` of both clients returns the same integer on such text. */
  lemma HashValuesAgree(s: string)
    requires InBmp(s)
    ensures Py.HashOf(Py.CodePoints(s)) as int == Js.HashOf(Js.CodeUnits(s)) as int
  {
    HashesAgree(s);
  }

  // ---------------------------------------------------------------------
  // Timestamps, headers and descriptors.
  // ---------------------------------------------------------------------

  /** `getISO8601Time` and `get_iso8601_time` format a reading of the clock the same way. */
  lemma TimestampsAgree(now: DateTime)
    requires now.Valid()
    ensures Js.Timestamp(now) == Py.Timestamp(now)
  {
  }

  /** Over the same digest, with the same timestamp and access token, both clients send the same seven headers. */
  lemma HeadersAgree(md5: string -> string, timestamp: string, accessToken: string)
    ensures Js.Headers(md5, Js.UserAgent, timestamp, accessToken) == Py.Headers(md5, timestamp, accessToken)
  {
  }

  /** The descriptors differ: "1" against "1.0" at the version field, two characters apart in length. */
  lemma DescriptorsDiffer()
    ensures |Py.Descriptor()| == |Js.Descriptor(Js.UserAgent)| + 2
    ensures Js.Descriptor(Js.UserAgent) != Py.Descriptor()
  {
    Js.DescriptorSuffix(Js.UserAgent);
    Py.DescriptorSuffix();
  }
}

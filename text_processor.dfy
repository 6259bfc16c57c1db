/**
 * The text pipeline of the worker (src/services/text-processor.js): the
 * stages of `cleanText`, the sentence and word chunker `smartChunkText` and
 * the validation of `processText`. A JavaScript string is a sequence of
 * characters here and its `length` counts UTF-16 code units (Utf16Length).
 * The Markdown rewriting stage is a parameter.
 */
module TextProcessor {
  import opened Wrappers
  import opened Strings
  import opened Json

  // ---------------------------------------------------------------------
  // Whitespace: the characters `\s` matches and `trim` removes.
  // ---------------------------------------------------------------------

  /** ECMAScript WhiteSpace and LineTerminator: tab to carriage return, space, NBSP and the Unicode spaces. */
  predicate IsSpace(c: char) {
    var n := c as int;
    (0x09 <= n <= 0x0D) || n == 0x20 || n == 0xA0 || n == 0x1680 || (0x2000 <= n <= 0x200A)
    || n == 0x2028 || n == 0x2029 || n == 0x202F || n == 0x205F || n == 0x3000 || n == 0xFEFF
  }

  predicate NotSpace(c: char) {
    !IsSpace(c)
  }

  predicate IsNewline(c: char) {
    c == '\n'
  }

  predicate AllSpaces(s: string) {
    forall k :: 0 <= k < |s| ==> IsSpace(s[k])
  }

  predicate SpaceFree(s: string) {
    forall k :: 0 <= k < |s| ==> !IsSpace(s[k])
  }

  /** No whitespace at either end (what `trim` leaves). */
  predicate IsTrimmed(s: string) {
    s == [] || (!IsSpace(s[0]) && !IsSpace(s[|s| - 1]))
  }

  /** No two whitespace characters next to each other. */
  predicate NoDoubleSpace(s: string) {
    forall k :: 0 <= k < |s| - 1 ==> !(IsSpace(s[k]) && IsSpace(s[k + 1]))
  }

  /** The only whitespace character in `s` is the plain space. */
  predicate OnlyBlanks(s: string) {
    forall k :: 0 <= k < |s| ==> IsSpace(s[k]) ==> s[k] == ' '
  }

  /** `s` with every whitespace character deleted: the text that is read out. */
  function DeleteSpaces(s: string): (r: string)
    ensures |r| <= |s| && SpaceFree(r)
    decreases |s|
  {
    if s == [] then [] else (if IsSpace(s[0]) then [] else [s[0]]) + DeleteSpaces(s[1..])
  }

  lemma {:induction false} DeleteSpacesAppend(a: string, b: string)
    ensures DeleteSpaces(a + b) == DeleteSpaces(a) + DeleteSpaces(b)
    decreases |a|
  {
    if a == [] {
      assert a + b == b;
    } else {
      assert (a + b)[1..] == a[1..] + b;
      DeleteSpacesAppend(a[1..], b);
    }
  }

  /** Only whitespace is deleted: a string without any is left as it is, and one of whitespace alone vanishes. */
  lemma {:induction false} DeleteSpacesCases(s: string)
    ensures SpaceFree(s) ==> DeleteSpaces(s) == s
    ensures AllSpaces(s) <==> DeleteSpaces(s) == []
    decreases |s|
  {
    if s != [] {
      DeleteSpacesCases(s[1..]);
      assert AllSpaces(s) <==> IsSpace(s[0]) && AllSpaces(s[1..]) by {
        if IsSpace(s[0]) && AllSpaces(s[1..]) {
          forall k | 0 <= k < |s| ensures IsSpace(s[k]) {
            if k > 0 { assert s[k] == s[1..][k - 1]; }
          }
        }
      }
      assert SpaceFree(s) ==> SpaceFree(s[1..]) by {
        if SpaceFree(s) {
          forall k | 0 <= k < |s[1..]| ensures !IsSpace(s[1..][k]) { assert s[1..][k] == s[k + 1]; }
        }
      }
    }
  }

  /** Deleting the whitespace twice deletes nothing more. */
  lemma DeleteSpacesTwice(s: string)
    ensures DeleteSpaces(DeleteSpaces(s)) == DeleteSpaces(s)
  {
    DeleteSpacesCases(DeleteSpaces(s));
  }

  /** The whitespace of a string without a character outside whitespace is deleted altogether, wherever it sits. */
  lemma DeleteAround(a: string, m: string, b: string)
    requires AllSpaces(a) && AllSpaces(b)
    ensures DeleteSpaces(a + m + b) == DeleteSpaces(m)
  {
    DeleteSpacesAppend(a + m, b);
    DeleteSpacesAppend(a, m);
    DeleteSpacesCases(a);
    DeleteSpacesCases(b);
  }

  /** The number of leading characters of `s` that satisfy `p`. */
  function RunLength(s: string, p: char -> bool): (n: nat)
    ensures n <= |s|
    ensures forall k :: 0 <= k < n ==> p(s[k])
    ensures n < |s| ==> !p(s[n])
    decreases |s|
  {
    if s != [] && p(s[0]) then 1 + RunLength(s[1..], p) else 0
  }

  // ---------------------------------------------------------------------
  // `trim`
  // ---------------------------------------------------------------------

  /** The number of whitespace characters at the end of `s`. */
  function TrailingSpaces(s: string): (n: nat)
    ensures n <= |s|
    ensures forall k :: |s| - n <= k < |s| ==> IsSpace(s[k])
    ensures n < |s| ==> !IsSpace(s[|s| - 1 - n])
    decreases |s|
  {
    if s != [] && IsSpace(s[|s| - 1]) then
      var n := TrailingSpaces(s[..|s| - 1]);
      assert forall k :: |s| - 1 - n <= k < |s| - 1 ==> s[k] == s[..|s| - 1][k];
      1 + n
    else 0
  }

  /**
   * `s.trim()`: no whitespace at either end, the same text once whitespace is
   * deleted, no longer than `s`, empty exactly when `s` is all whitespace,
   * and `s` itself when `s` is already trimmed.
   */
  function Trim(s: string): (r: string)
    ensures IsTrimmed(r)
    ensures DeleteSpaces(r) == DeleteSpaces(s)
    ensures Utf16Length(r) <= Utf16Length(s)
    ensures r == [] <==> AllSpaces(s)
    ensures IsTrimmed(s) ==> r == s
  {
    var a := RunLength(s, IsSpace);
    if a == |s| then
      TrimAllSpaces(s);
      []
    else
      var b := TrailingSpaces(s);
      TrimInner(s, a, b);
      TrimInnerText(s, a, b);
      s[a..|s| - b]
  }

  /** A text of whitespace only trims to nothing. */
  lemma TrimAllSpaces(s: string)
    requires RunLength(s, IsSpace) == |s|
    ensures DeleteSpaces([]) == DeleteSpaces(s) && AllSpaces(s)
    ensures IsTrimmed(s) ==> s == []
  {
    assert s == s + [] + [];
    TrimFacts(s, s, [], []);
  }

  /** Without the leading and the trailing whitespace, the middle of a text is a non-empty trimmed text. */
  lemma TrimInner(s: string, a: nat, b: nat)
    requires a == RunLength(s, IsSpace) < |s| && b == TrailingSpaces(s)
    ensures a < |s| - b
    ensures IsTrimmed(s[a..|s| - b]) && s[a..|s| - b] != []
    ensures IsTrimmed(s) ==> s[a..|s| - b] == s
  {
    LeadingRun(s, a);
    TrailingRun(s, b);
    TrimSplit(s, a, b);
    if IsTrimmed(s) {
      assert a == 0 by { assert !IsSpace(s[0]); }
      assert b == 0 by { assert !IsSpace(s[|s| - 1]); }
    }
  }

  /** The middle of a text keeps what is read out, is no longer, and the text is not whitespace only. */
  lemma TrimInnerText(s: string, a: nat, b: nat)
    requires a == RunLength(s, IsSpace) < |s| && b == TrailingSpaces(s)
    ensures a < |s| - b
    ensures DeleteSpaces(s[a..|s| - b]) == DeleteSpaces(s) && !AllSpaces(s)
    ensures Utf16Length(s[a..|s| - b]) <= Utf16Length(s)
  {
    LeadingRun(s, a);
    TrailingRun(s, b);
    TrimSplit(s, a, b);
    TrimFacts(s, s[..a], s[a..|s| - b], s[|s| - b..]);
  }

  /** What the count of leading whitespace says about the text, stated for the whitespace predicate itself. */
  lemma LeadingRun(s: string, a: nat)
    requires a == RunLength(s, IsSpace) < |s|
    ensures forall k :: 0 <= k < a ==> IsSpace(s[k])
    ensures !IsSpace(s[a])
  {
  }

  /** What the count of trailing whitespace says about the text. */
  lemma TrailingRun(s: string, b: nat)
    requires b == TrailingSpaces(s)
    ensures forall k :: |s| - b <= k < |s| ==> IsSpace(s[k])
    ensures b < |s| ==> !IsSpace(s[|s| - 1 - b])
  {
  }

  /** The two counts cut a text into a whitespace run, a middle that starts and ends with a non-space, and a whitespace run. */
  lemma TrimSplit(s: string, a: nat, b: nat)
    requires a < |s| && b <= |s|
    requires forall k :: 0 <= k < a ==> IsSpace(s[k])
    requires !IsSpace(s[a])
    requires forall k :: |s| - b <= k < |s| ==> IsSpace(s[k])
    requires b < |s| ==> !IsSpace(s[|s| - 1 - b])
    ensures a < |s| - b && s == s[..a] + s[a..|s| - b] + s[|s| - b..]
    ensures IsTrimmed(s[a..|s| - b]) && s[a..|s| - b] != []
    ensures AllSpaces(s[..a]) && AllSpaces(s[|s| - b..])
  {
    assert a < |s| - b;
    var r := s[a..|s| - b];
    assert r[0] == s[a] && r[|r| - 1] == s[|s| - 1 - b];
    RunsAllSpaces(s, a, b);
  }

  /** The leading and the trailing run, cut out, are whitespace only. */
  lemma RunsAllSpaces(s: string, a: nat, b: nat)
    requires a <= |s| && b <= |s|
    requires forall k :: 0 <= k < a ==> IsSpace(s[k])
    requires forall k :: |s| - b <= k < |s| ==> IsSpace(s[k])
    ensures AllSpaces(s[..a]) && AllSpaces(s[|s| - b..])
  {
    var pre, post := s[..a], s[|s| - b..];
    forall k | 0 <= k < |pre| ensures IsSpace(pre[k]) { assert pre[k] == s[k]; }
    forall k | 0 <= k < |post| ensures IsSpace(post[k]) { assert post[k] == s[|s| - b + k]; }
  }

  lemma TrimFacts(s: string, a: string, m: string, b: string)
    requires s == a + m + b && AllSpaces(a) && AllSpaces(b) && IsTrimmed(m)
    ensures DeleteSpaces(s) == DeleteSpaces(m)
    ensures Utf16Length(m) <= Utf16Length(s)
    ensures m == [] <==> AllSpaces(s)
  {
    DeleteAround(a, m, b);
    TrimShorter(s, a, m, b);
    TrimBlank(s, a, m, b);
  }

  lemma TrimShorter(s: string, a: string, m: string, b: string)
    requires s == a + m + b
    ensures Utf16Length(m) <= Utf16Length(s)
  {
    Utf16LengthAppend(a + m, b);
    Utf16LengthAppend(a, m);
  }

  lemma TrimBlank(s: string, a: string, m: string, b: string)
    requires s == a + m + b && AllSpaces(a) && AllSpaces(b)
    requires IsTrimmed(m)
    ensures m == [] <==> AllSpaces(s)
  {
    if m == [] {
      assert s == a + b;
      forall k | 0 <= k < |s| ensures IsSpace(s[k]) {
        if k >= |a| { assert s[k] == b[k - |a|]; } else { assert s[k] == a[k]; }
      }
    } else {
      assert s[|a|] == m[0];
    }
  }

  /** A trimmed string is its own `trim`. */
  lemma TrimKeeps(s: string)
    requires IsTrimmed(s)
    ensures Trim(s) == s
  {
  }

  /** `trim` returns a piece of its argument: the positions of the result in `s`. */
  lemma TrimIsSlice(s: string) returns (i: nat)
    ensures i + |Trim(s)| <= |s| && Trim(s) == s[i..i + |Trim(s)|]
  {
    i := RunLength(s, IsSpace);
    if i == |s| {
      i := 0;
    }
  }

  // ---------------------------------------------------------------------
  // `cleanText`, stage by stage.
  // ---------------------------------------------------------------------

  /** `/<[^>]*>/` matches nowhere in `s`: no `<` has a `>` anywhere after it. */
  predicate TagFree(s: string) {
    forall i, j :: 0 <= i < j < |s| && s[i] == '<' ==> s[j] != '>'
  }

  /** The first position at or after `from` that holds `c`, or |s| if none does. */
  function IndexFrom(s: string, c: char, from: nat): (i: nat)
    requires from <= |s|
    ensures from <= i <= |s|
    ensures i < |s| ==> s[i] == c
    ensures forall k :: from <= k < i ==> s[k] != c
    decreases |s| - from
  {
    if from == |s| || s[from] == c then from else IndexFrom(s, c, from + 1)
  }

  /**
   * `s.replace(/<[^>]*>/g, '')`: from the first `<`, everything up to the next
   * `>` goes, and the scan resumes after it; a `<` with no `>` after it is kept,
   * and so is everything after it. Nothing that looks like a tag is left.
   */
  function StripTags(s: string): (r: string)
    ensures TagFree(r)
    decreases |s|
  {
    var i := IndexFrom(s, '<', 0);
    if i == |s| then s
    else
      var j := IndexFrom(s, '>', i + 1);
      if j == |s| then s
      else
        var rest := StripTags(s[j + 1..]);
        var r := s[..i] + rest;
        assert TagFree(r) by {
          forall k, l | 0 <= k < l < |r| && r[k] == '<' ensures r[l] != '>' {
            assert r[k] == rest[k - i] && r[l] == rest[l - i];
          }
        }
        r
  }

  /** A string without a tag passes unchanged, so stripping twice strips nothing more. */
  lemma StripTagsKeeps(s: string)
    requires TagFree(s)
    ensures StripTags(s) == s
  {
  }

  /** The length of the scheme `https?://` at the start of `s`, 0 if there is none ("http" with an optional "s", then "://"). */
  function SchemeLength(s: string): (k: nat)
    ensures k == 0 || k == 7 || k == 8
    ensures k <= |s|
    ensures k > 0 ==> s[0] == 'h' && forall i :: 1 <= i < k ==> !IsSpace(s[i])
  {
    if |s| >= 7 && s[0] == 'h' && s[1] == 't' && s[2] == 't' && s[3] == 'p' then
      if |s| >= 8 && s[4] == 's' && s[5] == ':' && s[6] == '/' && s[7] == '/' then 8
      else if s[4] == ':' && s[5] == '/' && s[6] == '/' then 7
      else 0
    else 0
  }

  /** The scheme is decided by the first eight characters. */
  lemma SchemeAgrees(r: string, s: string, m: nat)
    requires SchemeLength(r) > 0 && m == SchemeLength(r) + 1 <= |r| && m <= |s|
    requires forall i :: 0 <= i < m ==> s[i] == r[i]
    ensures SchemeLength(s) == SchemeLength(r)
  {
  }

  /** The length of the match of `https?:\/\/[^\s]+` at the start of `s`, 0 if it does not match there. */
  function UrlLength(s: string): (n: nat)
    ensures n <= |s|
    ensures n > 0 ==> n == |s| || IsSpace(s[n])
    ensures n > 0 ==> SchemeLength(s) > 0 && SchemeLength(s) < |s| && !IsSpace(s[SchemeLength(s)])
    ensures SchemeLength(s) > 0 && SchemeLength(s) < |s| && !IsSpace(s[SchemeLength(s)]) ==> n > 0
    ensures n > 0 ==> forall k :: SchemeLength(s) <= k < n ==> !IsSpace(s[k])
  {
    var k := SchemeLength(s);
    var run := RunLength(s[k..], NotSpace);
    if k > 0 && run > 0 then k + run else 0
  }

  ghost predicate HasUrl(s: string) {
    exists p :: 0 <= p < |s| && UrlLength(s[p..]) > 0
  }

  /** `s.replace(/https?:\/\/[^\s]+/g, '')`: scanning left to right, every match is deleted. */
  function StripUrls(s: string): string
    decreases |s|
  {
    if s == [] then []
    else
      var n := UrlLength(s);
      if n > 0 then StripUrls(s[n..]) else [s[0]] + StripUrls(s[1..])
  }

  /** A match cannot start with whitespace, so a leading whitespace character is kept. */
  lemma StripUrlsSpace(t: string)
    requires t != [] && IsSpace(t[0])
    ensures StripUrls(t) == [t[0]] + StripUrls(t[1..])
  {
  }

  /** A match is followed by whitespace or the end, so what is left after deleting it starts with whitespace. */
  lemma StrippedUrlFollows(t: string)
    requires UrlLength(t) > 0
    ensures StripUrls(t) == [] || IsSpace(StripUrls(t)[0])
  {
    var n := UrlLength(t);
    if n < |t| {
      StripUrlsSpace(t[n..]);
    }
  }

  /** A run of characters outside whitespace at the start of the stripped text was there in the input. */
  lemma {:induction false} StripUrlsPrefix(t: string, u: string)
    requires SpaceFree(u) && |u| <= |StripUrls(t)|
    requires forall i :: 0 <= i < |u| ==> StripUrls(t)[i] == u[i]
    ensures |u| <= |t| && forall i :: 0 <= i < |u| ==> t[i] == u[i]
    decreases |t|
  {
    if u != [] {
      var n := UrlLength(t);
      if n > 0 {
        StrippedUrlFollows(t);
        assert false;
      } else {
        var rest := StripUrls(t[1..]);
        assert StripUrls(t) == [t[0]] + rest;
        var v := u[1..];
        assert forall i :: 0 <= i < |v| ==> rest[i] == v[i] by {
          forall i | 0 <= i < |v| ensures rest[i] == v[i] { assert StripUrls(t)[i + 1] == u[i + 1]; }
        }
        assert SpaceFree(v) by {
          forall i | 0 <= i < |v| ensures !IsSpace(v[i]) { assert v[i] == u[i + 1]; }
        }
        StripUrlsPrefix(t[1..], v);
        forall i | 0 <= i < |u| ensures t[i] == u[i] {
          if i > 0 { assert t[i] == t[1..][i - 1]; }
        }
      }
    }
  }

  /** After the stripping no match is left anywhere. */
  lemma {:induction false} StripUrlsLeavesNone(s: string)
    ensures !HasUrl(StripUrls(s))
    decreases |s|
  {
    if s != [] {
      var n := UrlLength(s);
      if n > 0 {
        StripUrlsLeavesNone(s[n..]);
      } else {
        var rest := StripUrls(s[1..]);
        StripUrlsLeavesNone(s[1..]);
        var r := [s[0]] + rest;
        assert StripUrls(s) == r;
        forall p | 0 <= p < |r| ensures UrlLength(r[p..]) == 0 {
          if p > 0 {
            assert r[p..] == rest[p - 1..];
          } else {
            StartNotUrl(s, rest);
          }
        }
      }
    }
  }

  /** Where no match starts in `s`, none starts in `s[0]` followed by the stripped rest either. */
  lemma StartNotUrl(s: string, rest: string)
    requires s != [] && UrlLength(s) == 0 && rest == StripUrls(s[1..])
    ensures UrlLength([s[0]] + rest) == 0
  {
    if UrlLength([s[0]] + rest) > 0 {
      UrlStartCarries(s, rest);
      assert false;
    }
  }

  /** A match at the start of `s[0]` followed by the stripped rest has its scheme and next character in `s` already. */
  lemma UrlStartCarries(s: string, rest: string)
    requires s != [] && rest == StripUrls(s[1..]) && UrlLength([s[0]] + rest) > 0
    ensures SchemeLength(s) > 0 && SchemeLength(s) < |s| && !IsSpace(s[SchemeLength(s)])
  {
    var r := [s[0]] + rest;
    var k := SchemeLength(r);
    var u := r[1..k + 1];
    UrlHeadPrefix(s, rest, u, k);
    forall i | 0 <= i < k + 1 ensures s[i] == r[i] {
      if i > 0 { assert s[i] == s[1..][i - 1] == u[i - 1]; }
    }
    SchemeAgrees(r, s, k + 1);
  }

  /** The part of the match after its first character is a whitespace-free piece of the stripped rest, hence of `s[1..]`. */
  lemma UrlHeadPrefix(s: string, rest: string, u: string, k: nat)
    requires s != [] && rest == StripUrls(s[1..]) && UrlLength([s[0]] + rest) > 0
    requires k == SchemeLength([s[0]] + rest) && u == ([s[0]] + rest)[1..k + 1]
    ensures |u| <= |s[1..]| && forall i :: 0 <= i < |u| ==> s[1..][i] == u[i]
  {
    var r := [s[0]] + rest;
    SchemeRunSpaceFree(r, k);
    AfterHead(s[0], rest, k);
    StripUrlsPrefix(s[1..], u);
  }

  /** Past the first character, a prefix of `[c] + rest` is read from `rest`. */
  lemma AfterHead(c: char, rest: string, k: nat)
    requires k < |rest| + 1
    ensures var u := ([c] + rest)[1..k + 1]; |u| <= |rest| && forall i :: 0 <= i < |u| ==> rest[i] == u[i]
  {
    assert ([c] + rest)[1..k + 1] == rest[..k];
  }

  /** The characters after the first one of a scheme, and the one following it, are no whitespace. */
  lemma SchemeRunSpaceFree(r: string, k: nat)
    requires 0 < k < |r| && !IsSpace(r[k])
    requires forall i :: 1 <= i < k ==> !IsSpace(r[i])
    ensures SpaceFree(r[1..k + 1])
  {
    var u := r[1..k + 1];
    forall i | 0 <= i < |u| ensures !IsSpace(u[i]) { assert u[i] == r[i + 1]; }
  }

  /** One of the four ranges `cleanText` deletes: U+1F300–1F9FF, U+2600–27BF, U+2300–23FF, U+2000–206F. */
  predicate IsEmoji(c: char) {
    var n := c as int;
    (0x1F300 <= n <= 0x1F9FF) || (0x2600 <= n <= 0x27BF) || (0x2300 <= n <= 0x23FF) || (0x2000 <= n <= 0x206F)
  }

  /** `s.replace(/[lo-hi]/gu, '')`. */
  function RemoveRange(s: string, lo: int, hi: int): (r: string)
    ensures forall k :: 0 <= k < |r| ==> !(lo <= r[k] as int <= hi)
    decreases |s|
  {
    if s == [] then [] else (if lo <= s[0] as int <= hi then [] else [s[0]]) + RemoveRange(s[1..], lo, hi)
  }

  lemma {:induction false} RemoveRangeAppend(a: string, b: string, lo: int, hi: int)
    ensures RemoveRange(a + b, lo, hi) == RemoveRange(a, lo, hi) + RemoveRange(b, lo, hi)
    decreases |a|
  {
    if a == [] {
      assert a + b == b;
    } else {
      assert (a + b)[1..] == a[1..] + b;
      RemoveRangeAppend(a[1..], b, lo, hi);
    }
  }

  /** The four replacements of the emoji stage, in their order. */
  function RemoveEmojis(s: string): string {
    RemoveRange(RemoveRange(RemoveRange(RemoveRange(s, 0x1F300, 0x1F9FF), 0x2600, 0x27BF), 0x2300, 0x23FF), 0x2000, 0x206F)
  }

  /** The reference filter: a character is kept exactly when it lies in none of the four ranges. */
  function WithoutEmojis(s: string): (r: string)
    ensures forall k :: 0 <= k < |r| ==> !IsEmoji(r[k]) && r[k] in s
    decreases |s|
  {
    if s == [] then [] else (if IsEmoji(s[0]) then [] else [s[0]]) + WithoutEmojis(s[1..])
  }

  /** The four stages together delete exactly the characters of the four ranges and keep the rest in order. */
  lemma {:induction false} RemoveEmojisExact(s: string)
    ensures RemoveEmojis(s) == WithoutEmojis(s)
    decreases |s|
  {
    if s != [] {
      var c := [s[0]];
      assert s == c + s[1..];
      RemoveRangeAppend(c, s[1..], 0x1F300, 0x1F9FF);
      var a1, b1 := RemoveRange(c, 0x1F300, 0x1F9FF), RemoveRange(s[1..], 0x1F300, 0x1F9FF);
      RemoveRangeAppend(a1, b1, 0x2600, 0x27BF);
      var a2, b2 := RemoveRange(a1, 0x2600, 0x27BF), RemoveRange(b1, 0x2600, 0x27BF);
      RemoveRangeAppend(a2, b2, 0x2300, 0x23FF);
      var a3, b3 := RemoveRange(a2, 0x2300, 0x23FF), RemoveRange(b2, 0x2300, 0x23FF);
      RemoveRangeAppend(a3, b3, 0x2000, 0x206F);
      assert RemoveRange(a3, 0x2000, 0x206F) == if IsEmoji(s[0]) then [] else c;
      RemoveEmojisExact(s[1..]);
    }
  }

  /** `.replace(/\r\n/g, '\n')`. */
  function CrlfToLf(s: string): (r: string)
    ensures DeleteSpaces(r) == DeleteSpaces(s)
    ensures forall k :: 0 <= k < |r| ==> r[k] in s
    decreases |s|
  {
    if |s| >= 2 && s[0] == '\r' && s[1] == '\n' then
      var rest := CrlfToLf(s[2..]);
      assert s == [s[0]] + [s[1]] + s[2..];
      DeleteSpacesAppend([s[0]] + [s[1]], s[2..]);
      DeleteSpacesAppend(['\n'], rest);
      assert DeleteSpaces([s[0]] + [s[1]]) == [];
      ['\n'] + rest
    else if s == [] then []
    else
      var rest := CrlfToLf(s[1..]);
      assert s == [s[0]] + s[1..];
      DeleteSpacesAppend([s[0]], s[1..]);
      DeleteSpacesAppend([s[0]], rest);
      [s[0]] + rest
  }

  /** `.replace(/X+/g, ' ')` for the class X of `p`: every maximal run of it becomes one space. */
  function Collapse(s: string, p: char -> bool): (r: string)
    ensures forall k :: 0 <= k < |r| ==> r[k] == ' ' || (r[k] in s && !p(r[k]))
    ensures s != [] && !p(s[0]) ==> r != [] && r[0] == s[0]
    decreases |s|
  {
    if s == [] then []
    else if p(s[0]) then
      var n := RunLength(s, p);
      " " + Collapse(s[n..], p)
    else [s[0]] + Collapse(s[1..], p)
  }

  /** Collapsing a class of whitespace characters keeps the text apart from whitespace. */
  lemma {:induction false} CollapseKeepsText(s: string, p: char -> bool)
    requires forall c :: p(c) ==> IsSpace(c)
    ensures DeleteSpaces(Collapse(s, p)) == DeleteSpaces(s)
    decreases |s|
  {
    if s != [] {
      if p(s[0]) {
        var n := RunLength(s, p);
        CollapseKeepsText(s[n..], p);
        DeleteSpacesAppend(" ", Collapse(s[n..], p));
        assert s == s[..n] + s[n..];
        DeleteSpacesAppend(s[..n], s[n..]);
        DeleteSpacesCases(s[..n]);
        DeleteSpacesCases(" ");
      } else {
        CollapseKeepsText(s[1..], p);
        assert s == [s[0]] + s[1..];
        DeleteSpacesAppend([s[0]], s[1..]);
        DeleteSpacesAppend([s[0]], Collapse(s[1..], p));
      }
    }
  }

  /** Collapsing all whitespace leaves single plain spaces only. */
  lemma {:induction false} CollapseSpaces(s: string)
    ensures NoDoubleSpace(Collapse(s, IsSpace)) && OnlyBlanks(Collapse(s, IsSpace))
    decreases |s|
  {
    if s != [] {
      var r := Collapse(s, IsSpace);
      if IsSpace(s[0]) {
        var n := RunLength(s, IsSpace);
        CollapseSpaces(s[n..]);
        var rest := Collapse(s[n..], IsSpace);
        assert r == " " + rest;
        assert rest != [] ==> !IsSpace(rest[0]);
        forall k | 0 <= k < |r| - 1 ensures !(IsSpace(r[k]) && IsSpace(r[k + 1])) {
          if k > 0 { assert r[k] == rest[k - 1] && r[k + 1] == rest[k]; }
        }
      } else {
        CollapseSpaces(s[1..]);
        var rest := Collapse(s[1..], IsSpace);
        assert r == [s[0]] + rest;
        forall k | 0 <= k < |r| - 1 ensures !(IsSpace(r[k]) && IsSpace(r[k + 1])) {
          if k > 0 { assert r[k] == rest[k - 1] && r[k + 1] == rest[k]; }
        }
      }
    }
  }

  /** The whitespace stage: CRLF to LF, runs of newlines to a space, runs of whitespace to a space, `trim`. */
  function Normalize(s: string): string {
    Trim(Collapse(Collapse(CrlfToLf(s), IsNewline), IsSpace))
  }

  /**
   * The whitespace stage leaves no whitespace at the ends, no two whitespace
   * characters together and none but the plain space; it deletes or adds
   * nothing but whitespace, and every other character comes from its input.
   */
  lemma NormalizeWhitespace(s: string)
    ensures var r := Normalize(s);
      IsTrimmed(r) && NoDoubleSpace(r) && OnlyBlanks(r)
      && DeleteSpaces(r) == DeleteSpaces(s)
      && forall k :: 0 <= k < |r| ==> r[k] == ' ' || r[k] in s
  {
    NormalizeShape(s);
    NormalizeText(s);
  }

  /** The whitespace stage's result is trimmed, with single plain spaces. */
  lemma NormalizeShape(s: string)
    ensures var r := Normalize(s); IsTrimmed(r) && NoDoubleSpace(r) && OnlyBlanks(r)
  {
    var s2 := Collapse(CrlfToLf(s), IsNewline);
    CollapseSpaces(s2);
    var s3 := Collapse(s2, IsSpace);
    var i := TrimIsSlice(s3);
    SliceShape(s3, i, Trim(s3));
  }

  /** The whitespace stage keeps what is read out, and adds no character but the plain space. */
  lemma NormalizeText(s: string)
    ensures DeleteSpaces(Normalize(s)) == DeleteSpaces(s)
    ensures forall k :: 0 <= k < |Normalize(s)| ==> Normalize(s)[k] == ' ' || Normalize(s)[k] in s
  {
    NormalizeReads(s);
    NormalizeFrom(s);
  }

  /** Every character of the whitespace stage's result is a plain space or one of the input's. */
  lemma NormalizeFrom(s: string)
    ensures forall k :: 0 <= k < |Normalize(s)| ==> Normalize(s)[k] == ' ' || Normalize(s)[k] in s
  {
    var s1 := CrlfToLf(s);
    var s2 := Collapse(s1, IsNewline);
    CollapsedFrom(s, s1, s2, Collapse(s2, IsSpace));
    TrimFrom(Collapse(s2, IsSpace), s);
  }

  /** `trim` adds no character. */
  lemma TrimFrom(t: string, s: string)
    requires forall k :: 0 <= k < |t| ==> t[k] == ' ' || t[k] in s
    ensures forall k :: 0 <= k < |Trim(t)| ==> Trim(t)[k] == ' ' || Trim(t)[k] in s
  {
    var i := TrimIsSlice(t);
    SliceFrom(t, i, Trim(t), s);
  }

  /** Each step of the whitespace stage keeps what is read out. */
  lemma NormalizeReads(s: string)
    ensures DeleteSpaces(Normalize(s)) == DeleteSpaces(s)
  {
    var s1 := CrlfToLf(s);
    CollapseKeepsText(s1, IsNewline);
    CollapseKeepsText(Collapse(s1, IsNewline), IsSpace);
  }

  /** After the three rewriting steps every character is a plain space or one of the input's. */
  lemma CollapsedFrom(s: string, s1: string, s2: string, s3: string)
    requires s1 == CrlfToLf(s) && s2 == Collapse(s1, IsNewline) && s3 == Collapse(s2, IsSpace)
    ensures forall k :: 0 <= k < |s3| ==> s3[k] == ' ' || s3[k] in s
  {
    forall k | 0 <= k < |s3| && s3[k] != ' ' ensures s3[k] in s {
      assert s3[k] in s2;
      var j :| 0 <= j < |s2| && s2[j] == s3[k];
      assert s2[j] != ' ' ==> s2[j] in s1;
    }
  }

  /** A piece of a text with single plain spaces has single plain spaces. */
  lemma SliceShape(t: string, i: nat, r: string)
    requires i + |r| <= |t| && r == t[i..i + |r|]
    requires NoDoubleSpace(t) && OnlyBlanks(t)
    ensures NoDoubleSpace(r) && OnlyBlanks(r)
  {
    forall k | 0 <= k < |r| ensures r[k] == t[i + k] { }
  }

  /** A piece of a text whose characters are plain spaces or from `s` has the same property. */
  lemma SliceFrom(t: string, i: nat, r: string, s: string)
    requires i + |r| <= |t| && r == t[i..i + |r|]
    requires forall k :: 0 <= k < |t| ==> t[k] == ' ' || t[k] in s
    ensures forall k :: 0 <= k < |r| ==> r[k] == ' ' || r[k] in s
  {
    forall k | 0 <= k < |r| ensures r[k] == ' ' || r[k] in s {
      assert r[k] == t[i + k];
    }
  }

  /** The options of `cleanText` and `processText` (each is given; the defaults are DefaultOptions). */
  datatype Options = Options(removeMarkdown: bool, removeEmojis: bool, removeUrls: bool, removeHtmlTags: bool,
                             normalizeWhitespace: bool, maxLength: int, minLength: int, shouldClean: bool,
                             chunkSize: int)

  const DefaultOptions: Options := Options(true, true, true, true, true, 10000, 1, true, 500)

  /**
   * `cleanText(text, options)`: tags, then Markdown (the parameter
   * `markdown`), then URLs, then the four emoji ranges, then whitespace. With
   * the emoji stage on, no emoji character is left; with the whitespace stage
   * on, the result is trimmed with single plain spaces.
   */
  function CleanText(text: string, o: Options, markdown: string -> string): (r: string)
    ensures o.removeEmojis ==> forall k :: 0 <= k < |r| ==> !IsEmoji(r[k])
    ensures o.normalizeWhitespace ==> IsTrimmed(r) && NoDoubleSpace(r) && OnlyBlanks(r)
  {
    var s1 := if o.removeHtmlTags then StripTags(text) else text;
    var s2 := if o.removeMarkdown then markdown(s1) else s1;
    var s3 := if o.removeUrls then StripUrls(s2) else s2;
    var s4 := if o.removeEmojis then RemoveEmojis(s3) else s3;
    RemoveEmojisExact(s3);
    NormalizeWhitespace(s4);
    if o.normalizeWhitespace then Normalize(s4) else s4
  }

  // ---------------------------------------------------------------------
  // `smartChunkText`: sentences, then words for an overlong sentence.
  // ---------------------------------------------------------------------

  predicate IsSentenceMark(c: char) {
    c == '。' || c == '！' || c == '？' || c == '\n'
  }

  predicate IsStop(c: char) {
    c == '.' || c == '!' || c == '?'
  }

  /** The end of the run of whitespace that starts at position `q`. */
  function SpaceEnd(s: string, q: nat): (e: nat)
    requires q <= |s|
    ensures q <= e <= |s|
    ensures forall k :: q <= k < e ==> IsSpace(s[k])
    ensures e < |s| ==> !IsSpace(s[e])
    decreases |s| - q
  {
    if q < |s| && IsSpace(s[q]) then SpaceEnd(s, q + 1) else q
  }

  /** The end of the run of characters other than whitespace that starts at position `q`. */
  function WordEnd(s: string, q: nat): (e: nat)
    requires q <= |s|
    ensures q <= e <= |s|
    ensures forall k :: q <= k < e ==> !IsSpace(s[k])
    ensures e < |s| ==> IsSpace(s[e])
    decreases |s| - q
  {
    if q < |s| && !IsSpace(s[q]) then WordEnd(s, q + 1) else q
  }

  /**
   * The length of the match of `[。！？\n]|[\.\!\?]\s+` at position `p`, 0
   * when it does not match there: a mark alone, or a stop with all the
   * whitespace after it (the `+` is greedy).
   */
  function DelimiterAt(s: string, p: nat): (n: nat)
    requires p <= |s|
    ensures p + n <= |s|
  {
    if p == |s| then 0
    else if IsSentenceMark(s[p]) then 1
    else if IsStop(s[p]) && SpaceEnd(s, p + 1) > p + 1 then SpaceEnd(s, p + 1) - p
    else 0
  }

  /** The first position at or after `q` where a delimiter matches, or |s|. */
  function NextDelimiter(s: string, q: nat): (p: nat)
    requires q <= |s|
    ensures q <= p <= |s|
    ensures p < |s| ==> DelimiterAt(s, p) > 0
    ensures forall k :: q <= k < p ==> DelimiterAt(s, k) == 0
    decreases |s| - q
  {
    if q == |s| || DelimiterAt(s, q) > 0 then q else NextDelimiter(s, q + 1)
  }

  /** `s[q..].split(/(delimiter)/g)`: the text between delimiters, each delimiter kept as a piece of its own. */
  function SplitFrom(s: string, q: nat): seq<string>
    requires q <= |s|
    decreases |s| - q
  {
    var p := NextDelimiter(s, q);
    if p == |s| then [s[q..]]
    else
      var d := DelimiterAt(s, p);
      [s[q..p], s[p..p + d]] + SplitFrom(s, p + d)
  }

  /** The pieces of the split, put back together, are the text. */
  lemma {:induction false} SplitFromConcat(s: string, q: nat)
    requires q <= |s|
    ensures Concat(SplitFrom(s, q)) == s[q..]
    decreases |s| - q
  {
    var p := NextDelimiter(s, q);
    if p == |s| {
      ConcatOne(s[q..]);
    } else {
      var d := DelimiterAt(s, p);
      SplitFromConcat(s, p + d);
      ConcatTwoFront(s[q..p], s[p..p + d], SplitFrom(s, p + d));
      SuffixThree(s, q, p, p + d);
    }
  }

  /** A non-empty piece with something besides whitespace. */
  predicate HasContent(s: string) {
    s != [] && !AllSpaces(s)
  }

  /** HasContent is the filter's test `s && s.trim()`: non-empty, and non-empty once trimmed. */
  lemma HasContentTrim(s: string)
    ensures HasContent(s) <==> s != [] && Trim(s) != []
  {
  }

  /** `.filter(s => s && s.trim())`. */
  function KeepContent(pieces: seq<string>): seq<string>
    decreases |pieces|
  {
    if pieces == [] then []
    else (if HasContent(pieces[0]) then [pieces[0]] else []) + KeepContent(pieces[1..])
  }

  /** The filter keeps the pieces with content, and only whitespace goes. */
  lemma KeepContentFacts(pieces: seq<string>)
    ensures forall k :: 0 <= k < |KeepContent(pieces)| ==> HasContent(KeepContent(pieces)[k])
    ensures DeleteSpaces(Concat(KeepContent(pieces))) == DeleteSpaces(Concat(pieces))
  {
    KeepContentHas(pieces);
    KeepContentReads(pieces);
  }

  /** Every piece the filter keeps has content. */
  lemma {:induction false} KeepContentHas(pieces: seq<string>)
    ensures forall k :: 0 <= k < |KeepContent(pieces)| ==> HasContent(KeepContent(pieces)[k])
    decreases |pieces|
  {
    if pieces != [] {
      KeepContentHas(pieces[1..]);
    }
  }

  /** What the filter drops is whitespace only. */
  lemma {:induction false} KeepContentReads(pieces: seq<string>)
    ensures DeleteSpaces(Concat(KeepContent(pieces))) == DeleteSpaces(Concat(pieces))
    decreases |pieces|
  {
    if pieces != [] {
      var rest := KeepContent(pieces[1..]);
      var head := if HasContent(pieces[0]) then [pieces[0]] else [];
      KeepContentReads(pieces[1..]);
      ConcatJoin(head, rest);
      DeleteSpacesAppend(Concat(head), Concat(rest));
      DeleteSpacesAppend(pieces[0], Concat(pieces[1..]));
      assert Concat(head) == if HasContent(pieces[0]) then pieces[0] else [] by {
        if HasContent(pieces[0]) { assert Concat(head) == pieces[0] + Concat(head[1..]); }
      }
      DeleteSpacesCases(pieces[0]);
    }
  }

  /** The sentences the loop of `smartChunkText` goes through. */
  function Sentences(text: string): seq<string> {
    KeepContent(SplitFrom(text, 0))
  }

  /** Every sentence has content, and together they read as the text. */
  lemma SentencesFacts(text: string)
    ensures forall k :: 0 <= k < |Sentences(text)| ==> HasContent(Sentences(text)[k])
    ensures DeleteSpaces(Concat(Sentences(text))) == DeleteSpaces(text)
  {
    SplitFromConcat(text, 0);
    KeepContentFacts(SplitFrom(text, 0));
    assert text[0..] == text;
  }

  /** `s[q..].split(/\s+/)`: the pieces between maximal runs of whitespace, with an empty one before a leading run and after a trailing run. */
  function WordsFrom(s: string, q: nat): seq<string>
    requires q <= |s|
    decreases |s| - q
  {
    var p := WordEnd(s, q);
    if p == |s| then [s[q..]]
    else [s[q..p]] + WordsFrom(s, SpaceEnd(s, p))
  }

  /** There is at least one word, no word holds whitespace, and the words together are the text without its whitespace. */
  lemma {:induction false} WordsFromFacts(s: string, q: nat)
    requires q <= |s|
    ensures |WordsFrom(s, q)| >= 1
    ensures forall k :: 0 <= k < |WordsFrom(s, q)| ==> SpaceFree(WordsFrom(s, q)[k])
    ensures Concat(WordsFrom(s, q)) == DeleteSpaces(s[q..])
    decreases |s| - q
  {
    var p := WordEnd(s, q);
    if p == |s| {
      ConcatOne(s[q..]);
      assert SpaceFree(s[q..]);
      DeleteSpacesCases(s[q..]);
    } else {
      var e := SpaceEnd(s, p);
      WordsFromFacts(s, e);
      SuffixThree(s, q, p, e);
      WordThenSpaces(s[q..p], s[p..e], s[e..]);
      ConcatJoin([s[q..p]], WordsFrom(s, e));
      ConcatOne(s[q..p]);
    }
  }

  /** A word followed by whitespace reads as the word and then whatever follows. */
  lemma WordThenSpaces(w: string, m: string, b: string)
    requires SpaceFree(w) && AllSpaces(m)
    ensures DeleteSpaces(w + m + b) == w + DeleteSpaces(b)
  {
    calc {
      DeleteSpaces(w + m + b);
      { DeleteSpacesAppend(w + m, b); }
      DeleteSpaces(w + m) + DeleteSpaces(b);
      { DeleteSpacesAppend(w, m); DeleteSpacesAll(m); }
      DeleteSpaces(w) + DeleteSpaces(b);
      { DeleteSpacesFree(w); }
      w + DeleteSpaces(b);
    }
  }

  lemma DeleteSpacesFree(s: string)
    requires SpaceFree(s)
    ensures DeleteSpaces(s) == s
  {
    DeleteSpacesCases(s);
  }

  lemma DeleteSpacesAll(s: string)
    requires AllSpaces(s)
    ensures DeleteSpaces(s) == []
  {
    DeleteSpacesCases(s);
  }

  /** `sentence.split(/\s+/)`. */
  function SplitWords(s: string): seq<string> {
    WordsFrom(s, 0)
  }

  /** What the loop carries: the chunks pushed so far and the chunk being built (`currentChunk`, or `wordChunk` in the inner loop). */
  datatype Chunking = Chunking(chunks: seq<string>, current: string)

  /** `if (c) chunks.push(c)`: what is pushed. */
  function Pushed(c: string): seq<string> {
    if c != [] then [c] else []
  }

  /**
   * The loops as written (AsWritten) and as intended (Corrected). As written,
   * a word joins `wordChunk` when the two fit without the space that joins
   * them, and `currentChunk` keeps its old value, although already pushed,
   * when the inner loop ends with an empty `wordChunk`. Corrected counts the
   * joined chunk as it will be and always takes `wordChunk` over.
   */
  datatype Variant = AsWritten | Corrected

  /** The test of the inner loop: does `word` join `wordChunk`? */
  predicate WordFits(v: Variant, current: string, word: string, max: int) {
    if v == AsWritten then Utf16Length(current + word) <= max
    else Utf16Length(Trim(current + " " + word)) <= max
  }

  /** One word of the inner loop. */
  function WordStep(v: Variant, a: Chunking, word: string, max: int): Chunking {
    if WordFits(v, a.current, word, max) then Chunking(a.chunks, Trim(a.current + " " + word))
    else Chunking(a.chunks + Pushed(a.current), word)
  }

  /** The inner loop after its first `k` words. */
  function WordsUpTo(v: Variant, a: Chunking, words: seq<string>, k: nat, max: int): Chunking
    requires k <= |words|
    decreases k
  {
    if k == 0 then a else WordStep(v, WordsUpTo(v, a, words, k - 1, max), words[k - 1], max)
  }

  /** One sentence of the outer loop. */
  function SentenceStep(v: Variant, a: Chunking, sentence: string, max: int): Chunking {
    var candidate := Trim(a.current + sentence);
    if Utf16Length(candidate) <= max then Chunking(a.chunks, candidate)
    else
      var pushed := a.chunks + Pushed(a.current);
      if Utf16Length(sentence) > max then
        var words := SplitWords(sentence);
        var w := WordsUpTo(v, Chunking(pushed, ""), words, |words|, max);
        Chunking(w.chunks, if v == AsWritten && w.current == [] then a.current else w.current)
      else Chunking(pushed, Trim(sentence))
  }

  /** The outer loop after its first `k` sentences. */
  function SentencesUpTo(v: Variant, sentences: seq<string>, k: nat, max: int): Chunking
    requires k <= |sentences|
    decreases k
  {
    if k == 0 then Chunking([], "") else SentenceStep(v, SentencesUpTo(v, sentences, k - 1, max), sentences[k - 1], max)
  }

  /** `smartChunkText(text, max)`. */
  function ChunkText(v: Variant, text: string, max: int): seq<string> {
    if text == [] then []
    else
      var a := SentencesUpTo(v, Sentences(text), |Sentences(text)|, max);
      a.chunks + Pushed(Trim(a.current))
  }

  /** No longer than `max` code units, unless it is a single word that cannot be split. */
  predicate Fits(c: string, max: int) {
    Utf16Length(c) <= max || SpaceFree(c)
  }

  predicate GoodCurrent(c: string, max: int) {
    IsTrimmed(c) && Fits(c, max)
  }

  /** Every chunk is non-empty, trimmed and fits. */
  predicate GoodChunks(cs: seq<string>, max: int) {
    forall k :: 0 <= k < |cs| ==> cs[k] != [] && GoodCurrent(cs[k], max)
  }

  predicate Good(a: Chunking, max: int) {
    GoodChunks(a.chunks, max) && GoodCurrent(a.current, max)
  }

  /** What is read out of the chunks pushed and the one being built. */
  function Heard(a: Chunking): string {
    DeleteSpaces(Concat(a.chunks) + a.current)
  }

  lemma HeardSplit(a: Chunking)
    ensures Heard(a) == DeleteSpaces(Concat(a.chunks)) + DeleteSpaces(a.current)
  {
    DeleteSpacesAppend(Concat(a.chunks), a.current);
  }

  /** Pushing the chunk being built keeps the chunks good and what is heard. */
  lemma PushFacts(a: Chunking, max: int)
    requires Good(a, max)
    ensures GoodChunks(a.chunks + Pushed(a.current), max)
    ensures DeleteSpaces(Concat(a.chunks + Pushed(a.current))) == Heard(a)
  {
    if a.current != [] {
      ConcatAppend(a.chunks, a.current);
    } else {
      assert a.chunks + Pushed(a.current) == a.chunks;
      assert Concat(a.chunks) + a.current == Concat(a.chunks);
    }
  }

  /** A word without whitespace is already trimmed. */
  lemma SpaceFreeTrimmed(w: string)
    requires SpaceFree(w)
    ensures IsTrimmed(w)
  {
    if w != [] {
      assert !IsSpace(w[0]) && !IsSpace(w[|w| - 1]);
    }
  }

  /** A word joined with a space reads as the two side by side. */
  lemma JoinedHeard0(current: string, word: string)
    requires SpaceFree(word)
    ensures DeleteSpaces(current + " " + word) == DeleteSpaces(current) + word
  {
    DeleteSpacesAppend(current + " ", word);
    DeleteSpacesFree(word);
    SpaceGone(current);
  }

  lemma SpaceGone(current: string)
    ensures DeleteSpaces(current + " ") == DeleteSpaces(current)
  {
    DeleteSpacesAppend(current, " ");
    DeleteSpacesAll(" ");
  }

  /** One corrected word step keeps the chunks good and adds the word to what is heard. */
  lemma WordStepFacts(a: Chunking, word: string, max: int)
    requires Good(a, max) && SpaceFree(word)
    ensures Good(WordStep(Corrected, a, word, max), max)
    ensures Heard(WordStep(Corrected, a, word, max)) == Heard(a) + word
  {
    if WordFits(Corrected, a.current, word, max) {
      JoinedHeard0(a.current, word);
      ReplaceCurrent(a, Trim(a.current + " " + word), word, max);
    } else {
      SpaceFreeTrimmed(word);
      DeleteSpacesFree(word);
      PushThen(a, word, word, max);
    }
  }

  /** The chunk being built replaced by a good one that reads as it plus `more`. */
  lemma ReplaceCurrent(a: Chunking, t: string, more: string, max: int)
    requires GoodChunks(a.chunks, max) && GoodCurrent(t, max)
    requires DeleteSpaces(t) == DeleteSpaces(a.current) + more
    ensures Good(Chunking(a.chunks, t), max)
    ensures Heard(Chunking(a.chunks, t)) == Heard(a) + more
  {
    HeardSplit(a);
    HeardSplit(Chunking(a.chunks, t));
    AppendAssoc(DeleteSpaces(Concat(a.chunks)), DeleteSpaces(a.current), more);
  }

  /** The chunk being built pushed, and a good one that reads as `more` started. */
  lemma PushThen(a: Chunking, t: string, more: string, max: int)
    requires Good(a, max) && GoodCurrent(t, max)
    requires DeleteSpaces(t) == more
    ensures Good(Chunking(a.chunks + Pushed(a.current), t), max)
    ensures Heard(Chunking(a.chunks + Pushed(a.current), t)) == Heard(a) + more
  {
    PushFacts(a, max);
    HeardSplit(Chunking(a.chunks + Pushed(a.current), t));
  }

  /** The corrected inner loop keeps the chunks good, and what is heard grows by its words. */
  lemma {:induction false} WordsUpToFacts(a: Chunking, words: seq<string>, k: nat, max: int)
    requires k <= |words|
    requires Good(a, max)
    requires forall i :: 0 <= i < |words| ==> SpaceFree(words[i])
    ensures Good(WordsUpTo(Corrected, a, words, k, max), max)
    ensures Heard(WordsUpTo(Corrected, a, words, k, max)) == Heard(a) + Concat(words[..k])
    decreases k
  {
    if k == 0 {
      assert words[..0] == [];
    } else {
      WordsUpToFacts(a, words, k - 1, max);
      WordsUpToStep(a, words, k, max);
      TakeSnoc(words, k);
      ConcatAppend(words[..k - 1], words[k - 1]);
      AppendAssoc(Heard(a), Concat(words[..k - 1]), words[k - 1]);
    }
  }

  lemma WordsUpToStep(a: Chunking, words: seq<string>, k: nat, max: int)
    requires 0 < k <= |words|
    requires Good(WordsUpTo(Corrected, a, words, k - 1, max), max) && SpaceFree(words[k - 1])
    ensures Good(WordsUpTo(Corrected, a, words, k, max), max)
    ensures Heard(WordsUpTo(Corrected, a, words, k, max)) == Heard(WordsUpTo(Corrected, a, words, k - 1, max)) + words[k - 1]
  {
    WordStepFacts(WordsUpTo(Corrected, a, words, k - 1, max), words[k - 1], max);
  }

  /** The words of an overlong sentence, as the corrected inner loop leaves them. */
  lemma LongSentenceFacts(pushed: seq<string>, sentence: string, max: int)
    requires GoodChunks(pushed, max)
    ensures Good(WordsUpTo(Corrected, Chunking(pushed, ""), SplitWords(sentence), |SplitWords(sentence)|, max), max)
    ensures Heard(WordsUpTo(Corrected, Chunking(pushed, ""), SplitWords(sentence), |SplitWords(sentence)|, max))
         == DeleteSpaces(Concat(pushed)) + DeleteSpaces(sentence)
  {
    var words := SplitWords(sentence);
    WordsFromFacts(sentence, 0);
    assert sentence[0..] == sentence;
    WordsUpToFacts(Chunking(pushed, ""), words, |words|, max);
    assert words[..|words|] == words;
    assert Concat(pushed) + "" == Concat(pushed);
  }

  /** One corrected sentence step keeps the chunks good and adds the sentence to what is heard. */
  lemma SentenceStepFacts(a: Chunking, sentence: string, max: int)
    requires Good(a, max)
    ensures Good(SentenceStep(Corrected, a, sentence, max), max)
    ensures Heard(SentenceStep(Corrected, a, sentence, max)) == Heard(a) + DeleteSpaces(sentence)
  {
    var candidate := Trim(a.current + sentence);
    if Utf16Length(candidate) <= max {
      DeleteSpacesAppend(a.current, sentence);
      ReplaceCurrent(a, candidate, DeleteSpaces(sentence), max);
    } else if Utf16Length(sentence) > max {
      PushFacts(a, max);
      LongSentenceFacts(a.chunks + Pushed(a.current), sentence, max);
    } else {
      PushThen(a, Trim(sentence), DeleteSpaces(sentence), max);
    }
  }

  /** The corrected outer loop keeps the chunks good and hears every sentence so far. */
  lemma {:induction false} SentencesUpToFacts(sentences: seq<string>, k: nat, max: int)
    requires k <= |sentences|
    ensures Good(SentencesUpTo(Corrected, sentences, k, max), max)
    ensures Heard(SentencesUpTo(Corrected, sentences, k, max)) == DeleteSpaces(Concat(sentences[..k]))
    decreases k
  {
    if k == 0 {
      assert sentences[..0] == [];
      assert Concat<char>([]) + "" == [];
    } else {
      SentencesUpToFacts(sentences, k - 1, max);
      SentenceStepFacts(SentencesUpTo(Corrected, sentences, k - 1, max), sentences[k - 1], max);
      TakeSnoc(sentences, k);
      ConcatAppend(sentences[..k - 1], sentences[k - 1]);
      DeleteSpacesAppend(Concat(sentences[..k - 1]), sentences[k - 1]);
    }
  }

  /** Good chunks, when there is one, have something to read out. */
  lemma GoodChunksHeard(cs: seq<string>, max: int)
    requires GoodChunks(cs, max) && cs != []
    ensures DeleteSpaces(Concat(cs)) != []
  {
    assert cs[0] != [] && !IsSpace(cs[0][0]);
    DeleteSpacesCases(cs[0]);
    DeleteSpacesAppend(cs[0], Concat(cs[1..]));
  }

  /**
   * The corrected chunker: no chunk at all exactly when the text is only
   * whitespace; every chunk is non-empty, trimmed and at most `max` code
   * units long unless it is a single word; and the chunks read out exactly
   * the text, in order, up to whitespace.
   */
  lemma ChunkTextProperties(text: string, max: int)
    ensures ChunkText(Corrected, text, max) == [] <==> AllSpaces(text)
    ensures GoodChunks(ChunkText(Corrected, text, max), max)
    ensures DeleteSpaces(Concat(ChunkText(Corrected, text, max))) == DeleteSpaces(text)
  {
    var cs := ChunkText(Corrected, text, max);
    if text != [] {
      var ss := Sentences(text);
      SentencesFacts(text);
      SentencesUpToFacts(ss, |ss|, max);
      assert ss[..|ss|] == ss;
      var a := SentencesUpTo(Corrected, ss, |ss|, max);
      assert Trim(a.current) == a.current;
      PushFacts(a, max);
    }
    DeleteSpacesCases(text);
    if cs != [] {
      GoodChunksHeard(cs, max);
    }
  }

  // The chunker as written: one code unit over the limit at most, and
  // no chunk exactly when the text is only whitespace.

  /** Joining with a space adds one code unit to the length the test of text-processor.js:107 measures. */
  lemma JoinedLength(current: string, word: string)
    ensures Utf16Length(Trim(current + " " + word)) <= Utf16Length(current + word) + 1
  {
    Utf16LengthAppend(current + " ", word);
    Utf16LengthAppend(current, " ");
    Utf16LengthAppend(current, word);
  }

  /** One word step as written keeps the chunks good within `max + 1` and adds the word to what is heard. */
  lemma WordStepAsWritten(a: Chunking, word: string, max: int)
    requires Good(a, max + 1) && SpaceFree(word)
    ensures Good(WordStep(AsWritten, a, word, max), max + 1)
    ensures Heard(WordStep(AsWritten, a, word, max)) == Heard(a) + word
  {
    if WordFits(AsWritten, a.current, word, max) {
      JoinedLength(a.current, word);
      JoinedHeard0(a.current, word);
      ReplaceCurrent(a, Trim(a.current + " " + word), word, max + 1);
    } else {
      SpaceFreeTrimmed(word);
      DeleteSpacesFree(word);
      PushThen(a, word, word, max + 1);
    }
  }

  /** The inner loop as written keeps the chunks good within `max + 1`, and what is heard grows by its words. */
  lemma {:induction false} WordsUpToAsWritten(a: Chunking, words: seq<string>, k: nat, max: int)
    requires k <= |words|
    requires Good(a, max + 1)
    requires forall i :: 0 <= i < |words| ==> SpaceFree(words[i])
    ensures Good(WordsUpTo(AsWritten, a, words, k, max), max + 1)
    ensures Heard(WordsUpTo(AsWritten, a, words, k, max)) == Heard(a) + Concat(words[..k])
    decreases k
  {
    if k == 0 {
      assert words[..0] == [];
    } else {
      WordsUpToAsWritten(a, words, k - 1, max);
      WordsUpToStepAsWritten(a, words, k, max);
      TakeSnoc(words, k);
      ConcatAppend(words[..k - 1], words[k - 1]);
      AppendAssoc(Heard(a), Concat(words[..k - 1]), words[k - 1]);
    }
  }

  lemma WordsUpToStepAsWritten(a: Chunking, words: seq<string>, k: nat, max: int)
    requires 0 < k <= |words|
    requires Good(WordsUpTo(AsWritten, a, words, k - 1, max), max + 1) && SpaceFree(words[k - 1])
    ensures Good(WordsUpTo(AsWritten, a, words, k, max), max + 1)
    ensures Heard(WordsUpTo(AsWritten, a, words, k, max)) == Heard(WordsUpTo(AsWritten, a, words, k - 1, max)) + words[k - 1]
  {
    WordStepAsWritten(WordsUpTo(AsWritten, a, words, k - 1, max), words[k - 1], max);
  }

  /** The words of an overlong sentence, as the inner loop as written leaves them. */
  lemma LongSentenceAsWritten(pushed: seq<string>, sentence: string, max: int)
    requires GoodChunks(pushed, max + 1)
    ensures Good(WordsUpTo(AsWritten, Chunking(pushed, ""), SplitWords(sentence), |SplitWords(sentence)|, max), max + 1)
    ensures Heard(WordsUpTo(AsWritten, Chunking(pushed, ""), SplitWords(sentence), |SplitWords(sentence)|, max))
         == DeleteSpaces(Concat(pushed)) + DeleteSpaces(sentence)
  {
    var words := SplitWords(sentence);
    WordsFromFacts(sentence, 0);
    assert sentence[0..] == sentence;
    WordsUpToAsWritten(Chunking(pushed, ""), words, |words|, max);
    assert words[..|words|] == words;
    assert Concat(pushed) + "" == Concat(pushed);
  }

  /**
   * The inner loop ended with nothing in `wordChunk`, and the chunk kept
   * over (`old`, already pushed) is heard a second time: what is heard is
   * empty exactly when it was before the sentence and the sentence is blank.
   */
  lemma KeptOverHeard(a: Chunking, w: Chunking, more: string)
    requires w.current == [] && Heard(w) == Heard(a) + more
    ensures Heard(Chunking(w.chunks, a.current)) == [] <==> Heard(a) + more == []
  {
    HeardSplit(a);
    HeardSplit(w);
    HeardSplit(Chunking(w.chunks, a.current));
  }

  /** One sentence step as written keeps the chunks good within `max + 1`; nothing is heard exactly when nothing was and the sentence is blank. */
  lemma SentenceStepAsWritten(a: Chunking, sentence: string, max: int)
    requires Good(a, max + 1)
    ensures Good(SentenceStep(AsWritten, a, sentence, max), max + 1)
    ensures Heard(SentenceStep(AsWritten, a, sentence, max)) == [] <==> Heard(a) + DeleteSpaces(sentence) == []
  {
    var candidate := Trim(a.current + sentence);
    if Utf16Length(candidate) <= max {
      DeleteSpacesAppend(a.current, sentence);
      ReplaceCurrent(a, candidate, DeleteSpaces(sentence), max + 1);
    } else if Utf16Length(sentence) > max {
      var pushed := a.chunks + Pushed(a.current);
      PushFacts(a, max + 1);
      LongSentenceAsWritten(pushed, sentence, max);
      var words := SplitWords(sentence);
      var w := WordsUpTo(AsWritten, Chunking(pushed, ""), words, |words|, max);
      if w.current == [] {
        KeptOverHeard(a, w, DeleteSpaces(sentence));
      }
    } else {
      PushThen(a, Trim(sentence), DeleteSpaces(sentence), max + 1);
    }
  }

  /** The outer loop as written keeps the chunks good within `max + 1`, and hears nothing exactly when the sentences so far are blank. */
  lemma {:induction false} SentencesUpToAsWritten(sentences: seq<string>, k: nat, max: int)
    requires k <= |sentences|
    ensures Good(SentencesUpTo(AsWritten, sentences, k, max), max + 1)
    ensures Heard(SentencesUpTo(AsWritten, sentences, k, max)) == [] <==> DeleteSpaces(Concat(sentences[..k])) == []
    decreases k
  {
    if k == 0 {
      assert sentences[..0] == [];
      assert Concat<char>([]) + "" == [];
    } else {
      SentencesUpToAsWritten(sentences, k - 1, max);
      SentenceStepAsWritten(SentencesUpTo(AsWritten, sentences, k - 1, max), sentences[k - 1], max);
      TakeSnoc(sentences, k);
      ConcatAppend(sentences[..k - 1], sentences[k - 1]);
      DeleteSpacesAppend(Concat(sentences[..k - 1]), sentences[k - 1]);
    }
  }

  /**
   * The chunker as the source runs it: no chunk at all exactly when the
   * text is only whitespace, and every chunk non-empty, trimmed and at most
   * `max + 1` code units long unless it is a single word. The extra unit is
   * the joining space that the word test leaves out.
   */
  lemma ChunkTextAsWrittenProperties(text: string, max: int)
    ensures ChunkText(AsWritten, text, max) == [] <==> AllSpaces(text)
    ensures GoodChunks(ChunkText(AsWritten, text, max), max + 1)
  {
    var cs := ChunkText(AsWritten, text, max);
    if text != [] {
      var ss := Sentences(text);
      SentencesFacts(text);
      SentencesUpToAsWritten(ss, |ss|, max);
      assert ss[..|ss|] == ss;
      var a := SentencesUpTo(AsWritten, ss, |ss|, max);
      assert Trim(a.current) == a.current;
      PushFacts(a, max + 1);
    }
    DeleteSpacesCases(text);
    if cs != [] {
      GoodChunksHeard(cs, max + 1);
    }
  }

  /** The one sentence and the two words of "a b". */
  lemma SplitAB()
    ensures Sentences("a b") == ["a b"]
    ensures SplitWords("a b") == ["a", "b"]
    ensures Trim("a b") == "a b" && Trim("a") == "a" && Trim("b") == "b" && Utf16Length("a b") == 3
  {
    var t := "a b";
    assert DelimiterAt(t, 0) == 0 && DelimiterAt(t, 1) == 0 && DelimiterAt(t, 2) == 0;
    assert NextDelimiter(t, 0) == 3;
    assert SplitFrom(t, 0) == [t];
    TrimKeeps(t);
    TrimKeeps("a");
    TrimKeeps("b");
    assert WordEnd(t, 0) == 1 && SpaceEnd(t, 1) == 2 && WordEnd(t, 2) == 3;
    assert t[0..1] == "a" && t[2..] == "b";
  }

  lemma TrimSpaceA()
    ensures Trim(" a") == "a"
  {
    assert RunLength(" a", IsSpace) == 1 by {
      assert IsSpace(' ') && !IsSpace('a');
      assert " a"[1..] == "a";
    }
    assert " a"[1..2] == "a";
  }

  lemma WordStepA(v: Variant)
    ensures WordStep(v, Chunking([], ""), "a", 2) == Chunking([], "a")
  {
    TrimSpaceA();
    assert "" + " " + "a" == " a";
  }

  lemma WordStepB()
    ensures WordStep(AsWritten, Chunking([], "a"), "b", 2) == Chunking([], "a b")
    ensures WordStep(Corrected, Chunking([], "a"), "b", 2) == Chunking(["a"], "b")
  {
    SplitAB();
    assert "a" + " " + "b" == "a b";
    assert "a" + "b" == "ab";
  }

  /** The inner loop over the words of "a b", both ways. */
  lemma WordsAB()
    ensures WordsUpTo(AsWritten, Chunking([], ""), ["a", "b"], 2, 2) == Chunking([], "a b")
    ensures WordsUpTo(Corrected, Chunking([], ""), ["a", "b"], 2, 2) == Chunking(["a"], "b")
  {
    WordStepA(AsWritten);
    WordStepA(Corrected);
    WordStepB();
  }

  lemma SentenceStepAB()
    ensures SentenceStep(AsWritten, Chunking([], ""), "a b", 2) == Chunking([], "a b")
    ensures SentenceStep(Corrected, Chunking([], ""), "a b", 2) == Chunking(["a"], "b")
  {
    SplitAB();
    WordsAB();
    EmptyAppend("a b");
  }

  /**
   * As written, a word joins the chunk when the two fit without the space
   * between them, so a chunk can end up one code unit over the maximum.
   */
  lemma OverlongChunk()
    ensures ChunkText(AsWritten, "a b", 2) == ["a b"] && Utf16Length("a b") == 3
  {
    SplitAB();
    SentenceStepAB();
  }

  /** Corrected, the joining space counts, and the two words go to chunks of their own. */
  lemma OverlongChunkCorrected()
    ensures ChunkText(Corrected, "a b", 2) == ["a", "b"]
  {
    SplitAB();
    SentenceStepAB();
  }

  lemma DelimitersDup()
    ensures NextDelimiter("a。bb 。", 0) == 1 && DelimiterAt("a。bb 。", 1) == 1
    ensures NextDelimiter("a。bb 。", 2) == 5 && DelimiterAt("a。bb 。", 5) == 1
    ensures NextDelimiter("a。bb 。", 6) == 6
  {
    var t := "a。bb 。";
    assert DelimiterAt(t, 0) == 0;
    assert DelimiterAt(t, 2) == 0 && DelimiterAt(t, 3) == 0 && DelimiterAt(t, 4) == 0;
  }

  lemma PiecesDup()
    ensures SplitFrom("a。bb 。", 0) == ["a", "。", "bb ", "。", ""]
  {
    var t := "a。bb 。";
    DelimitersDup();
    assert SplitFrom(t, 6) == [""] by { assert t[6..] == ""; }
    assert SplitFrom(t, 2) == ["bb ", "。", ""] by { assert t[2..5] == "bb " && t[5..6] == "。"; }
    assert t[0..1] == "a" && t[1..2] == "。";
  }

  lemma ContentDup()
    ensures HasContent("a") && HasContent("。") && HasContent("bb ") && !HasContent("")
  {
    assert !IsSpace("a"[0]) && !IsSpace("。"[0]) && !IsSpace("bb "[0]);
  }

  /** The four sentences of "a。bb 。". */
  lemma SplitDup(t: string)
    requires t == "a。bb 。"
    ensures Sentences(t) == ["a", "。", "bb ", "。"]
  {
    PiecesDup();
    KeepDup(SplitFrom(t, 0));
  }

  /** Of the five pieces only the empty one after the last "。" has no content. */
  lemma KeepDup(ps: seq<string>)
    requires ps == ["a", "。", "bb ", "。", ""]
    ensures KeepContent(ps) == ["a", "。", "bb ", "。"]
  {
    ContentDup();
    KeepCons("", []);
    KeepCons("。", [""]);
    KeepCons("bb ", ["。", ""]);
    KeepCons("。", ["bb ", "。", ""]);
    KeepCons("a", ["。", "bb ", "。", ""]);
  }

  lemma KeepCons(x: string, rest: seq<string>)
    ensures KeepContent([x] + rest) == (if HasContent(x) then [x] else []) + KeepContent(rest)
  {
    assert ([x] + rest)[1..] == rest;
  }

  /** The words of "bb ": the word and an empty one after the trailing space. */
  lemma WordsDup()
    ensures SplitWords("bb ") == ["bb", ""]
  {
    var t := "bb ";
    assert WordEnd(t, 0) == 2 && SpaceEnd(t, 2) == 3;
    assert t[0..2] == "bb" && t[3..] == "";
  }

  lemma TrimSpaceBB()
    ensures Trim(" bb") == "bb"
  {
    assert RunLength(" bb", IsSpace) == 1 by {
      assert " bb"[1..] == "bb";
      assert RunLength("bb", IsSpace) == 0;
    }
    assert " bb"[1..3] == "bb";
  }

  lemma TrimBBSpace()
    ensures Trim("bb ") == "bb"
  {
    assert TrailingSpaces("bb ") == 1 by {
      assert "bb "[..2] == "bb";
    }
    assert "bb "[0..2] == "bb";
  }

  lemma TrimMarkBB()
    ensures Trim("。bb ") == "。bb"
  {
    assert TrailingSpaces("。bb ") == 1 by {
      assert "。bb "[..3] == "。bb";
    }
    assert RunLength("。bb ", IsSpace) == 0;
    assert "。bb "[0..3] == "。bb";
  }

  /** The word "bb" does not fit into one code unit, so it starts the chunk. */
  lemma WordStepDupFirst(v: Variant)
    ensures WordStep(v, Chunking(["a", "。"], ""), "bb", 1) == Chunking(["a", "。"], "bb")
  {
    BBDoesNotFit(v);
    assert Chunking(["a", "。"], "").current == "";
    assert ["a", "。"] + Pushed("") == ["a", "。"];
  }

  lemma BBDoesNotFit(v: Variant)
    ensures !WordFits(v, "", "bb", 1)
  {
    TrimSpaceBB();
    assert "" + "bb" == "bb" && "" + " " + "bb" == " bb";
  }

  /** The empty word after the trailing space does not fit beside "bb" either, so "bb" is pushed. */
  lemma WordStepDupSecond(v: Variant)
    ensures WordStep(v, Chunking(["a", "。"], "bb"), "", 1) == Chunking(["a", "。", "bb"], "")
  {
    TrimBBSpace();
    assert "bb" + "" == "bb" && "bb" + " " + "" == "bb ";
    assert ["a", "。"] + ["bb"] == ["a", "。", "bb"];
  }

  lemma WordsUpToDup(v: Variant)
    ensures WordsUpTo(v, Chunking(["a", "。"], ""), ["bb", ""], 2, 1) == Chunking(["a", "。", "bb"], "")
  {
    WordStepDupFirst(v);
    WordStepDupSecond(v);
  }

  lemma SentenceStepsDup(v: Variant)
    ensures SentenceStep(v, Chunking([], ""), "a", 1) == Chunking([], "a")
    ensures SentenceStep(v, Chunking([], "a"), "。", 1) == Chunking(["a"], "。")
  {
    assert "" + "a" == "a" && "a" + "。" == "a。";
    TrimKeeps("a");
    TrimKeeps("。");
    TrimKeeps("a。");
  }

  /** The long sentence "bb " after "a" and "。": as written, "。" stays the chunk being built although it is pushed. */
  lemma LongSentenceDup(v: Variant)
    ensures SentenceStep(v, Chunking(["a"], "。"), "bb ", 1)
         == Chunking(["a", "。", "bb"], if v == AsWritten then "。" else "")
  {
    var a := Chunking(["a"], "。");
    assert a.current + "bb " == "。bb ";
    TrimMarkBB();
    assert Utf16Length("。bb") > 1 && Utf16Length("bb ") > 1;
    assert Pushed(a.current) == ["。"];
    assert a.chunks + ["。"] == ["a", "。"];
    WordsDup();
    WordsUpToDup(v);
  }

  lemma LastSentenceDup()
    ensures SentenceStep(AsWritten, Chunking(["a", "。", "bb"], "。"), "。", 1) == Chunking(["a", "。", "bb", "。"], "。")
    ensures SentenceStep(Corrected, Chunking(["a", "。", "bb"], ""), "。", 1) == Chunking(["a", "。", "bb"], "。")
  {
    assert "。" + "。" == "。。" && "" + "。" == "。";
    TrimKeeps("。");
    TrimKeeps("。。");
  }

  /** The outer loop over the four sentences, both ways. */
  lemma SentencesUpToDup(v: Variant, ss: seq<string>)
    requires |ss| == 4 && ss[0] == "a" && ss[1] == "。" && ss[2] == "bb " && ss[3] == "。"
    ensures SentencesUpTo(v, ss, 4, 1)
         == if v == AsWritten then Chunking(["a", "。", "bb", "。"], "。") else Chunking(["a", "。", "bb"], "。")
  {
    DupFirst(v, ss);
    DupSecond(v, ss);
    DupThird(v, ss);
    DupFourth(v, ss);
  }

  lemma DupFirst(v: Variant, ss: seq<string>)
    requires |ss| == 4 && ss[0] == "a"
    ensures SentencesUpTo(v, ss, 1, 1) == Chunking([], "a")
  {
    SentenceStepsDup(v);
    UpToNext(v, ss, 1, 1, Chunking([], ""), "a", Chunking([], "a"));
  }

  lemma DupSecond(v: Variant, ss: seq<string>)
    requires |ss| == 4 && ss[1] == "。"
    requires SentencesUpTo(v, ss, 1, 1) == Chunking([], "a")
    ensures SentencesUpTo(v, ss, 2, 1) == Chunking(["a"], "。")
  {
    SentenceStepsDup(v);
    UpToNext(v, ss, 2, 1, Chunking([], "a"), "。", Chunking(["a"], "。"));
  }

  lemma DupThird(v: Variant, ss: seq<string>)
    requires |ss| == 4 && ss[2] == "bb "
    requires SentencesUpTo(v, ss, 2, 1) == Chunking(["a"], "。")
    ensures SentencesUpTo(v, ss, 3, 1) == Chunking(["a", "。", "bb"], if v == AsWritten then "。" else "")
  {
    LongSentenceDup(v);
    var b := Chunking(["a", "。", "bb"], if v == AsWritten then "。" else "");
    UpToNext(v, ss, 3, 1, Chunking(["a"], "。"), ss[2], b);
  }

  lemma DupFourth(v: Variant, ss: seq<string>)
    requires |ss| == 4 && ss[3] == "。"
    requires SentencesUpTo(v, ss, 3, 1) == Chunking(["a", "。", "bb"], if v == AsWritten then "。" else "")
    ensures SentencesUpTo(v, ss, 4, 1)
         == if v == AsWritten then Chunking(["a", "。", "bb", "。"], "。") else Chunking(["a", "。", "bb"], "。")
  {
    LastSentenceDup();
    if v == AsWritten {
      UpToNext(v, ss, 4, 1, Chunking(["a", "。", "bb"], "。"), "。", Chunking(["a", "。", "bb", "。"], "。"));
    } else {
      UpToNext(v, ss, 4, 1, Chunking(["a", "。", "bb"], ""), "。", Chunking(["a", "。", "bb"], "。"));
    }
  }

  /** The outer loop one sentence further, from known states. */
  lemma UpToNext(v: Variant, ss: seq<string>, k: nat, max: int, a: Chunking, x: string, b: Chunking)
    requires 0 < k <= |ss| && ss[k - 1] == x
    requires SentencesUpTo(v, ss, k - 1, max) == a && SentenceStep(v, a, x, max) == b
    ensures SentencesUpTo(v, ss, k, max) == b
  {
  }

  /** The chunker on "a。bb 。" with room for one code unit, both ways. */
  lemma ChunkTextDup(v: Variant, t: string)
    requires t == "a。bb 。"
    ensures ChunkText(v, t, 1)
         == if v == AsWritten then ["a", "。", "bb", "。", "。"] else ["a", "。", "bb", "。"]
  {
    SplitDup(t);
    ChunkTextDupSentences(v, t, Sentences(t));
  }

  lemma ChunkTextDupSentences(v: Variant, t: string, ss: seq<string>)
    requires t != [] && Sentences(t) == ss
    requires |ss| == 4 && ss[0] == "a" && ss[1] == "。" && ss[2] == "bb " && ss[3] == "。"
    ensures ChunkText(v, t, 1)
         == if v == AsWritten then ["a", "。", "bb", "。", "。"] else ["a", "。", "bb", "。"]
  {
    SentencesUpToDup(v, ss);
    TrimKeeps("。");
    LastPushDup();
    if v == AsWritten {
      ChunkTextOf(v, t, 1, ss, Chunking(["a", "。", "bb", "。"], "。"));
    } else {
      ChunkTextOf(v, t, 1, ss, Chunking(["a", "。", "bb"], "。"));
    }
  }

  lemma LastPushDup()
    ensures ["a", "。", "bb", "。"] + ["。"] == ["a", "。", "bb", "。", "。"]
    ensures ["a", "。", "bb"] + ["。"] == ["a", "。", "bb", "。"]
  {
  }

  /** `smartChunkText` on a non-empty text, from the state its loop ends in. */
  lemma ChunkTextOf(v: Variant, t: string, max: int, ss: seq<string>, a: Chunking)
    requires t != [] && Sentences(t) == ss && SentencesUpTo(v, ss, |ss|, max) == a
    ensures ChunkText(v, t, max) == a.chunks + Pushed(Trim(a.current))
  {
  }

  /**
   * As written, a long sentence whose words end with an empty `wordChunk`
   * leaves `currentChunk` at the chunk already pushed, and it is pushed again:
   * the "。" after "a" is read out twice.
   */
  lemma DuplicatedChunk()
    ensures ChunkText(AsWritten, "a。bb 。", 1) == ["a", "。", "bb", "。", "。"]
  {
    ChunkTextDup(AsWritten, "a。bb 。");
  }

  /** Corrected, every sentence is read out once. */
  lemma DuplicatedChunkCorrected()
    ensures ChunkText(Corrected, "a。bb 。", 1) == ["a", "。", "bb", "。"]
  {
    ChunkTextDup(Corrected, "a。bb 。");
  }

  // ---------------------------------------------------------------------
  // The loops of `smartChunkText`.
  // ---------------------------------------------------------------------

  /** The corrected outer loop one sentence further, from known states. */
  lemma UpToAfter(ss: seq<string>, k: nat, max: int, a: Chunking, b: Chunking)
    requires k < |ss| && SentencesUpTo(Corrected, ss, k, max) == a && SentenceStep(Corrected, a, ss[k], max) == b
    ensures SentencesUpTo(Corrected, ss, k + 1, max) == b
  {
  }

  /** One sentence of the outer loop when the sentence joins `currentChunk`. */
  lemma StepFits(a: Chunking, x: string, max: int, b: Chunking)
    requires Utf16Length(Trim(a.current + x)) <= max && b == Chunking(a.chunks, Trim(a.current + x))
    ensures SentenceStep(Corrected, a, x, max) == b
  {
  }

  /** One sentence of the outer loop when the sentence starts a chunk of its own. */
  lemma StepShort(a: Chunking, x: string, max: int, b: Chunking)
    requires Utf16Length(Trim(a.current + x)) > max && Utf16Length(x) <= max
    requires b == Chunking(a.chunks + Pushed(a.current), Trim(x))
    ensures SentenceStep(Corrected, a, x, max) == b
  {
  }

  /** One sentence of the outer loop when the sentence is cut into words. */
  lemma StepLong(a: Chunking, x: string, max: int, b: Chunking)
    requires Utf16Length(Trim(a.current + x)) > max && Utf16Length(x) > max
    requires b == WordsUpTo(Corrected, Chunking(a.chunks + Pushed(a.current), ""), SplitWords(x), |SplitWords(x)|, max)
    ensures SentenceStep(Corrected, a, x, max) == b
  {
  }

  /** The corrected inner loop one word further, from known states. */
  lemma WordsAfter(start: Chunking, words: seq<string>, j: nat, max: int, a: Chunking, b: Chunking)
    requires j < |words| && WordsUpTo(Corrected, start, words, j, max) == a && WordStep(Corrected, a, words[j], max) == b
    ensures WordsUpTo(Corrected, start, words, j + 1, max) == b
  {
  }

  /** What the inner loop of `smartChunkText` pushes for the words of an overlong sentence, and the `wordChunk` it leaves. */
  method ChunkWords(pushed: seq<string>, words: seq<string>, maxChunkSize: int) returns (chunks: seq<string>, wordChunk: string)
    ensures Chunking(chunks, wordChunk) == WordsUpTo(Corrected, Chunking(pushed, ""), words, |words|, maxChunkSize)
  {
    chunks := pushed;
    wordChunk := "";
    var j := 0;
    while j < |words|
      invariant 0 <= j <= |words|
      invariant WordsUpTo(Corrected, Chunking(pushed, ""), words, j, maxChunkSize) == Chunking(chunks, wordChunk)
    {
      ghost var before := Chunking(chunks, wordChunk);
      chunks, wordChunk := ChunkWord(chunks, wordChunk, words[j], maxChunkSize);
      WordsAfter(Chunking(pushed, ""), words, j, maxChunkSize, before, Chunking(chunks, wordChunk));
      j := j + 1;
    }
  }

  /** One word of the inner loop of `smartChunkText`. */
  method ChunkWord(chunks: seq<string>, wordChunk: string, word: string, maxChunkSize: int)
    returns (chunks': seq<string>, wordChunk': string)
    ensures Chunking(chunks', wordChunk') == WordStep(Corrected, Chunking(chunks, wordChunk), word, maxChunkSize)
  {
    var joined := Trim(wordChunk + " " + word);
    if Utf16Length(joined) <= maxChunkSize {
      chunks', wordChunk' := chunks, joined;
    } else {
      chunks' := chunks;
      if wordChunk != [] {
        chunks' := chunks' + [wordChunk];
      }
      wordChunk' := word;
    }
  }

  /**
   * `smartChunkText(text, maxChunkSize)` with the corrected inner loop: the
   * chunks its two loops push, which are those of ChunkText, and so have
   * the properties proved of it.
   */
  method SmartChunkText(text: string, maxChunkSize: int) returns (chunks: seq<string>)
    ensures chunks == ChunkText(Corrected, text, maxChunkSize)
    ensures chunks == [] <==> AllSpaces(text)
    ensures GoodChunks(chunks, maxChunkSize)
    ensures DeleteSpaces(Concat(chunks)) == DeleteSpaces(text)
  {
    ChunkTextProperties(text, maxChunkSize);
    if text == [] {
      return [];
    }
    var currentChunk;
    chunks, currentChunk := ChunkSentences(Sentences(text), maxChunkSize);
    var last := Trim(currentChunk);
    if last != [] {
      chunks := chunks + [last];
    }
  }

  /** The outer loop of `smartChunkText`: the chunks it pushes and the `currentChunk` it leaves. */
  method ChunkSentences(sentences: seq<string>, maxChunkSize: int) returns (chunks: seq<string>, currentChunk: string)
    ensures Chunking(chunks, currentChunk) == SentencesUpTo(Corrected, sentences, |sentences|, maxChunkSize)
  {
    chunks := [];
    currentChunk := "";
    var i := 0;
    while i < |sentences|
      invariant 0 <= i <= |sentences|
      invariant SentencesUpTo(Corrected, sentences, i, maxChunkSize) == Chunking(chunks, currentChunk)
    {
      ghost var before := Chunking(chunks, currentChunk);
      chunks, currentChunk := ChunkSentence(chunks, currentChunk, sentences[i], maxChunkSize);
      UpToAfter(sentences, i, maxChunkSize, before, Chunking(chunks, currentChunk));
      i := i + 1;
    }
  }

  /** One sentence of the outer loop of `smartChunkText`. */
  method ChunkSentence(chunks: seq<string>, currentChunk: string, sentence: string, maxChunkSize: int)
    returns (chunks': seq<string>, currentChunk': string)
    ensures Chunking(chunks', currentChunk') == SentenceStep(Corrected, Chunking(chunks, currentChunk), sentence, maxChunkSize)
  {
    var candidate := Trim(currentChunk + sentence);
    if Utf16Length(candidate) <= maxChunkSize {
      chunks', currentChunk' := chunks, candidate;
      StepFits(Chunking(chunks, currentChunk), sentence, maxChunkSize, Chunking(chunks', currentChunk'));
    } else {
      chunks' := chunks;
      if currentChunk != [] {
        chunks' := chunks' + [currentChunk];
      }
      assert chunks' == chunks + Pushed(currentChunk);
      if Utf16Length(sentence) > maxChunkSize {
        chunks', currentChunk' := ChunkWords(chunks', SplitWords(sentence), maxChunkSize);
        StepLong(Chunking(chunks, currentChunk), sentence, maxChunkSize, Chunking(chunks', currentChunk'));
      } else {
        currentChunk' := Trim(sentence);
        StepShort(Chunking(chunks, currentChunk), sentence, maxChunkSize, Chunking(chunks', currentChunk'));
      }
    }
  }

  // ---------------------------------------------------------------------
  // `processText`: the input check, cleaning and the length bounds.
  // ---------------------------------------------------------------------

  /** What `processText` returns: the input, the text after cleaning and its chunks. */
  datatype Processed = Processed(original: string, cleaned: string, chunks: seq<string>)

  const NotNonEmptyString: string := "Text must be a non-empty string"

  function TooShort(minLength: int): string {
    "Text is too short. Minimum length: " + IntToString(minLength)
  }

  function TooLong(maxLength: int): string {
    "Text is too long. Maximum length: " + IntToString(maxLength)
  }

  /** The text whose length is checked: cleaned when `shouldClean`, the input otherwise. */
  function Cleaned(text: string, o: Options, markdown: string -> string): string {
    if o.shouldClean then CleanText(text, o, markdown) else text
  }

  /**
   * `processText(text, options)`. The argument is any JavaScript value; one
   * that is not a string, or the empty string, is rejected first. A string
   * is accepted exactly when the length of its cleaned text in UTF-16 code
   * units lies within `minLength..maxLength`, and then the input, the
   * cleaned text and the chunks of the cleaned text are returned.
   */
  function ProcessText(text: Json, o: Options, markdown: string -> string): (r: Result<Processed, string>)
    ensures r == Err(NotNonEmptyString) <==> !(text.Str? && text.s != [])
    ensures r.Ok? <==> text.Str? && text.s != [] && o.minLength <= Utf16Length(Cleaned(text.s, o, markdown)) <= o.maxLength
    ensures r.Ok? ==> text == Str(r.value.original) && r.value.cleaned == Cleaned(r.value.original, o, markdown)
                      && r.value.chunks == ChunkText(Corrected, r.value.cleaned, o.chunkSize)
    ensures r.Err? && text.Str? && text.s != [] ==>
      r.error == if Utf16Length(Cleaned(text.s, o, markdown)) < o.minLength then TooShort(o.minLength) else TooLong(o.maxLength)
  {
    if !(text.Str? && text.s != []) then Err(NotNonEmptyString)
    else
      var processed := Cleaned(text.s, o, markdown);
      assert TooShort(o.minLength)[5] == 'i' && TooLong(o.maxLength)[5] == 'i' && NotNonEmptyString[5] == 'm';
      if Utf16Length(processed) < o.minLength then Err(TooShort(o.minLength))
      else if Utf16Length(processed) > o.maxLength then Err(TooLong(o.maxLength))
      else Ok(Processed(text.s, processed, ChunkText(Corrected, processed, o.chunkSize)))
  }

  /**
   * With the whitespace stage on and a minimum length of at least one, an
   * accepted text has at least one chunk; every chunk is trimmed, non-empty
   * and within `chunkSize` unless it is one word, and the chunks keep every
   * other character of the cleaned text in order.
   */
  lemma ProcessTextChunks(text: Json, o: Options, markdown: string -> string)
    requires o.shouldClean && o.normalizeWhitespace && o.minLength >= 1
    requires ProcessText(text, o, markdown).Ok?
    ensures var p := ProcessText(text, o, markdown).value;
      |p.chunks| >= 1 && GoodChunks(p.chunks, o.chunkSize)
      && DeleteSpaces(Concat(p.chunks)) == DeleteSpaces(p.cleaned)
  {
    var p := ProcessText(text, o, markdown).value;
    ChunkTextProperties(p.cleaned, o.chunkSize);
  }
}

/**
 * Well-formed UTF-8 as section 4 of RFC 3629 defines it. Go strings are byte
 * sequences; the texts the bot sends must be well-formed UTF-8 for Telegram to
 * accept them, and Go's JSON decoder only ever produces well-formed strings.
 */
module Utf8 {
  import opened GoTypes

  /** A byte of the form 10xxxxxx, which never starts a character. */
  predicate IsContinuation(b: byte) {
    0x80 <= b < 0xC0
  }

  /** `s[i]` exists and lies in `lo..hi`. */
  predicate ByteIn(s: GoString, i: nat, lo: int, hi: int) {
    i < |s| && lo <= s[i] <= hi
  }

  /**
   * The length of the well-formed character at the front of `s`, following the
   * syntax of section 4 of RFC 3629 (no overlong forms, no surrogates, nothing
   * above U+10FFFF), or 0 when `s` does not start with one.
   */
  function CharLen(s: GoString): (k: nat)
    ensures k <= 4 && k <= |s|
    ensures k > 0 ==> !IsContinuation(s[0])
    ensures k == 1 <==> (|s| > 0 && s[0] < 0x80)
    ensures forall j :: 0 < j < k ==> IsContinuation(s[j])
  {
    if ByteIn(s, 0, 0x00, 0x7F) then 1
    else if ByteIn(s, 0, 0xC2, 0xDF) && ByteIn(s, 1, 0x80, 0xBF) then 2
    else if (|| (ByteIn(s, 0, 0xE0, 0xE0) && ByteIn(s, 1, 0xA0, 0xBF))
             || (ByteIn(s, 0, 0xE1, 0xEC) && ByteIn(s, 1, 0x80, 0xBF))
             || (ByteIn(s, 0, 0xED, 0xED) && ByteIn(s, 1, 0x80, 0x9F))
             || (ByteIn(s, 0, 0xEE, 0xEF) && ByteIn(s, 1, 0x80, 0xBF)))
            && ByteIn(s, 2, 0x80, 0xBF) then 3
    else if (|| (ByteIn(s, 0, 0xF0, 0xF0) && ByteIn(s, 1, 0x90, 0xBF))
             || (ByteIn(s, 0, 0xF1, 0xF3) && ByteIn(s, 1, 0x80, 0xBF))
             || (ByteIn(s, 0, 0xF4, 0xF4) && ByteIn(s, 1, 0x80, 0x8F)))
            && ByteIn(s, 2, 0x80, 0xBF) && ByteIn(s, 3, 0x80, 0xBF) then 4
    else 0
  }

  /** `s` is a sequence of well-formed characters. */
  predicate Valid(s: GoString)
    decreases |s|
  {
    |s| == 0 || (CharLen(s) > 0 && Valid(s[CharLen(s)..]))
  }

  /** The character at the front of `s` depends only on its own bytes. */
  lemma CharLenAgree(s: GoString, t: GoString)
    requires CharLen(s) > 0 && |t| >= CharLen(s) && t[..CharLen(s)] == s[..CharLen(s)]
    ensures CharLen(t) == CharLen(s)
  {
    var k := CharLen(s);
    assert forall j :: 0 <= j < k ==> t[j] == s[..k][j] == s[j];
  }

  /** Well-formed texts stay well-formed when concatenated. */
  lemma {:induction false} ConcatValid(a: GoString, b: GoString)
    requires Valid(a) && Valid(b)
    ensures Valid(a + b)
  {
    if |a| == 0 {
      assert a + b == b;
    } else {
      var k := CharLen(a);
      CharLenAgree(a, a + b);
      assert (a + b)[k..] == a[k..] + b;
      ConcatValid(a[k..], b);
    }
  }

  /** A text of ASCII bytes only is well-formed. */
  lemma {:induction false} AsciiValid(s: GoString)
    requires forall i :: 0 <= i < |s| ==> s[i] < 0x80
    ensures Valid(s)
  {
    if |s| > 0 {
      AsciiValid(s[1..]);
    }
  }

  /** Cutting a well-formed text just before a character start leaves it well-formed. */
  lemma {:induction false} PrefixValid(s: GoString, i: nat)
    requires Valid(s) && i <= |s|
    requires i == |s| || !IsContinuation(s[i])
    ensures Valid(s[..i])
  {
    if i == |s| {
      assert s[..i] == s;
    } else if i > 0 {
      var k := CharLen(s);
      assert k <= i;
      assert s[k..][i - k] == s[i];
      PrefixValid(s[k..], i - k);
      CharLenAgree(s, s[..i]);
      assert s[..i][k..] == s[k..][..i - k];
    }
  }

  /** In a well-formed text, a lead byte of a multi-byte character is followed by a continuation byte. */
  lemma {:induction false} LeadIsFollowed(s: GoString, i: nat)
    requires Valid(s) && i < |s| && s[i] >= 0xC0
    ensures i + 1 < |s| && IsContinuation(s[i + 1])
  {
    var k := CharLen(s);
    if i >= k {
      assert s[k..][i - k] == s[i];
      LeadIsFollowed(s[k..], i - k);
      assert s[k..][i - k + 1] == s[i + 1];
    }
  }

  /**
   * The start of the character that byte `s[i]` belongs to: back off over
   * continuation bytes.
   */
  function RuneStart(s: GoString, i: nat): (j: nat)
    requires i < |s|
    ensures j <= i && (j == 0 || !IsContinuation(s[j]))
    ensures forall m :: j < m <= i ==> IsContinuation(s[m])
  {
    if i == 0 || !IsContinuation(s[i]) then i else RuneStart(s, i - 1)
  }

  /** In a well-formed text some character starts within any four consecutive bytes. */
  lemma {:induction false} StartNear(s: GoString, i: nat) returns (m: nat)
    requires Valid(s) && i < |s|
    ensures i - 3 <= m <= i && (m == 0 || !IsContinuation(s[m]))
  {
    var k := CharLen(s);
    if i < k {
      m := 0;
    } else {
      assert s[k..][i - k] == s[i];
      var m' := StartNear(s[k..], i - k);
      m := k + m';
      assert m' == 0 ==> |s[k..]| > 0 && CharLen(s[k..]) > 0;
      assert s[k..][m'] == s[m];
    }
  }

  /** In a well-formed text, backing off to a character start costs at most three bytes. */
  lemma RuneStartNear(s: GoString, i: nat)
    requires Valid(s) && i < |s|
    ensures i - RuneStart(s, i) <= 3
  {
    var m := StartNear(s, i);
  }
}

/**
 * The string primitives the task store and the form rely on:
 * `toLowerCase`, `trim` and `includes`, restricted to ASCII.
 */
module Text {

  /** The ASCII characters that `String.prototype.trim` strips. */
  predicate IsSpace(c: char) {
    c == ' ' || c == '\t' || c == '\n' || c == '\r' || c as int == 0x0B || c as int == 0x0C
  }

  function LowerChar(c: char): char {
    if 'A' <= c <= 'Z' then (c as int + 32) as char else c
  }

  /** `toLowerCase` on ASCII letters; every other character is kept. */
  function Lower(s: string): (r: string)
    ensures |r| == |s|
    ensures forall i :: 0 <= i < |s| ==> r[i] == LowerChar(s[i])
    ensures forall i :: 0 <= i < |r| ==> !('A' <= r[i] <= 'Z')
    ensures forall i :: 0 <= i < |s| ==> (IsSpace(r[i]) <==> IsSpace(s[i]))
  {
    seq(|s|, i requires 0 <= i < |s| => LowerChar(s[i]))
  }

  /** Drops leading whitespace: what is dropped is whitespace, and what is kept starts with a non-space. */
  function TrimStart(s: string): (r: string)
    ensures |r| <= |s| && r == s[|s| - |r|..]
    ensures r == [] || !IsSpace(r[0])
    ensures forall i :: 0 <= i < |s| - |r| ==> IsSpace(s[i])
  {
    if s != [] && IsSpace(s[0]) then TrimStart(s[1..]) else s
  }

  /** Drops trailing whitespace: what is dropped is whitespace, and what is kept ends with a non-space. */
  function TrimEnd(s: string): (r: string)
    ensures |r| <= |s| && r == s[..|r|]
    ensures r == [] || !IsSpace(r[|r| - 1])
    ensures forall i :: |r| <= i < |s| ==> IsSpace(s[i])
  {
    if s != [] && IsSpace(s[|s| - 1]) then TrimEnd(s[..|s| - 1]) else s
  }

  /**
   * `r` sits at index `k` of `s`, neither starts nor ends with whitespace, and
   * everything of `s` before and after it is whitespace.
   */
  predicate IsTrimmedPiece(s: string, r: string, k: int) {
    && 0 <= k <= |s| - |r| && r == s[k..k + |r|]
    && (r == [] || (!IsSpace(r[0]) && !IsSpace(r[|r| - 1])))
    && (forall i :: 0 <= i < k ==> IsSpace(s[i]))
    && (forall i :: k + |r| <= i < |s| ==> IsSpace(s[i]))
  }

  /** `trim`: the piece of `s` left when the whitespace at both ends is dropped. */
  function Trim(s: string): (r: string)
    ensures exists k :: IsTrimmedPiece(s, r, k)
    ensures r == [] <==> forall i :: 0 <= i < |s| ==> IsSpace(s[i])
  {
    var t := TrimStart(s);
    var r := TrimEnd(t);
    var k := |s| - |t|;
    assert r == s[k..k + |r|];
    assert forall i :: k + |r| <= i < |s| ==> s[i] == t[i - k];
    assert IsTrimmedPiece(s, r, k);
    r
  }

  /** A trimmed piece of `s` is empty exactly when `s` is all whitespace. */
  lemma PieceEmptyIffAllSpace(s: string, r: string, k: int)
    requires IsTrimmedPiece(s, r, k)
    ensures r == [] <==> forall i :: 0 <= i < |s| ==> IsSpace(s[i])
  {
    if r != [] {
      assert s[k] == r[0];
    }
  }

  /** `s` has only one trimmed piece, so the contract of `Trim` fixes its value. */
  lemma {:induction false} TrimmedPieceUnique(s: string, r1: string, k1: int, r2: string, k2: int)
    requires IsTrimmedPiece(s, r1, k1) && IsTrimmedPiece(s, r2, k2)
    ensures r1 == r2
  {
    PieceEmptyIffAllSpace(s, r1, k1);
    PieceEmptyIffAllSpace(s, r2, k2);
    if r1 != [] {
      assert s[k1] == r1[0] && s[k2] == r2[0];
      assert k1 == k2;
      assert s[k1 + |r1| - 1] == r1[|r1| - 1] && s[k2 + |r2| - 1] == r2[|r2| - 1];
      assert |r1| == |r2|;
    }
  }

  /** Any trimmed piece of `s` is `Trim(s)`. */
  lemma TrimUnique(s: string, r: string, k: int)
    requires IsTrimmedPiece(s, r, k)
    ensures r == Trim(s)
  {
    var k' :| IsTrimmedPiece(s, Trim(s), k');
    TrimmedPieceUnique(s, r, k, Trim(s), k');
  }

  /** Trimming twice is trimming once. */
  lemma TrimIdempotent(s: string)
    ensures Trim(Trim(s)) == Trim(s)
  {
    var k :| IsTrimmedPiece(s, Trim(s), k);
    TrimOfTrimmed(Trim(s));
  }

  /** Trimming a string without upper-case letters leaves none. */
  lemma TrimKeepsNoUpperCase(s: string)
    requires forall i :: 0 <= i < |s| ==> !('A' <= s[i] <= 'Z')
    ensures forall i :: 0 <= i < |Trim(s)| ==> !('A' <= Trim(s)[i] <= 'Z')
  {
    var k :| IsTrimmedPiece(s, Trim(s), k);
    assert forall i :: 0 <= i < |Trim(s)| ==> Trim(s)[i] == s[k + i];
  }

  /** A string that `trim` turns into the empty, falsy string. */
  predicate IsBlank(s: string) {
    Trim(s) == []
  }

  /** `sub` occurs in `s` starting at index `i`. */
  predicate OccursAt(s: string, sub: string, i: int) {
    0 <= i && i + |sub| <= |s| && s[i..i + |sub|] == sub
  }

  /**
   * `s.includes(sub)`: the empty string is in every string, a prefix of `s`
   * is in `s`, and nothing longer than `s` is in `s`.
   */
  predicate Contains(s: string, sub: string)
    ensures sub == [] ==> Contains(s, sub)
    ensures sub <= s ==> Contains(s, sub)
    ensures Contains(s, sub) ==> |sub| <= |s|
  {
    assert sub <= s ==> OccursAt(s, sub, 0);
    exists i :: 0 <= i <= |s| - |sub| && OccursAt(s, sub, i)
  }

  /** A string without upper-case letters is its own lower-case form. */
  lemma LowerOfLowerCase(s: string)
    requires forall i :: 0 <= i < |s| ==> !('A' <= s[i] <= 'Z')
    ensures Lower(s) == s
  {
  }

  /** A string that neither starts nor ends with whitespace is its own trimmed form. */
  lemma TrimOfTrimmed(s: string)
    requires s == [] || (!IsSpace(s[0]) && !IsSpace(s[|s| - 1]))
    ensures Trim(s) == s
  {
  }
}

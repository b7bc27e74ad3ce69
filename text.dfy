/** String primitives the card finder relies on: the optional value that a
    missing record field or a blank spreadsheet cell becomes, ASCII lower-casing
    (JavaScript's toLowerCase and Python's case-insensitive match, restricted to
    ASCII), and substring containment (JavaScript's includes, Python's `in`). */
module Text {

  datatype Option<+T> = None | Some(value: T)

  /** The upper-case ASCII letters 'A'..'Z'. */
  predicate IsUpper(c: char) {
    'A' <= c <= 'Z'
  }

  /** ASCII lower-casing of one character; every other character is kept. */
  function LowerChar(c: char): char {
    if IsUpper(c) then (c as int + 32) as char else c
  }

  /** ASCII lower-casing of a string, character by character. */
  function Lower(s: string): string {
    seq(|s|, i requires 0 <= i < |s| => LowerChar(s[i]))
  }

  /** Lower-casing twice is lower-casing once. */
  lemma LowerIdempotent(s: string)
    ensures Lower(Lower(s)) == Lower(s)
  {
  }

  /** `needle` sits in `hay` starting at position `i`. */
  predicate OccursAt(needle: string, hay: string, i: nat) {
    i + |needle| <= |hay| && hay[i..i + |needle|] == needle
  }

  /** An occurrence, read character by character. */
  lemma OccursAtChars(needle: string, hay: string, i: nat)
    ensures OccursAt(needle, hay, i) <==>
      i + |needle| <= |hay| && forall k :: 0 <= k < |needle| ==> hay[i + k] == needle[k]
  {
    if i + |needle| <= |hay| && forall k :: 0 <= k < |needle| ==> hay[i + k] == needle[k] {
      assert hay[i..i + |needle|] == needle;
    }
  }

  /** A needle with a character that `hay` lacks does not occur in it. */
  lemma AbsentByChar(needle: string, hay: string, j: nat)
    requires j < |needle|
    requires forall i :: 0 <= i < |hay| ==> hay[i] != needle[j]
    ensures !IsSubstring(needle, hay)
  {
    forall i: nat ensures !OccursAt(needle, hay, i) {
      OccursAtChars(needle, hay, i);
      if i + j < |hay| {
        assert hay[i + j] != needle[j];
      }
    }
  }

  /** A needle whose characters at `j` and `j + 1` never stand side by side in
      `hay` does not occur in it. */
  lemma AbsentByPair(needle: string, hay: string, j: nat)
    requires j + 1 < |needle|
    requires forall i :: 0 <= i < |hay| - 1 ==> hay[i] != needle[j] || hay[i + 1] != needle[j + 1]
    ensures !IsSubstring(needle, hay)
  {
    forall i: nat ensures !OccursAt(needle, hay, i) {
      OccursAtChars(needle, hay, i);
      if i + j + 1 < |hay| {
        assert hay[i + j] != needle[j] || hay[i + j + 1] != needle[j + 1];
      }
    }
  }

  /** The declarative meaning of containment: some position holds the needle. */
  ghost predicate IsSubstring(needle: string, hay: string) {
    exists i: nat :: OccursAt(needle, hay, i)
  }

  /** Computable containment, scanning `hay` from the left. */
  function Contains(needle: string, hay: string): bool
    decreases |hay|
  {
    if needle <= hay then true
    else if |hay| <= |needle| then false
    else Contains(needle, hay[1..])
  }

  /** Contains decides IsSubstring, in both directions. */
  lemma {:induction false} ContainsIsSubstring(needle: string, hay: string)
    ensures Contains(needle, hay) <==> IsSubstring(needle, hay)
    decreases |hay|
  {
    if needle <= hay {
      assert OccursAt(needle, hay, 0);
    } else if |hay| <= |needle| {
    } else {
      ContainsIsSubstring(needle, hay[1..]);
      if IsSubstring(needle, hay) {
        var i: nat :| OccursAt(needle, hay, i);
        assert hay[1..][i - 1..i - 1 + |needle|] == hay[i..i + |needle|];
        assert OccursAt(needle, hay[1..], i - 1);
      }
      if IsSubstring(needle, hay[1..]) {
        var i: nat :| OccursAt(needle, hay[1..], i);
        assert hay[1..][i..i + |needle|] == hay[i + 1..i + 1 + |needle|];
        assert OccursAt(needle, hay, i + 1);
      }
    }
  }

  /** Case-insensitive containment in the sense of Python's `str.contains(pat,
      case=False)` for a pattern without regular-expression metacharacters. */
  function ContainsIgnoringCase(pattern: string, field: string): bool {
    Contains(Lower(pattern), Lower(field))
  }
}

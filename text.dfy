/**
 * Ordinal, case-insensitive substring containment on strings, as used by
 * `string.Contains(value, StringComparison.OrdinalIgnoreCase)`.
 *
 * Case folding is ASCII-only: the letters a-z compare equal to A-Z and every
 * other character compares only with itself.
 */
module Text {

  /** Upper-cases an ASCII lower-case letter; every other character is unchanged. */
  function FoldChar(c: char): char {
    if 'a' <= c <= 'z' then (c as int - 32) as char else c
  }

  /** The string with every character folded. */
  function Fold(s: string): (t: string)
    ensures |t| == |s|
    ensures forall k :: 0 <= k < |s| ==> t[k] == FoldChar(s[k])
  {
    seq(|s|, k requires 0 <= k < |s| => FoldChar(s[k]))
  }

  /** Reference definition: `needle` occupies the positions `i .. i + |needle|` of `hay`. */
  ghost predicate OccursAt(hay: string, needle: string, i: int) {
    0 <= i && i + |needle| <= |hay| && hay[i..i + |needle|] == needle
  }

  ghost predicate Occurs(hay: string, needle: string) {
    exists i :: OccursAt(hay, needle, i)
  }

  function StartsWith(s: string, prefix: string): bool {
    |prefix| <= |s| && s[..|prefix|] == prefix
  }

  /** Ordinal substring search that tries every start position from left to right. */
  function Contains(hay: string, needle: string): bool
    decreases |hay|
  {
    if StartsWith(hay, needle) then true
    else if hay == [] then false
    else Contains(hay[1..], needle)
  }

  /** The search finds `needle` exactly when it occurs somewhere in `hay`. */
  lemma {:induction false} ContainsIsOccurs(hay: string, needle: string)
    ensures Contains(hay, needle) <==> Occurs(hay, needle)
    decreases |hay|
  {
    if StartsWith(hay, needle) {
      assert OccursAt(hay, needle, 0);
    } else if hay == [] {
    } else {
      ContainsIsOccurs(hay[1..], needle);
      if Contains(hay[1..], needle) {
        var i :| OccursAt(hay[1..], needle, i);
        assert hay[i + 1..i + 1 + |needle|] == hay[1..][i..i + |needle|];
        assert OccursAt(hay, needle, i + 1);
      }
      if Occurs(hay, needle) {
        var i :| OccursAt(hay, needle, i);
        assert i != 0;
        assert hay[1..][i - 1..i - 1 + |needle|] == hay[i..i + |needle|];
        assert OccursAt(hay[1..], needle, i - 1);
      }
    }
  }

  /** `hay.Contains(needle, StringComparison.OrdinalIgnoreCase)`. */
  function ContainsIgnoreCase(hay: string, needle: string): (b: bool)
    ensures b <==> Occurs(Fold(hay), Fold(needle))
  {
    ContainsIsOccurs(Fold(hay), Fold(needle));
    Contains(Fold(hay), Fold(needle))
  }

  /** Occurrence is transitive: a string inside a string inside `hay` is inside `hay`. */
  lemma OccursTransitive(hay: string, middle: string, needle: string)
    requires Occurs(hay, middle) && Occurs(middle, needle)
    ensures Occurs(hay, needle)
  {
    var i :| OccursAt(hay, middle, i);
    var j :| OccursAt(middle, needle, j);
    forall k | 0 <= k < |needle|
      ensures hay[i + j + k] == needle[k]
    {
      assert hay[i + j + k] == hay[i..i + |middle|][j + k] == middle[j + k];
      assert middle[j + k] == middle[j..j + |needle|][k];
    }
    assert hay[i + j..i + j + |needle|] == needle;
    assert OccursAt(hay, needle, i + j);
  }

  /** Witness lemma: `needle` matches `hay` case-insensitively at offset `i`. */
  lemma MatchIgnoreCaseAt(hay: string, needle: string, i: nat)
    requires i + |needle| <= |hay|
    requires forall k :: 0 <= k < |needle| ==> FoldChar(hay[i + k]) == FoldChar(needle[k])
    ensures ContainsIgnoreCase(hay, needle)
  {
    assert Fold(hay)[i..i + |needle|] == Fold(needle);
    assert OccursAt(Fold(hay), Fold(needle), i);
  }

  /** No character of `s` folds to `c`. */
  ghost predicate FoldsAvoid(s: string, c: char) {
    forall i :: 0 <= i < |s| ==> FoldChar(s[i]) != c
  }

  /** A needle with a character that `hay` lacks (up to case) is not contained in `hay`. */
  lemma MissingCharNoMatch(hay: string, needle: string, j: nat)
    requires j < |needle|
    requires FoldsAvoid(hay, FoldChar(needle[j]))
    ensures !ContainsIgnoreCase(hay, needle)
  {
  }

  /** Case-insensitive containment is transitive. */
  lemma ContainsIgnoreCaseTransitive(hay: string, middle: string, needle: string)
    requires ContainsIgnoreCase(hay, middle) && ContainsIgnoreCase(middle, needle)
    ensures ContainsIgnoreCase(hay, needle)
  {
    OccursTransitive(Fold(hay), Fold(middle), Fold(needle));
  }

  /** `words.Any(w => hay.Contains(w, StringComparison.OrdinalIgnoreCase))`, scanning the list in order. */
  function AnyContainedIgnoreCase(hay: string, words: seq<string>): (b: bool)
    ensures b <==> exists k :: 0 <= k < |words| && ContainsIgnoreCase(hay, words[k])
  {
    if words == [] then false
    else ContainsIgnoreCase(hay, words[0]) || AnyContainedIgnoreCase(hay, words[1..])
  }
}

/**
 * The two string operations the storefront's search relies on:
 * `String.prototype.toLowerCase` (on ASCII letters) and
 * `String.prototype.includes`.
 */
module Text {

  predicate IsUpper(c: char) { 'A' <= c <= 'Z' }

  /** `toLowerCase` of a single character: ASCII capitals map to small letters. */
  function LowerChar(c: char): (d: char)
    ensures !IsUpper(d)
    ensures IsUpper(c) ==> d as int - c as int == 'a' as int - 'A' as int
    ensures !IsUpper(c) ==> d == c
  {
    if IsUpper(c) then (c as int - 'A' as int + 'a' as int) as char else c
  }

  /** `s.toLowerCase()`. */
  function ToLower(s: string): (r: string)
    ensures |r| == |s|
    ensures forall i :: 0 <= i < |s| ==> r[i] == LowerChar(s[i])
  {
    if s == [] then [] else [LowerChar(s[0])] + ToLower(s[1..])
  }

  lemma ToLowerIdempotent(s: string)
    ensures ToLower(ToLower(s)) == ToLower(s)
  {
    var once := ToLower(s);
    assert forall i :: 0 <= i < |s| ==> ToLower(once)[i] == once[i];
  }

  /** `hay.includes(needle)`: some window of `hay` equals `needle`. */
  predicate Contains(hay: string, needle: string)
    decreases |hay|
  {
    if |hay| < |needle| then false
    else if hay[..|needle|] == needle then true
    else Contains(hay[1..], needle)
  }

  /** The reference reading of `includes`: a position at which `needle` occurs. */
  ghost predicate OccursAt(hay: string, needle: string, i: int)
  {
    0 <= i && i + |needle| <= |hay| && hay[i..i + |needle|] == needle
  }

  lemma {:induction false} ContainsIffOccurs(hay: string, needle: string)
    ensures Contains(hay, needle) <==> exists i :: OccursAt(hay, needle, i)
    decreases |hay|
  {
    if |hay| < |needle| {
      assert forall i :: !OccursAt(hay, needle, i);
    } else if hay[..|needle|] == needle {
      assert OccursAt(hay, needle, 0);
    } else {
      ContainsIffOccurs(hay[1..], needle);
      if Contains(hay[1..], needle) {
        var j :| OccursAt(hay[1..], needle, j);
        assert hay[1..][j..j + |needle|] == hay[j + 1..j + 1 + |needle|];
        assert OccursAt(hay, needle, j + 1);
      } else {
        forall i | OccursAt(hay, needle, i) ensures false {
          assert i != 0;
          assert hay[1..][i - 1..i - 1 + |needle|] == hay[i..i + |needle|];
          assert OccursAt(hay[1..], needle, i - 1);
        }
      }
    }
  }

  /** Every string includes the empty string. */
  lemma {:induction false} ContainsEmpty(hay: string)
    ensures Contains(hay, "")
  {
    assert hay[..0] == "";
  }

  /** A needle that holds a character the haystack lacks never occurs in it. */
  lemma {:induction false} MissingCharNotContained(hay: string, needle: string, k: nat)
    requires k < |needle|
    requires forall i :: 0 <= i < |hay| ==> hay[i] != needle[k]
    ensures !Contains(hay, needle)
  {
    forall i | 0 <= i && i + |needle| <= |hay|
      ensures !OccursAt(hay, needle, i)
    {
      assert hay[i..i + |needle|][k] == hay[i + k];
    }
    ContainsIffOccurs(hay, needle);
  }
}

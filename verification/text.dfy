/**
  The two string operations the classifier is built on: Python's `str.lower()`
  (restricted to ASCII letters, which is all the keyword lists contain) and
  Python's `key in text` on strings, which tests for a substring.
 */
module Text {

  /** True for the ASCII capitals 'A'..'Z'. */
  predicate IsUpper(c: char) {
    'A' <= c <= 'Z'
  }

  /** Lower-cases one ASCII capital; every other character is kept. */
  function LowerChar(c: char): (d: char)
    ensures !IsUpper(d)
    ensures IsUpper(c) ==> d as int == c as int + 32
    ensures !IsUpper(c) ==> d == c
  {
    if IsUpper(c) then (c as int + 32) as char else c
  }

  /** `s.lower()`, character by character. */
  function Lower(s: string): (r: string)
    ensures |r| == |s|
    ensures NoUpper(r)
  {
    if s == [] then [] else [LowerChar(s[0])] + Lower(s[1..])
  }

  /** No ASCII capital occurs in `s`. */
  predicate NoUpper(s: string) {
    forall i :: 0 <= i < |s| ==> !IsUpper(s[i])
  }

  /** Lower keeps the length and maps each character on its own. */
  lemma {:induction false} LowerAt(s: string)
    ensures |Lower(s)| == |s|
    ensures forall i :: 0 <= i < |s| ==> Lower(s)[i] == LowerChar(s[i])
  {
    if s != [] {
      LowerAt(s[1..]);
      assert Lower(s) == [LowerChar(s[0])] + Lower(s[1..]);
    }
  }

  /** Text that has no capital letter is left as it is. */
  lemma {:induction false} LowerFixesLowerCase(s: string)
    requires NoUpper(s)
    ensures Lower(s) == s
  {
    if s != [] {
      assert !IsUpper(s[0]);
      LowerFixesLowerCase(s[1..]);
    }
  }

  /** Lower-casing twice is lower-casing once. */
  lemma LowerIdempotent(s: string)
    ensures Lower(Lower(s)) == Lower(s)
  {
    LowerFixesLowerCase(Lower(s));
  }

  /** Python's `s.startswith(prefix)`. */
  predicate StartsWith(s: string, prefix: string) {
    |prefix| <= |s| && s[..|prefix|] == prefix
  }

  /** Python's `key in text` for two strings: `key` is a substring of `text`. */
  function Contains(text: string, key: string): (b: bool)
    ensures b ==> |key| <= |text|
    ensures key == [] ==> b
    ensures StartsWith(text, key) ==> b
    decreases |text|
  {
    if |text| < |key| then false
    else StartsWith(text, key) || Contains(text[1..], key)
  }

  /** `key` occurs in `text` starting at index `i`. */
  predicate OccursAt(text: string, key: string, i: nat) {
    i + |key| <= |text| && text[i..i + |key|] == key
  }

  /** Contains agrees with the reference definition "occurs at some index",
      and when it holds it gives such an index. */
  lemma {:induction false} ContainsIffOccurs(text: string, key: string)
    ensures Contains(text, key) <==> exists i: nat :: OccursAt(text, key, i)
  {
    if |text| < |key| {
      forall i: nat ensures !OccursAt(text, key, i) { }
    } else if StartsWith(text, key) {
      assert OccursAt(text, key, 0);
    } else {
      ContainsIffOccurs(text[1..], key);
      if Contains(text[1..], key) {
        var i: nat :| OccursAt(text[1..], key, i);
        assert text[i + 1..i + 1 + |key|] == text[1..][i..i + |key|];
        assert OccursAt(text, key, i + 1);
      } else {
        forall i: nat | OccursAt(text, key, i) ensures false {
          if i != 0 {
            assert text[1..][i - 1..i - 1 + |key|] == text[i..i + |key|];
            assert OccursAt(text[1..], key, i - 1);
          }
        }
      }
    }
  }

  /** A substring of a substring is a substring: if `key` contains `part`
      and `text` contains `key`, then `text` contains `part`. */
  lemma ContainsTransitive(text: string, key: string, part: string)
    requires Contains(text, key) && Contains(key, part)
    ensures Contains(text, part)
  {
    ContainsIffOccurs(text, key);
    ContainsIffOccurs(key, part);
    var i: nat :| OccursAt(text, key, i);
    var j: nat :| OccursAt(key, part, j);
    forall k | 0 <= k < |part| ensures text[i + j + k] == part[k] {
      assert text[i..i + |key|][j + k] == key[j + k];
    }
    assert text[i + j..i + j + |part|] == part;
    assert OccursAt(text, part, i + j);
    ContainsIffOccurs(text, part);
  }

  /** Python's `any(key in text for key in keys)`: some key of the list
      occurs at some index of `text`. */
  predicate ContainsAny(text: string, keys: seq<string>)
    ensures ContainsAny(text, keys) <==>
            exists i: nat, j: nat :: i < |keys| && OccursAt(text, keys[i], j)
  {
    ContainsAnyIffOccurs(text, keys);
    exists i :: 0 <= i < |keys| && Contains(text, keys[i])
  }

  lemma ContainsAnyIffOccurs(text: string, keys: seq<string>)
    ensures (exists i :: 0 <= i < |keys| && Contains(text, keys[i])) <==>
            exists i: nat, j: nat :: i < |keys| && OccursAt(text, keys[i], j)
  {
    forall i | 0 <= i < |keys| {
      ContainsIffOccurs(text, keys[i]);
    }
  }
}

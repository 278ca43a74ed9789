/**
 * The two string operations the calculator relies on: `str.capitalize()`,
 * which canonicalises load names, and the station label built by
 * `_sanitize_station`. Case mapping is that of ASCII letters.
 */
module Text {

  predicate IsLowerLetter(c: char) { 'a' <= c <= 'z' }
  predicate IsUpperLetter(c: char) { 'A' <= c <= 'Z' }

  function ToUpper(c: char): (r: char)
    ensures IsLowerLetter(c) ==> IsUpperLetter(r) && r as int + 32 == c as int
    ensures !IsLowerLetter(c) ==> r == c
  {
    if IsLowerLetter(c) then (c as int - 32) as char else c
  }

  function ToLower(c: char): (r: char)
    ensures IsUpperLetter(c) ==> IsLowerLetter(r) && r as int == c as int + 32
    ensures !IsUpperLetter(c) ==> r == c
  {
    if IsUpperLetter(c) then (c as int + 32) as char else c
  }

  /** `s.lower()` */
  function Lower(s: string): (r: string)
    ensures |r| == |s|
    ensures forall i :: 0 <= i < |s| ==> r[i] == ToLower(s[i])
  {
    seq(|s|, i requires 0 <= i < |s| => ToLower(s[i]))
  }

  /** `s.capitalize()`: the first character upper case, every other lower case. */
  function Capitalize(s: string): (r: string)
    ensures |r| == |s|
    ensures |s| > 0 ==> r[0] == ToUpper(s[0])
    ensures forall i :: 0 < i < |s| ==> r[i] == ToLower(s[i])
  {
    if s == [] then [] else [ToUpper(s[0])] + Lower(s[1..])
  }

  /** Two characters agree once upper-cased exactly when they agree once lower-cased. */
  lemma SameUpperSameLower(a: char, b: char)
    ensures ToUpper(a) == ToUpper(b) <==> ToLower(a) == ToLower(b)
  {
  }

  /**
   * Two names are stored under the same capitalised key exactly when they
   * differ only in the case of their letters.
   */
  lemma CapitalizeCollides(s: string, t: string)
    ensures Capitalize(s) == Capitalize(t) <==> Lower(s) == Lower(t)
  {
    if Capitalize(s) == Capitalize(t) {
      assert |s| == |t|;
      forall i | 0 <= i < |s| ensures Lower(s)[i] == Lower(t)[i] {
        if i == 0 {
          SameUpperSameLower(s[0], t[0]);
        } else {
          assert Capitalize(s)[i] == Capitalize(t)[i];
        }
      }
    }
    if Lower(s) == Lower(t) {
      assert |s| == |t|;
      forall i | 0 <= i < |s| ensures Capitalize(s)[i] == Capitalize(t)[i] {
        assert Lower(s)[i] == Lower(t)[i];
        if i == 0 {
          SameUpperSameLower(s[0], t[0]);
        }
      }
    }
  }

  /** Capitalising an already capitalised name changes nothing. */
  lemma CapitalizeIdempotent(s: string)
    ensures Capitalize(Capitalize(s)) == Capitalize(s)
  {
    var c := Capitalize(s);
    forall i | 0 <= i < |s| ensures Capitalize(c)[i] == c[i] {
    }
  }

  /** Lower-casing a lower-cased string changes nothing. */
  lemma LowerIdempotent(s: string)
    ensures Lower(Lower(s)) == Lower(s)
  {
    assert forall i :: 0 <= i < |s| ==> Lower(Lower(s))[i] == Lower(s)[i];
  }

  /** Capitalising keeps the letters up to case: lower-cased, the key is the name lower-cased. */
  lemma LowerCapitalize(s: string)
    ensures Lower(Capitalize(s)) == Lower(s)
  {
    assert forall i :: 0 <= i < |s| ==> Lower(Capitalize(s))[i] == Lower(s)[i];
  }

  /** `s.replace(from, to)` for single characters. */
  function Replace(s: string, from: char, to: char): (r: string)
    ensures |r| == |s|
    ensures forall i :: 0 <= i < |s| ==> r[i] == (if s[i] == from then to else s[i])
  {
    seq(|s|, i requires 0 <= i < |s| => if s[i] == from then to else s[i])
  }

  /** After the replacement no `from` is left, unless it is replaced by itself. */
  lemma ReplaceRemoves(s: string, from: char, to: char)
    requires from != to
    ensures from !in Replace(s, from, to)
  {
  }

  /** A string without `from` is left as it is. */
  lemma ReplaceAbsent(s: string, from: char, to: char)
    requires from !in s
    ensures Replace(s, from, to) == s
  {
  }

  /**
   * `_sanitize_station`: a station key made human readable. Underscores
   * become spaces and the result is capitalised: the first character upper
   * case, every other lower case. So no underscore is left and the letters
   * are those of the key, up to case.
   */
  function SanitizeStation(key: string): (r: string)
    ensures |r| == |key|
    ensures |key| > 0 ==> r[0] == ToUpper(if key[0] == '_' then ' ' else key[0])
    ensures forall i :: 0 < i < |key| ==> r[i] == ToLower(if key[i] == '_' then ' ' else key[i])
    ensures forall i :: 0 <= i < |r| ==> r[i] != '_'
    ensures Lower(r) == Lower(Replace(key, '_', ' '))
  {
    var spaced := Replace(key, '_', ' ');
    LowerCapitalize(spaced);
    Capitalize(spaced)
  }
}

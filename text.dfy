/**
 * The two string operations the list filter uses: lower-casing
 * (`toLowerCase`, here on the ASCII letters only) and substring search
 * (`includes`).
 */
module Text {

  /** Lower-cases an ASCII capital and keeps every other character. */
  function LowerChar(c: char): (r: char)
    ensures !('A' <= r <= 'Z')
    ensures 'A' <= c <= 'Z' || r == c
    ensures 'A' <= c <= 'Z' ==> 'a' <= r <= 'z' && r as int - 'a' as int == c as int - 'A' as int
  {
    if 'A' <= c <= 'Z' then (c as int - 'A' as int + 'a' as int) as char else c
  }

  /** `s.toLowerCase()` restricted to ASCII: same length, each character lowered. */
  function Lower(s: string): (r: string)
    ensures |r| == |s|
  {
    if s == [] then [] else [LowerChar(s[0])] + Lower(s[1..])
  }

  /** Each character of the lowered string is the lowered character. */
  lemma {:induction false} LowerAt(s: string, i: int)
    requires 0 <= i < |s|
    ensures Lower(s)[i] == LowerChar(s[i])
  {
    if i > 0 {
      LowerAt(s[1..], i - 1);
    }
  }

  /** Lowering an already lowered string changes nothing. */
  lemma {:induction false} LowerIdempotent(s: string)
    ensures Lower(Lower(s)) == Lower(s)
  {
    var l := Lower(s);
    forall i | 0 <= i < |l| ensures Lower(l)[i] == l[i] {
      LowerAt(l, i);
      LowerAt(s, i);
    }
  }

  /** `s.includes(q)`: `q` is a prefix of `s` or of one of its suffixes. */
  predicate Includes(s: string, q: string)
    decreases |s|
  {
    q <= s || (s != [] && Includes(s[1..], q))
  }

  /** `q` sits in `s` starting at index `i`. */
  predicate OccursAt(s: string, q: string, i: int)
  {
    0 <= i && i + |q| <= |s| && s[i..i + |q|] == q
  }

  /** Shifting a match one character to the right is dropping the first character of `s`. */
  lemma OccursAtShift(s: string, q: string, i: int)
    requires s != [] && 1 <= i
    ensures OccursAt(s, q, i) <==> OccursAt(s[1..], q, i - 1)
  {
    if i + |q| <= |s| {
      assert s[1..][i - 1..i - 1 + |q|] == s[i..i + |q|];
    }
  }

  /** `Includes` agrees with the positional definition of a substring. */
  lemma {:induction false} IncludesIffOccurs(s: string, q: string)
    ensures Includes(s, q) <==> exists i :: OccursAt(s, q, i)
    decreases |s|
  {
    if s != [] {
      IncludesIffOccurs(s[1..], q);
    }
    if exists i :: OccursAt(s, q, i) {
      var i :| OccursAt(s, q, i);
      if i > 0 {
        OccursAtShift(s, q, i);
      } else {
        assert q <= s;
      }
    }
    if Includes(s, q) {
      if q <= s {
        assert OccursAt(s, q, 0);
      } else {
        var j :| OccursAt(s[1..], q, j);
        OccursAtShift(s, q, j + 1);
      }
    }
  }
}

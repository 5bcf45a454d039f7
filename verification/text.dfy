/** The two Python string operations the generator relies on: `str.lower()`
    (restricted here to ASCII letters) and the substring test `word in text`,
    together with the `any(word in text for word in words)` scan over a word list. */
module Text {

  function LowerChar(c: char): char
  {
    if 'A' <= c <= 'Z' then (c as int + 32) as char else c
  }

  /** `s.lower()` for ASCII text: every upper-case letter is replaced by its
      lower-case form, every other character is kept. */
  function Lower(s: string): (r: string)
    ensures |r| == |s|
    ensures forall i :: 0 <= i < |s| ==> r[i] == LowerChar(s[i])
  {
    seq(|s|, i requires 0 <= i < |s| => LowerChar(s[i]))
  }

  /** Lower-casing keeps the length, and a second pass changes nothing. */
  lemma LowerIdempotent(s: string)
    ensures |Lower(s)| == |s|
    ensures Lower(Lower(s)) == Lower(s)
  {
    var t, u := Lower(s), Lower(Lower(s));
    forall i | 0 <= i < |s|
      ensures u[i] == t[i]
    {
      assert LowerChar(LowerChar(s[i])) == LowerChar(s[i]);
    }
  }

  /** Specification of Python's `w in s` on strings: `w` occurs at offset `i`. */
  ghost predicate OccursAt(s: string, w: string, i: int)
  {
    0 <= i && i + |w| <= |s| && s[i..i + |w|] == w
  }

  ghost predicate Occurs(s: string, w: string)
  {
    exists i :: OccursAt(s, w, i)
  }

  /** The substring test as a left-to-right scan. */
  function Contains(s: string, w: string): bool
    decreases |s|
  {
    if |s| < |w| then false
    else if s[..|w|] == w then true
    else Contains(s[1..], w)
  }

  /** `any(w in s for w in words)`, scanning the words in order. */
  function ContainsAny(s: string, words: seq<string>): bool
  {
    if words == [] then false
    else Contains(s, words[0]) || ContainsAny(s, words[1..])
  }

  ghost predicate AnyOccurs(s: string, words: seq<string>)
  {
    exists k :: 0 <= k < |words| && Occurs(s, words[k])
  }

  /** The scan finds `w` exactly when `w` occurs somewhere in `s`. */
  lemma {:induction false} ContainsOccurs(s: string, w: string)
    ensures Contains(s, w) <==> Occurs(s, w)
    decreases |s|
  {
    if |s| < |w| {
    } else if s[..|w|] == w {
      assert OccursAt(s, w, 0);
    } else {
      ContainsOccurs(s[1..], w);
      if Occurs(s[1..], w) {
        var i :| OccursAt(s[1..], w, i);
        var t, u := s[1..][i..i + |w|], s[i + 1..i + 1 + |w|];
        assert forall j :: 0 <= j < |w| ==> t[j] == u[j];
        assert OccursAt(s, w, i + 1);
      }
      if Occurs(s, w) {
        var i :| OccursAt(s, w, i);
        assert i != 0;
        var t, u := s[1..][i - 1..i - 1 + |w|], s[i..i + |w|];
        assert forall j :: 0 <= j < |w| ==> t[j] == u[j];
        assert OccursAt(s[1..], w, i - 1);
      }
    }
  }

  /** The `any(...)` scan is true exactly when some listed word occurs. */
  lemma {:induction false} ContainsAnyOccurs(s: string, words: seq<string>)
    ensures ContainsAny(s, words) <==> AnyOccurs(s, words)
    decreases |words|
  {
    if words != [] {
      ContainsOccurs(s, words[0]);
      ContainsAnyOccurs(s, words[1..]);
      if AnyOccurs(s, words[1..]) {
        var k :| 0 <= k < |words[1..]| && Occurs(s, words[1..][k]);
        assert Occurs(s, words[k + 1]);
      }
      if AnyOccurs(s, words) && !Occurs(s, words[0]) {
        var k :| 0 <= k < |words| && Occurs(s, words[k]);
        assert k != 0 && words[1..][k - 1] == words[k];
      }
    }
  }
}

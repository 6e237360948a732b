/** One alternative of the decoder's regular expressions, kept in its source
    syntax: plain characters and bracketed classes such as `[oó]`. The rule
    table uses no anchors, quantifiers, groups or escapes, so an alternative
    is a fixed-length sequence of character sets, and `String.prototype.match`
    succeeds exactly when some string spelled by those sets occurs anywhere in
    the text. `MatchAt` reads the source text directly; `Atoms` and
    `Keywords` give its meaning as sets of characters and of literal words. */
module Pattern {
  import opened Text

  /** The index of the first `]` at or after `k`, or `|src|` when there is none. */
  function ClassEnd(src: string, k: nat): (e: nat)
    requires k <= |src|
    ensures k <= e <= |src|
    ensures e < |src| ==> src[e] == ']'
    ensures forall i :: k <= i < e ==> src[i] != ']'
    decreases |src| - k
  {
    if k == |src| || src[k] == ']' then k else ClassEnd(src, k + 1)
  }

  /** `c` is one of `src[lo..hi]`, the members of a bracketed class. */
  predicate InClass(src: string, lo: nat, hi: nat, c: char)
    requires lo <= hi <= |src|
    decreases hi - lo
  {
    lo < hi && (src[lo] == c || InClass(src, lo + 1, hi, c))
  }

  /** The alternative `src`, read from position `j`, matches `text` starting
      at position `t`. A class without its closing bracket matches nothing. */
  predicate MatchAt(text: string, src: string, t: nat, j: nat)
    requires j <= |src|
    decreases |src| - j
  {
    if j == |src| then true
    else if src[j] == '[' then
      var e := ClassEnd(src, j + 1);
      e < |src| && t < |text| && InClass(src, j + 1, e, text[t]) && MatchAt(text, src, t + 1, e + 1)
    else t < |text| && text[t] == src[j] && MatchAt(text, src, t + 1, j + 1)
  }

  /** The alternative matches at some position `t0` or later. */
  predicate SearchFrom(text: string, src: string, t0: nat)
    decreases |text| - t0
  {
    t0 <= |text| && (MatchAt(text, src, t0, 0) || SearchFrom(text, src, t0 + 1))
  }

  /** `text.match(src)` succeeds: the alternative matches somewhere. */
  predicate Matches(text: string, src: string)
  {
    SearchFrom(text, src, 0)
  }

  /** The members of the class `src[lo..hi]`. */
  function ClassSet(src: string, lo: nat, hi: nat): set<char>
    requires lo <= hi <= |src|
  {
    set k | lo <= k < hi :: src[k]
  }

  /** The alternative from position `j` as the sequence of character sets
      each matched character must come from. */
  function Atoms(src: string, j: nat): seq<set<char>>
    requires j <= |src|
    decreases |src| - j
  {
    if j == |src| then []
    else if src[j] == '[' then
      var e := ClassEnd(src, j + 1);
      if e == |src| then [{}] else [ClassSet(src, j + 1, e)] + Atoms(src, e + 1)
    else [{src[j]}] + Atoms(src, j + 1)
  }

  /** `w` is one of the literal words the atoms spell. */
  predicate Spells(atoms: seq<set<char>>, w: string)
  {
    |w| == |atoms| && forall k :: 0 <= k < |w| ==> w[k] in atoms[k]
  }

  /** The atoms are spelled by the characters of `text` at position `t`. */
  predicate SpelledAt(atoms: seq<set<char>>, text: string, t: int)
  {
    0 <= t && t + |atoms| <= |text| && Spells(atoms, text[t..t + |atoms|])
  }

  /** All literal words the atoms spell: the alternative with its classes
      expanded, `est[oó]mago` becoming `estomago` and `estómago`. */
  function Expand(atoms: seq<set<char>>): set<string>
    decreases |atoms|
  {
    if atoms == [] then {""}
    else set c, w | c in atoms[0] && w in Expand(atoms[1..]) :: [c] + w
  }

  /** The literal keywords of an alternative. */
  function Keywords(src: string): set<string>
  {
    Expand(Atoms(src, 0))
  }

  lemma {:induction false} InClassIff(src: string, lo: nat, hi: nat, c: char)
    requires lo <= hi <= |src|
    ensures InClass(src, lo, hi, c) <==> c in ClassSet(src, lo, hi)
    decreases hi - lo
  {
    if lo < hi {
      InClassIff(src, lo + 1, hi, c);
      assert ClassSet(src, lo, hi) == {src[lo]} + ClassSet(src, lo + 1, hi);
    }
  }

  /** The interpreter agrees with the atom reading: matching at `t` means the
      characters at `t` spell a word of the atoms. */
  lemma {:induction false} MatchAtIff(text: string, src: string, t: nat, j: nat)
    requires j <= |src| && t <= |text|
    ensures MatchAt(text, src, t, j) <==> SpelledAt(Atoms(src, j), text, t)
    decreases |src| - j
  {
    var a := Atoms(src, j);
    if j == |src| {
    } else if src[j] == '[' {
      var e := ClassEnd(src, j + 1);
      if e < |src| {
        var rest := Atoms(src, e + 1);
        assert a == [ClassSet(src, j + 1, e)] + rest;
        if t < |text| {
          InClassIff(src, j + 1, e, text[t]);
          MatchAtIff(text, src, t + 1, e + 1);
          ShiftSpells(a, text, t);
        }
      } else {
        assert a == [{}];
        EmptyAtomNeverSpelled(text, t);
      }
    } else {
      var rest := Atoms(src, j + 1);
      assert a == [{src[j]}] + rest;
      if t < |text| {
        MatchAtIff(text, src, t + 1, j + 1);
        ShiftSpells(a, text, t);
      }
    }
  }

  /** Spelling with a non-empty atom sequence splits into the first
      character and the rest. */
  lemma ShiftSpells(a: seq<set<char>>, text: string, t: nat)
    requires |a| > 0 && t < |text|
    ensures SpelledAt(a, text, t) <==> text[t] in a[0] && SpelledAt(a[1..], text, t + 1)
  {
    if t + |a| <= |text| {
      var w := text[t..t + |a|];
      var w' := text[t + 1..t + |a|];
      assert w' == w[1..];
      if text[t] in a[0] && Spells(a[1..], w') {
        forall k | 0 <= k < |w| ensures w[k] in a[k] {
          if k > 0 { assert w[k] == w'[k - 1]; }
        }
      }
    }
  }

  /** Searching from `t0` succeeds exactly when the atoms are spelled at
      some position from `t0` on. */
  lemma {:induction false} SearchFromIff(text: string, src: string, t0: nat)
    requires t0 <= |text|
    ensures SearchFrom(text, src, t0) <==> exists t :: t0 <= t && SpelledAt(Atoms(src, 0), text, t)
    decreases |text| - t0
  {
    var a := Atoms(src, 0);
    MatchAtIff(text, src, t0, 0);
    if t0 < |text| {
      SearchFromIff(text, src, t0 + 1);
    }
    if exists t :: t0 <= t && SpelledAt(a, text, t) {
      var t :| t0 <= t && SpelledAt(a, text, t);
      if t > t0 {
        assert t0 + 1 <= t;
      }
    }
  }

  lemma {:induction false} ExpandIff(atoms: seq<set<char>>, w: string)
    ensures w in Expand(atoms) <==> Spells(atoms, w)
    decreases |atoms|
  {
    if atoms == [] {
    } else if |w| > 0 {
      ExpandIff(atoms[1..], w[1..]);
      assert w == [w[0]] + w[1..];
      if Spells(atoms, w) {
        assert Spells(atoms[1..], w[1..]) by {
          forall k | 0 <= k < |w[1..]| ensures w[1..][k] in atoms[1..][k] {
            assert w[1..][k] == w[k + 1];
          }
        }
      }
      if w in Expand(atoms) {
        var c, v :| c in atoms[0] && v in Expand(atoms[1..]) && [c] + v == w;
        assert v == w[1..];
        forall k | 0 <= k < |w| ensures w[k] in atoms[k] {
          if k > 0 { assert w[k] == w[1..][k - 1]; }
        }
      }
    }
  }

  /** An alternative matches exactly when one of its literal keywords occurs
      as a contiguous substring anywhere in the text: there are no anchors. */
  lemma MatchesIffKeywordOccurs(text: string, src: string)
    ensures Matches(text, src) <==> exists w :: w in Keywords(src) && Contains(text, w)
  {
    var a := Atoms(src, 0);
    SearchFromIff(text, src, 0);
    if Matches(text, src) {
      var t :| 0 <= t && SpelledAt(a, text, t);
      var w := text[t..t + |a|];
      ExpandIff(a, w);
      assert w in Keywords(src);
      assert Occurs(text, w, t);
      assert Contains(text, w);
    } else {
      forall w | w in Keywords(src) ensures !Contains(text, w) {
        ExpandIff(a, w);
        if Contains(text, w) {
          var t :| 0 <= t <= |text| && Occurs(text, w, t);
          assert SpelledAt(a, text, t);
        }
      }
    }
  }

  /** An alternative with no class is its own single keyword: it matches
      exactly when it occurs in the text. */
  lemma PlainMatches(text: string, src: string)
    requires '[' !in src
    ensures Matches(text, src) <==> Contains(text, src)
  {
    PlainAtoms(src, 0);
    var a := Atoms(src, 0);
    SearchFromIff(text, src, 0);
    if Matches(text, src) {
      var t :| 0 <= t && SpelledAt(a, text, t);
      assert text[t..t + |src|] == src;
      assert Occurs(text, src, t);
    }
    if Contains(text, src) {
      var t :| 0 <= t <= |text| && Occurs(text, src, t);
      assert SpelledAt(a, text, t);
    }
  }

  /** Without classes every atom is the single source character. */
  lemma {:induction false} PlainAtoms(src: string, j: nat)
    requires j <= |src| && '[' !in src
    ensures |Atoms(src, j)| == |src| - j
    ensures forall k :: 0 <= k < |src| - j ==> Atoms(src, j)[k] == {src[j + k]}
    decreases |src| - j
  {
    if j < |src| {
      PlainAtoms(src, j + 1);
      assert src[j] != '[';
      assert Atoms(src, j) == [{src[j]}] + Atoms(src, j + 1);
    }
  }

  /** An unclosed class, read as one empty atom, spells nothing. */
  lemma EmptyAtomNeverSpelled(text: string, t: int)
    ensures !SpelledAt([{}], text, t)
  {
    if 0 <= t && t + 1 <= |text| {
      var w := text[t..t + 1];
      var none: set<char> := {};
      assert w[0] !in none;
    }
  }
}

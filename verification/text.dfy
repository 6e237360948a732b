/** String operations the decoder and the chat rely on: JavaScript's `trim`
    (as a blank test), `toLowerCase` restricted to the letters Spanish text
    uses, substring occurrence, and `split`/`join` on a separator. */
module Text {
  import opened Wrappers

  /** The characters `String.prototype.trim` removes: the ECMAScript
      WhiteSpace and LineTerminator code points. */
  predicate IsWhitespace(c: char)
  {
    || c == '\t' || c == '\n' || c == '\U{000B}' || c == '\U{000C}' || c == '\r' || c == ' '
    || c == '\U{00A0}' || c == '\U{1680}' || ('\U{2000}' <= c <= '\U{200A}')
    || c == '\U{2028}' || c == '\U{2029}' || c == '\U{202F}' || c == '\U{205F}'
    || c == '\U{3000}' || c == '\U{FEFF}'
  }

  /** Every character is whitespace (the empty string is blank). */
  predicate IsBlank(s: string)
  {
    forall i :: 0 <= i < |s| ==> IsWhitespace(s[i])
  }

  /** The first index at or after `i` that holds no whitespace, or `|s|`. */
  function SkipLeading(s: string, i: nat): (r: nat)
    requires i <= |s|
    ensures i <= r <= |s|
    ensures forall k :: i <= k < r ==> IsWhitespace(s[k])
    ensures r < |s| ==> !IsWhitespace(s[r])
    decreases |s| - i
  {
    if i < |s| && IsWhitespace(s[i]) then SkipLeading(s, i + 1) else i
  }

  /** The index just past the last character in `s[lo..j]` that is not
      whitespace, or `lo`. */
  function SkipTrailing(s: string, lo: nat, j: nat): (r: nat)
    requires lo <= j <= |s|
    ensures lo <= r <= j
    ensures forall k :: r <= k < j ==> IsWhitespace(s[k])
    ensures lo < r ==> !IsWhitespace(s[r - 1])
    decreases j
  {
    if lo < j && IsWhitespace(s[j - 1]) then SkipTrailing(s, lo, j - 1) else j
  }

  /** `s.trim()`: the slice of `s` left after cutting whitespace from both
      ends; it neither starts nor ends with whitespace. */
  function Trim(s: string): (r: string)
    ensures exists i, j :: 0 <= i <= j <= |s| && r == s[i..j] && IsBlank(s[..i]) && IsBlank(s[j..])
    ensures r != [] ==> !IsWhitespace(r[0]) && !IsWhitespace(r[|r| - 1])
  {
    var i := SkipLeading(s, 0);
    var j := SkipTrailing(s, i, |s|);
    assert IsBlank(s[..i]) && IsBlank(s[j..]);
    s[i..j]
  }

  /** `!s.trim()` holds exactly for the blank strings. */
  lemma TrimEmptyIffBlank(s: string)
    ensures Trim(s) == [] <==> IsBlank(s)
  {
    var i := SkipLeading(s, 0);
    var j := SkipTrailing(s, i, |s|);
    assert Trim(s) == s[i..j];
    if i == j {
      assert forall k :: 0 <= k < |s| ==> IsWhitespace(s[k]);
    } else {
      assert !IsWhitespace(s[i]);
    }
  }

  /** The capitals of ASCII and Latin-1: A-Z and U+00C0-U+00DE except the
      multiplication sign. The Spanish capitals Á É Í Ó Ú Ñ Ü are among
      them. */
  predicate IsUpper(c: char)
  {
    ('A' <= c <= 'Z') || ('\U{00C0}' <= c <= '\U{00DE}' && c != '\U{00D7}')
  }

  /** `toLowerCase` on one character: each capital becomes its own small
      letter, which sits 32 code points above it in ASCII and Latin-1 alike. */
  function LowerChar(c: char): (r: char)
    ensures IsUpper(c) ==> r as int == c as int + 32
    ensures !IsUpper(c) ==> r == c
    ensures !IsUpper(r)
  {
    if IsUpper(c) then (c as int + 32) as char else c
  }

  /** `s.toLowerCase()`, character by character. */
  function Lower(s: string): (r: string)
  {
    seq(|s|, i requires 0 <= i < |s| => LowerChar(s[i]))
  }

  /** No character of `s` is an upper-case letter. */
  predicate IsLowered(s: string)
  {
    forall i :: 0 <= i < |s| ==> !IsUpper(s[i])
  }

  /** Lower-casing keeps the length, lower-cases each character in place,
      leaves no capital behind, and changes nothing in a string that has
      none. */
  lemma LowerSpec(s: string)
    ensures |Lower(s)| == |s| && IsLowered(Lower(s))
    ensures forall i :: 0 <= i < |s| ==> Lower(s)[i] == LowerChar(s[i])
    ensures IsLowered(s) ==> Lower(s) == s
  {
  }

  /** The Spanish alphabet's capitals lower-case to its small letters. */
  lemma SpanishCapitals()
    ensures Lower("ABCDEFGHIJKLMNOPQRSTUVWXYZÁÉÍÓÚÑÜ") == "abcdefghijklmnopqrstuvwxyzáéíóúñü"
  {
    var upper := "ABCDEFGHIJKLMNOPQRSTUVWXYZÁÉÍÓÚÑÜ";
    var lower := "abcdefghijklmnopqrstuvwxyzáéíóúñü";
    assert forall i :: 0 <= i < |upper| ==> IsUpper(upper[i]) && lower[i] as int == upper[i] as int + 32;
  }

  /** Lower-casing twice is lower-casing once. */
  lemma LowerIdempotent(s: string)
    ensures Lower(Lower(s)) == Lower(s)
  {
    LowerSpec(s);
    LowerSpec(Lower(s));
  }

  /** `p` occurs in `s` at index `i`. */
  predicate Occurs(s: string, p: string, i: int)
  {
    0 <= i && i + |p| <= |s| && s[i..i + |p|] == p
  }

  /** `p` is a contiguous substring of `s` (an unanchored match). */
  predicate Contains(s: string, p: string)
  {
    exists i :: 0 <= i <= |s| && Occurs(s, p, i)
  }

  /** The first index at or after `from` where `p` occurs in `s`. */
  function FirstOccurrence(s: string, p: string, from: nat): (r: Option<nat>)
    ensures r.Some? ==> from <= r.value && Occurs(s, p, r.value)
    ensures r.Some? ==> forall i :: from <= i < r.value ==> !Occurs(s, p, i)
    ensures r.None? ==> forall i :: from <= i ==> !Occurs(s, p, i)
    decreases |s| - from
  {
    if from + |p| > |s| then None
    else if s[from..from + |p|] == p then Some(from)
    else FirstOccurrence(s, p, from + 1)
  }

  /** `parts.join(sep)`. */
  function Join(parts: seq<string>, sep: string): string
  {
    if |parts| == 0 then ""
    else if |parts| == 1 then parts[0]
    else parts[0] + sep + Join(parts[1..], sep)
  }

  /** `s.split(sep)` for a non-empty separator: the pieces between the
      non-overlapping occurrences of `sep`, found left to right. Joining the
      pieces gives `s` back, no piece contains the separator, and every cut
      is at the leftmost occurrence: no occurrence starts inside a piece
      that a separator follows. */
  function Split(s: string, sep: string): (parts: seq<string>)
    requires |sep| > 0
    ensures |parts| >= 1
    ensures Join(parts, sep) == s
    ensures forall k :: 0 <= k < |parts| ==> !Contains(parts[k], sep)
    ensures forall k :: 0 <= k < |parts| - 1 ==> !Contains(parts[k] + sep[..|sep| - 1], sep)
    decreases |s|
  {
    match FirstOccurrence(s, sep, 0)
    case None => [s]
    case Some(i) =>
      var head := s[..i];
      var rest := Split(s[i + |sep|..], sep);
      assert s == head + sep + s[i + |sep|..];
      var reach := head + sep[..|sep| - 1];
      assert reach == s[..i + |sep| - 1];
      assert !Contains(reach, sep) by {
        forall j | Occurs(reach, sep, j) ensures false {
          assert s[j..j + |sep|] == reach[j..j + |sep|];
          assert Occurs(s, sep, j);
        }
      }
      assert !Contains(head, sep) by {
        forall j | Occurs(head, sep, j) ensures false {
          assert Occurs(s, sep, j);
        }
      }
      [head] + rest
  }

  /** Splitting a joined list gives the list back when the separator's first
      character appears in none of the pieces. */
  lemma {:induction false} SplitJoin(parts: seq<string>, sep: string)
    requires |sep| > 0 && |parts| >= 1
    requires forall k :: 0 <= k < |parts| ==> sep[0] !in parts[k]
    ensures Split(Join(parts, sep), sep) == parts
    decreases |parts|
  {
    var s := Join(parts, sep);
    if |parts| == 1 {
      NoOccurrenceWithoutFirstChar(s, sep);
    } else {
      var a := parts[0];
      var rest := Join(parts[1..], sep);
      assert s == a + sep + rest;
      forall i | 0 <= i < |a| ensures !Occurs(s, sep, i) {
        assert s[i] == a[i];
      }
      assert Occurs(s, sep, |a|) by { assert s[|a|..|a| + |sep|] == sep; }
      assert FirstOccurrence(s, sep, 0) == Some(|a|);
      assert s[..|a|] == a;
      assert s[|a| + |sep|..] == rest;
      SplitJoin(parts[1..], sep);
      assert [a] + parts[1..] == parts;
    }
  }

  /** A string lacking the separator's first character has no occurrence. */
  lemma NoOccurrenceWithoutFirstChar(s: string, sep: string)
    requires |sep| > 0 && sep[0] !in s
    ensures FirstOccurrence(s, sep, 0) == None
  {
  }
}

/** Strings as sequences of characters: the lexicographic order that
    `Array.prototype.sort` and `localeCompare` are modelled by, case mapping,
    substring search, and `join` / `split` on a separator. */
module Text {

  /** Strict lexicographic order on code points: the order in which the
      default `Array.prototype.sort` arranges strings. */
  predicate Lt(a: string, b: string)
    decreases |a|
  {
    if |a| == 0 then |b| > 0
    else if |b| == 0 then false
    else if a[0] != b[0] then a[0] < b[0]
    else Lt(a[1..], b[1..])
  }

  lemma {:induction false} LtIrreflexive(a: string)
    ensures !Lt(a, a)
    decreases |a|
  {
    if |a| > 0 { LtIrreflexive(a[1..]); }
  }

  lemma {:induction false} LtTrichotomy(a: string, b: string)
    ensures a == b || Lt(a, b) || Lt(b, a)
    decreases |a|
  {
    if |a| > 0 && |b| > 0 && a[0] == b[0] {
      LtTrichotomy(a[1..], b[1..]);
      if a[1..] == b[1..] {
        assert a == [a[0]] + a[1..] && b == [b[0]] + b[1..];
      }
    }
  }

  lemma {:induction false} LtAsymmetric(a: string, b: string)
    requires Lt(a, b)
    ensures !Lt(b, a)
    decreases |a|
  {
    if |a| > 0 && |b| > 0 && a[0] == b[0] { LtAsymmetric(a[1..], b[1..]); }
  }

  lemma {:induction false} LtTransitive(a: string, b: string, c: string)
    requires Lt(a, b) && Lt(b, c)
    ensures Lt(a, c)
    decreases |a|
  {
    if |a| > 0 && a[0] == b[0] && b[0] == c[0] {
      LtTransitive(a[1..], b[1..], c[1..]);
    }
  }

  /** "Not before" is transitive: if b does not follow a and c does not
      follow b, c does not follow a. */
  lemma NotLtTransitive(a: string, b: string, c: string)
    requires !Lt(a, b) && !Lt(b, c)
    ensures !Lt(a, c)
  {
    LtTrichotomy(a, b);
    LtTrichotomy(b, c);
    if Lt(a, c) {
      if Lt(b, a) && Lt(c, b) { LtTransitive(c, b, a); }
      if Lt(c, a) { LtAsymmetric(a, c); }
      LtIrreflexive(a);
    }
  }

  /** `toLowerCase` on one character, for ASCII and the Latin-1 letters
      (U+00C0..U+00DE except the multiplication sign). */
  function LowerChar(c: char): (r: char)
    ensures 'A' <= c <= 'Z' ==> r == c + (32 as char)
    ensures r != c ==> ('A' <= c <= 'Z' || 'À' <= c <= 'Þ')
  {
    if 'A' <= c <= 'Z' || ('À' <= c <= 'Þ' && c != '×') then
      (c as int + 32) as char
    else c
  }

  /** `toUpperCase` / `str.upper()` on one character, same ranges. */
  function UpperChar(c: char): (r: char)
    ensures 'a' <= c <= 'z' ==> r == (c as int - 32) as char
    ensures r != c ==> ('a' <= c <= 'z' || 'à' <= c <= 'þ')
  {
    if 'a' <= c <= 'z' || ('à' <= c <= 'þ' && c != '÷') then
      (c as int - 32) as char
    else c
  }

  function Lower(s: string): (r: string)
    ensures |r| == |s| && forall i :: 0 <= i < |s| ==> r[i] == LowerChar(s[i])
  {
    if |s| == 0 then "" else [LowerChar(s[0])] + Lower(s[1..])
  }

  function Upper(s: string): (r: string)
    ensures |r| == |s| && forall i :: 0 <= i < |s| ==> r[i] == UpperChar(s[i])
  {
    if |s| == 0 then "" else [UpperChar(s[0])] + Upper(s[1..])
  }

  /** Lower-casing is idempotent: no character `LowerChar` produces is
      changed again. */
  lemma LowerIdempotent(s: string)
    ensures Lower(Lower(s)) == Lower(s)
  {
    var l := Lower(s);
    forall i | 0 <= i < |s| ensures LowerChar(l[i]) == l[i] {}
  }

  predicate IsPrefix(w: string, s: string) {
    |w| <= |s| && s[..|w|] == w
  }

  /** `w in s` (Python) / `s.includes(w)` (JavaScript). */
  predicate Contains(s: string, w: string)
    decreases |s|
  {
    IsPrefix(w, s) || (|s| > 0 && Contains(s[1..], w))
  }

  /** Whenever a word occurs, so does each of its prefixes. */
  lemma {:induction false} ContainsPrefixOf(s: string, w: string, p: string)
    requires Contains(s, w) && IsPrefix(p, w)
    ensures Contains(s, p)
    decreases |s|
  {
    if IsPrefix(w, s) {
      assert s[..|p|] == w[..|p|];
    } else {
      ContainsPrefixOf(s[1..], w, p);
    }
  }

  /** `parts.join(sep)`. */
  function Join(parts: seq<string>, sep: string): string
    decreases |parts|
  {
    if |parts| == 0 then ""
    else if |parts| == 1 then parts[0]
    else parts[0] + sep + Join(parts[1..], sep)
  }

  /** `s.split(c)` for a one-character separator: always at least one part. */
  function Split(s: string, c: char): (r: seq<string>)
    ensures |r| >= 1
    decreases |s|
  {
    if |s| == 0 then [""]
    else if s[0] == c then [""] + Split(s[1..], c)
    else
      var rest := Split(s[1..], c);
      [[s[0]] + rest[0]] + rest[1..]
  }

  lemma {:induction false} SplitNoSeparator(p: string, c: char, tail: string)
    requires c !in p
    ensures Split(p + tail, c) ==
            [p + Split(tail, c)[0]] + Split(tail, c)[1..]
    decreases |p|
  {
    if |p| > 0 {
      SplitNoSeparator(p[1..], c, tail);
      assert (p + tail)[1..] == p[1..] + tail;
      assert [p[0]] + (p[1..] + Split(tail, c)[0]) == p + Split(tail, c)[0];
    } else {
      assert p + tail == tail;
      var r := Split(tail, c);
      assert p + r[0] == r[0];
      assert r == [r[0]] + r[1..];
    }
  }

  /** Splitting a join recovers the parts, provided no part contains the
      separator. */
  lemma {:induction false} SplitJoin(parts: seq<string>, c: char)
    requires |parts| >= 1
    requires forall i :: 0 <= i < |parts| ==> c !in parts[i]
    ensures Split(Join(parts, [c]), c) == parts
    decreases |parts|
  {
    if |parts| == 1 {
      SplitNoSeparator(parts[0], c, "");
      assert parts[0] + "" == parts[0];
    } else {
      var tail := [c] + Join(parts[1..], [c]);
      assert Join(parts, [c]) == parts[0] + tail;
      SplitNoSeparator(parts[0], c, tail);
      SplitJoin(parts[1..], c);
      assert tail[1..] == Join(parts[1..], [c]);
      assert Split(tail, c) == [""] + parts[1..];
      assert parts[0] + "" == parts[0];
      assert parts == [parts[0]] + parts[1..];
    }
  }
}

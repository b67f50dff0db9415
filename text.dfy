/**
 * The string operations the uninstall pipeline applies to the output of
 * `dpkg -S`: `split(':').first()` followed by `trimmed()`.
 */
module Text {

  /**
   * The characters `QChar::isSpace` accepts: TAB to CR, the space, NEL,
   * NO-BREAK SPACE and the Unicode space, line and paragraph separators.
   * Below 128 these are the C locale's white space: TAB, LF, VT, FF, CR and
   * the space.
   */
  predicate IsSpace(c: char)
    ensures c < '\U{80}' ==> (IsSpace(c) <==> c in " \t\n\U{0B}\U{0C}\r")
  {
    c == ' ' || ('\t' <= c <= '\r') || c == '\U{85}' || c == '\U{A0}'
    || c == '\U{1680}' || ('\U{2000}' <= c <= '\U{200A}')
    || c == '\U{2028}' || c == '\U{2029}' || c == '\U{202F}'
    || c == '\U{205F}' || c == '\U{3000}'
  }

  /** Only white space in `s[lo..hi]`. */
  predicate SpaceBetween(s: string, lo: nat, hi: nat)
    requires lo <= hi <= |s|
  {
    forall k :: lo <= k < hi ==> IsSpace(s[k])
  }

  predicate AllSpace(s: string) {
    SpaceBetween(s, 0, |s|)
  }

  /**
   * The first element of `s.split(sep)`: everything before the first `sep`,
   * or all of `s` when it has none (splitting never yields an empty list).
   */
  function BeforeFirst(s: string, sep: char): (r: string)
    ensures |r| <= |s| && r == s[..|r|]
    ensures sep !in r
    ensures |r| < |s| ==> s[|r|] == sep
  {
    if s == [] || s[0] == sep then [] else [s[0]] + BeforeFirst(s[1..], sep)
  }

  /** How many white-space characters `s` starts with. */
  function Lead(s: string): (n: nat)
    ensures n <= |s| && SpaceBetween(s, 0, n)
    ensures n < |s| ==> !IsSpace(s[n])
  {
    if s != [] && IsSpace(s[0]) then 1 + Lead(s[1..]) else 0
  }

  /** Where the white space that `s` ends with begins. */
  function TrailFrom(s: string): (n: nat)
    ensures n <= |s| && SpaceBetween(s, n, |s|)
    ensures 0 < n ==> !IsSpace(s[n - 1])
  {
    if s != [] && IsSpace(s[|s| - 1]) then TrailFrom(s[..|s| - 1]) else |s|
  }

  /**
   * `s[i..j]` is what trimming `s` keeps: only white space lies outside it
   * and, unless it is empty, it neither starts nor ends with white space.
   */
  predicate TrimsTo(s: string, i: nat, j: nat) {
    i <= j <= |s| && SpaceBetween(s, 0, i) && SpaceBetween(s, j, |s|)
    && (i < j ==> !IsSpace(s[i]) && !IsSpace(s[j - 1]))
  }

  /**
   * `QString::trimmed`: white space removed from both ends. What is kept is
   * the slice of `s` from its first to its last non-white-space character,
   * and nothing when there is none.
   */
  function Trimmed(s: string): (r: string)
    ensures Lead(s) + |r| <= |s| && r == s[Lead(s)..Lead(s) + |r|]
    ensures TrimsTo(s, Lead(s), Lead(s) + |r|)
  {
    var i, j := Lead(s), TrailFrom(s);
    if i < j then s[i..j] else []
  }

  /** Only one slice of `s` has the trimming property. */
  lemma TrimsToUnique(s: string, i: nat, j: nat, i': nat, j': nat)
    requires TrimsTo(s, i, j) && TrimsTo(s, i', j')
    ensures s[i..j] == s[i'..j']
  {
  }

  /** Trimming yields exactly the slice that has the trimming property. */
  lemma TrimmedIsTheTrim(s: string, i: nat, j: nat)
    requires TrimsTo(s, i, j)
    ensures Trimmed(s) == s[i..j]
  {
    var r := Trimmed(s);
    TrimsToUnique(s, Lead(s), Lead(s) + |r|, i, j);
  }

  /** Trimming twice is trimming once. */
  lemma TrimmedIdempotent(s: string)
    ensures Trimmed(Trimmed(s)) == Trimmed(s)
  {
    var r := Trimmed(s);
    assert r != [] ==> r[0] == s[Lead(s)] && r[|r| - 1] == s[Lead(s) + |r| - 1];
    assert TrimsTo(r, 0, |r|);
    TrimmedIsTheTrim(r, 0, |r|);
  }

  /**
   * The package name read from the output of `dpkg -S`: the text before the
   * first ':' (all of it when there is none), trimmed. It never holds a ':'
   * and never starts or ends with white space.
   */
  function ExtractPackageName(output: string): (name: string)
    ensures |name| <= |output| && ':' !in name
    ensures name != [] ==> !IsSpace(name[0]) && !IsSpace(name[|name| - 1])
  {
    var head := BeforeFirst(output, ':');
    TrimmedKeepsCharsOf(head);
    Trimmed(head)
  }

  /** What trimming keeps comes from its input and has no white space at either end. */
  lemma TrimmedKeepsCharsOf(s: string)
    ensures |Trimmed(s)| <= |s| && forall c | c in Trimmed(s) :: c in s
    ensures Trimmed(s) != [] ==> !IsSpace(Trimmed(s)[0]) && !IsSpace(Trimmed(s)[|Trimmed(s)| - 1])
  {
    var r, i := Trimmed(s), Lead(s);
    assert TrimsTo(s, i, i + |r|);
    SliceKeepsChars(s, i, i + |r|);
  }

  lemma SliceKeepsChars(s: string, i: nat, j: nat)
    requires i <= j <= |s|
    ensures forall c | c in s[i..j] :: c in s
  {
    forall c | c in s[i..j] ensures c in s {
      var k :| 0 <= k < j - i && s[i..j][k] == c;
      assert s[i + k] == c;
    }
  }

  /** Cutting before the first separator of `p + [sep] + rest` gives `p` back. */
  lemma {:induction false} BeforeFirstOfField(p: string, sep: char, rest: string)
    requires sep !in p
    ensures BeforeFirst(p + [sep] + rest, sep) == p
  {
    if p != [] {
      assert (p + [sep] + rest)[1..] == p[1..] + [sep] + rest;
      BeforeFirstOfField(p[1..], sep, rest);
    }
  }

  /** Surrounding a trimmed `pkg` with white space gives a string that trims back to `pkg`. */
  lemma TrimsToPadded(lead: string, pkg: string, trail: string)
    requires AllSpace(lead) && AllSpace(trail)
    requires pkg != [] ==> !IsSpace(pkg[0]) && !IsSpace(pkg[|pkg| - 1])
    ensures TrimsTo(lead + pkg + trail, |lead|, |lead| + |pkg|)
    ensures (lead + pkg + trail)[|lead|..|lead| + |pkg|] == pkg
  {
    var head := lead + pkg + trail;
    var i, j := |lead|, |lead| + |pkg|;
    assert head[i..j] == pkg;
    assert SpaceBetween(head, 0, i) by {
      forall k | 0 <= k < i ensures IsSpace(head[k]) { assert head[k] == lead[k]; }
    }
    assert SpaceBetween(head, j, |head|) by {
      forall k | j <= k < |head| ensures IsSpace(head[k]) { assert head[k] == trail[k - j]; }
    }
    assert pkg != [] ==> head[i] == pkg[0] && head[j - 1] == pkg[|pkg| - 1];
  }

  /**
   * A line `lead + pkg + trail + ":" + rest`, with only white space in `lead`
   * and `trail` and a colon-free `pkg` with no white space at its ends,
   * resolves to `pkg`: the `dpkg -S` format "pkg: /some/path" is one case.
   */
  lemma PackageNameOfLine(lead: string, pkg: string, trail: string, rest: string)
    requires AllSpace(lead) && AllSpace(trail)
    requires ':' !in lead && ':' !in pkg && ':' !in trail
    requires pkg != [] ==> !IsSpace(pkg[0]) && !IsSpace(pkg[|pkg| - 1])
    ensures ExtractPackageName(lead + pkg + trail + ":" + rest) == pkg
  {
    var head := lead + pkg + trail;
    assert ':' !in head;
    assert lead + pkg + trail + ":" + rest == head + [':'] + rest;
    BeforeFirstOfField(head, ':', rest);
    TrimsToPadded(lead, pkg, trail);
    TrimmedIsTheTrim(head, |lead|, |lead| + |pkg|);
  }

  /** The resolved name is empty exactly when only white space precedes the first ':'. */
  lemma PackageNameEmptyIff(output: string)
    ensures ExtractPackageName(output) == "" <==> AllSpace(BeforeFirst(output, ':'))
  {
    var head := BeforeFirst(output, ':');
    if AllSpace(head) {
      TrimmedIsTheTrim(head, |head|, |head|);
    }
  }

  /** Output without any ':' is trimmed as a whole. */
  lemma PackageNameWithoutColon(output: string)
    requires ':' !in output
    ensures ExtractPackageName(output) == Trimmed(output)
  {
    var head := BeforeFirst(output, ':');
    assert head == output;
  }
}

/** The few JavaScript string operations the core uses (`indexOf`,
    `replace` with a string pattern, `trim`, `toUpperCase`, `replace(/-/g, '')`
    and `Array.prototype.join`), written out over `seq<char>`. */
module Text {
  import opened Wrappers
  import Seqs

  /** `pat` occurs in `s` starting at index `i`. */
  predicate OccursAt(s: string, pat: string, i: nat) {
    i <= |s| && pat <= s[i..]
  }

  /** `String.prototype.indexOf`: the first index at which `pat` occurs. */
  function IndexOf(s: string, pat: string): (r: Option<nat>)
    ensures r.Some? ==> r.value + |pat| <= |s|
    decreases |s|
  {
    if pat <= s then Some(0)
    else if s == [] then None
    else match IndexOf(s[1..], pat)
      case None => None
      case Some(k) => Some(k + 1)
  }

  /** `IndexOf` finds an occurrence, and no occurrence lies before it; it
      finds nothing only when `pat` does not occur at all. */
  lemma {:induction false} IndexOfSpec(s: string, pat: string)
    ensures IndexOf(s, pat).Some? ==> OccursAt(s, pat, IndexOf(s, pat).value)
    ensures IndexOf(s, pat).Some? ==> forall j :: 0 <= j < IndexOf(s, pat).value ==> !OccursAt(s, pat, j)
    ensures IndexOf(s, pat).None? ==> forall j :: 0 <= j <= |s| ==> !OccursAt(s, pat, j)
    decreases |s|
  {
    if pat <= s {
      assert s[0..] == s;
    } else if s != [] {
      var tail := s[1..];
      IndexOfSpec(tail, pat);
      forall j | 1 <= j <= |s|
        ensures OccursAt(s, pat, j) <==> OccursAt(tail, pat, j - 1)
      {
        OccursAtTail(s, pat, j);
      }
      assert s[0..] == s;
    }
  }

  /** An occurrence past the first character is an occurrence in the tail. */
  lemma OccursAtTail(s: string, pat: string, j: nat)
    requires 1 <= j && s != []
    ensures OccursAt(s, pat, j) <==> OccursAt(s[1..], pat, j - 1)
  {
    if j <= |s| {
      assert s[1..][j - 1..] == s[j..];
    }
  }

  /** `String.prototype.replace` with a string pattern: only the first
      occurrence of `pat` is replaced. */
  function ReplaceFirst(s: string, pat: string, rep: string): string
    decreases |s|
  {
    if pat <= s then rep + s[|pat|..]
    else if s == [] then []
    else [s[0]] + ReplaceFirst(s[1..], pat, rep)
  }

  /** Replacing the first occurrence cuts `s` at the index `IndexOf` finds,
      and leaves a string without `pat` unchanged. */
  lemma {:induction false} ReplaceFirstAtIndexOf(s: string, pat: string, rep: string)
    ensures ReplaceFirst(s, pat, rep) ==
      match IndexOf(s, pat)
      case None => s
      case Some(i) => s[..i] + rep + s[i + |pat|..]
    decreases |s|
  {
    if pat <= s {
      assert s[..0] == [];
    } else if s != [] {
      var tail := s[1..];
      ReplaceFirstAtIndexOf(tail, pat, rep);
      match IndexOf(tail, pat)
      case None =>
        assert [s[0]] + tail == s;
      case Some(k) =>
        ReplaceFirstStep(s, pat, rep, k);
    }
  }

  /** The inductive step of `ReplaceFirstAtIndexOf` when the tail has an
      occurrence at `k`. */
  lemma ReplaceFirstStep(s: string, pat: string, rep: string, k: nat)
    requires s != [] && !(pat <= s) && k + |pat| <= |s| - 1
    requires ReplaceFirst(s[1..], pat, rep) == s[1..][..k] + rep + s[1..][k + |pat|..]
    ensures ReplaceFirst(s, pat, rep) == s[..k + 1] + rep + s[k + 1 + |pat|..]
  {
    var front, back := s[1..][..k], s[1..][k + |pat|..];
    assert [s[0]] + front == s[..k + 1];
    assert back == s[k + 1 + |pat|..];
    assert [s[0]] + (front + rep + back) == ([s[0]] + front) + rep + back;
  }

  /** ECMAScript WhiteSpace and LineTerminator code points, which
      `String.prototype.trim` removes. */
  predicate IsWhiteSpace(c: char) {
    c in WHITE_SPACE || '\U{2000}' <= c <= '\U{200A}'
  }

  const WHITE_SPACE: set<char> :=
    {'\t', '\n', '\U{B}', '\U{C}', '\r', ' ', '\U{A0}', '\U{1680}',
     '\U{2028}', '\U{2029}', '\U{202F}', '\U{205F}', '\U{3000}', '\U{FEFF}'}

  /** Drops leading white space. */
  function TrimStart(s: string): (r: string)
    ensures |r| <= |s|
  {
    if s != [] && IsWhiteSpace(s[0]) then TrimStart(s[1..]) else s
  }

  /** What `TrimStart` keeps is a suffix that does not start with white
      space, and what it drops is all white space. */
  lemma {:induction false} TrimStartSpec(s: string)
    ensures var r := TrimStart(s);
      && r == s[|s| - |r|..]
      && (r == [] || !IsWhiteSpace(r[0]))
      && forall i :: 0 <= i < |s| - |r| ==> IsWhiteSpace(s[i])
    decreases |s|
  {
    if s != [] && IsWhiteSpace(s[0]) {
      TrimStartSpec(s[1..]);
    }
  }

  /** Drops trailing white space. */
  function TrimEnd(s: string): (r: string)
    ensures |r| <= |s|
  {
    if s != [] && IsWhiteSpace(s[|s| - 1]) then TrimEnd(s[..|s| - 1]) else s
  }

  /** What `TrimEnd` keeps is a prefix that does not end with white space,
      and what it drops is all white space. */
  lemma {:induction false} TrimEndSpec(s: string)
    ensures var r := TrimEnd(s);
      && r == s[..|r|]
      && (r == [] || !IsWhiteSpace(r[|r| - 1]))
      && forall i :: |r| <= i < |s| ==> IsWhiteSpace(s[i])
    decreases |s|
  {
    if s != [] && IsWhiteSpace(s[|s| - 1]) {
      TrimEndSpec(s[..|s| - 1]);
    }
  }

  /** `String.prototype.trim`. */
  function Trim(s: string): string {
    TrimEnd(TrimStart(s))
  }

  predicate IsAsciiLower(c: char) {
    'a' <= c <= 'z'
  }

  function AsciiUpper(c: char): char {
    if IsAsciiLower(c) then (c as int - 32) as char else c
  }

  /** `String.prototype.toUpperCase`, restricted to the ASCII letters. */
  function ToUpper(s: string): (r: string)
    ensures |r| == |s|
  {
    seq(|s|, i requires 0 <= i < |s| => AsciiUpper(s[i]))
  }

  /** No ASCII lower-case letter survives `ToUpper`. */
  lemma ToUpperHasNoLower(s: string)
    ensures forall c :: c in ToUpper(s) ==> !IsAsciiLower(c)
  {
    var r := ToUpper(s);
    forall c | c in r
      ensures !IsAsciiLower(c)
    {
      var i :| 0 <= i < |r| && r[i] == c;
      assert c == AsciiUpper(s[i]);
    }
  }

  /** A string without ASCII lower-case letters is its own upper case. */
  lemma ToUpperUnchanged(s: string)
    requires forall c :: c in s ==> !IsAsciiLower(c)
    ensures ToUpper(s) == s
  {
    assert forall i :: 0 <= i < |s| ==> s[i] in s;
  }

  /** `s.replace(/c/g, '')`. */
  function RemoveAll(s: string, c: char): (r: string)
    ensures |r| <= |s|
  {
    if s == [] then []
    else if s[0] == c then RemoveAll(s[1..], c)
    else [s[0]] + RemoveAll(s[1..], c)
  }

  /** Every occurrence of `c` is removed and nothing else is added. */
  lemma {:induction false} RemoveAllSpec(s: string, c: char)
    ensures c !in RemoveAll(s, c)
    ensures forall x :: x in RemoveAll(s, c) ==> x in s
    ensures c !in s ==> RemoveAll(s, c) == s
    decreases |s|
  {
    if s != [] {
      RemoveAllSpec(s[1..], c);
    }
  }

  /** `String.prototype.substring(start)`: the empty string when `start`
      lies past the end. */
  function Substring(s: string, start: nat): string {
    if start <= |s| then s[start..] else ""
  }

  /** Removing `c` around one occurrence of it. */
  lemma RemoveAllAround(a: string, b: string, c: char)
    ensures RemoveAll(a + [c] + b, c) == RemoveAll(a, c) + RemoveAll(b, c)
  {
    RemoveAllAppend(a + [c], b, c);
    RemoveAllAppend(a, [c], c);
    assert RemoveAll([c], c) == [];
    assert RemoveAll(a, c) + [] == RemoveAll(a, c);
  }

  /** `Array.prototype.join(sep)`. */
  function Join(parts: seq<string>, sep: string): string {
    if parts == [] then ""
    else if |parts| == 1 then parts[0]
    else parts[0] + sep + Join(parts[1..], sep)
  }

  /** A join of at least one part starts with the first part. */
  lemma JoinStartsWithFirst(parts: seq<string>, sep: string)
    requires parts != []
    ensures parts[0] <= Join(parts, sep)
  {
  }

  /** A string that neither starts nor ends with white space is its own
      trim. */
  lemma TrimUnchanged(s: string)
    requires s == [] || (!IsWhiteSpace(s[0]) && !IsWhiteSpace(s[|s| - 1]))
    ensures Trim(s) == s
  {
    assert TrimStart(s) == s;
  }

  /** Removing a character distributes over concatenation. */
  lemma {:induction false} RemoveAllAppend(a: string, b: string, c: char)
    ensures RemoveAll(a + b, c) == RemoveAll(a, c) + RemoveAll(b, c)
    decreases |a|
  {
    if a == [] {
      Seqs.AppendEmpty(b);
    } else {
      RemoveAllAppend(a[1..], b, c);
      Seqs.DropFirstAppend(a, b);
      if a[0] != c {
        Seqs.AppendAssociative([a[0]], RemoveAll(a[1..], c), RemoveAll(b, c));
      }
    }
  }
}

/** String operations of JavaScript and Python that the client and the server
    rely on, stated over Dafny strings (sequences of Unicode scalar values). */
module Text {
  import opened Wrappers

  /** `pat` occurs in `s` starting at index `i`. */
  predicate OccursAt(s: string, pat: string, i: nat) {
    i + |pat| <= |s| && s[i..i + |pat|] == pat
  }

  /** The first index at or after `from` at which `pat` occurs in `s`. */
  function IndexFrom(s: string, pat: string, from: nat): (r: Option<nat>)
    ensures r.Some? ==> from <= r.value && OccursAt(s, pat, r.value)
    ensures r.Some? ==> forall j :: from <= j < r.value ==> !OccursAt(s, pat, j)
    ensures r.None? ==> forall j :: from <= j ==> !OccursAt(s, pat, j)
    decreases |s| - from
  {
    if from + |pat| > |s| then None
    else if s[from..from + |pat|] == pat then Some(from)
    else IndexFrom(s, pat, from + 1)
  }

  /** The first occurrence of `pat` in `s`: `s.indexOf(pat)` in JavaScript,
      `s.find(pat)` in Python, with `None` for -1. */
  function IndexOf(s: string, pat: string): (r: Option<nat>)
    ensures r.Some? ==> OccursAt(s, pat, r.value)
    ensures r.Some? ==> forall j :: 0 <= j < r.value ==> !OccursAt(s, pat, j)
    ensures r.None? <==> forall j :: !OccursAt(s, pat, j)
  {
    IndexFrom(s, pat, 0)
  }

  /** An occurrence with none before it is the one `IndexOf` finds. */
  lemma IndexOfIs(s: string, pat: string, k: nat)
    requires OccursAt(s, pat, k)
    requires forall j :: 0 <= j < k ==> !OccursAt(s, pat, j)
    ensures IndexOf(s, pat) == Some(k)
  {
    var r := IndexOf(s, pat);
    assert r.Some?;
    assert !(r.value < k) && !(r.value > k);
  }

  /** A character that differs from the pattern rules out an occurrence there. */
  lemma MismatchAt(s: string, pat: string, i: nat, d: nat)
    requires d < |pat| && (i + d >= |s| || s[i + d] != pat[d])
    ensures !OccursAt(s, pat, i)
  {
    if i + |pat| <= |s| {
      assert s[i..i + |pat|][d] == s[i + d];
    }
  }

  /** `s.includes(pat)` in JavaScript, `pat in s` in Python. */
  predicate Contains(s: string, pat: string) {
    IndexOf(s, pat).Some?
  }

  /** A one-character pattern is contained exactly when the character is. */
  lemma ContainsChar(s: string, c: char)
    ensures Contains(s, [c]) <==> c in s
  {
    if c in s {
      var i :| 0 <= i < |s| && s[i] == c;
      assert OccursAt(s, [c], i);
    }
    if Contains(s, [c]) {
      var i := IndexOf(s, [c]).value;
      assert s[i] == s[i..i + 1][0];
    }
  }

  /** An occurrence of `pat` inside `t` is an occurrence inside `s + t`. */
  lemma ContainsSuffix(s: string, t: string, pat: string)
    requires Contains(t, pat)
    ensures Contains(s + t, pat)
  {
    var i := IndexOf(t, pat).value;
    assert (s + t)[|s| + i..|s| + i + |pat|] == t[i..i + |pat|];
    assert OccursAt(s + t, pat, |s| + i);
  }

  /** Whose notion of whitespace a trim uses. */
  datatype Spaces = Js | Py

  /** The whitespace that JavaScript's `trim()` removes: WhiteSpace and
      LineTerminator of ECMA-262 (Unicode category Zs included). */
  predicate IsJsSpace(c: char) {
    c == '\t' || c == '\n' || c == '\U{000B}' || c == '\U{000C}' || c == '\r' || c == ' '
    || c == '\U{00A0}' || c == '\U{1680}' || ('\U{2000}' <= c <= '\U{200A}')
    || c == '\U{2028}' || c == '\U{2029}' || c == '\U{202F}' || c == '\U{205F}'
    || c == '\U{3000}' || c == '\U{FEFF}'
  }

  /** The whitespace that Python's `str.strip()` and `str.isspace()` recognise. */
  predicate IsPySpace(c: char) {
    c == '\t' || c == '\n' || c == '\U{000B}' || c == '\U{000C}' || c == '\r'
    || ('\U{001C}' <= c <= '\U{001F}') || c == ' ' || c == '\U{0085}' || c == '\U{00A0}'
    || c == '\U{1680}' || ('\U{2000}' <= c <= '\U{200A}') || c == '\U{2028}' || c == '\U{2029}'
    || c == '\U{202F}' || c == '\U{205F}' || c == '\U{3000}'
  }

  /** `c` is whitespace for `ws`. */
  predicate IsSpace(ws: Spaces, c: char) {
    match ws
    case Js => IsJsSpace(c)
    case Py => IsPySpace(c)
  }

  /** `s` without its leading whitespace. */
  function TrimStart(s: string, ws: Spaces): (r: string)
    ensures |r| <= |s| && r == s[|s| - |r|..]
    ensures forall i :: 0 <= i < |s| - |r| ==> IsSpace(ws, s[i])
    ensures r != [] ==> !IsSpace(ws, r[0])
    decreases |s|
  {
    if |s| > 0 && IsSpace(ws, s[0]) then TrimStart(s[1..], ws) else s
  }

  /** `s` without its trailing whitespace. */
  function TrimEnd(s: string, ws: Spaces): (r: string)
    ensures |r| <= |s| && r == s[..|r|]
    ensures forall i :: |r| <= i < |s| ==> IsSpace(ws, s[i])
    ensures r != [] ==> !IsSpace(ws, r[|r| - 1])
    decreases |s|
  {
    if |s| > 0 && IsSpace(ws, s[|s| - 1]) then TrimEnd(s[..|s| - 1], ws) else s
  }

  /** `r` is the slice of `s` that starts at `k`. */
  predicate SliceAt(s: string, r: string, k: nat) {
    k + |r| <= |s| && r == s[k..k + |r|]
  }

  /** `s` with whitespace removed at both ends: JavaScript's `trim()` for
      `Js`, Python's `strip()` for `Py`. */
  function Trim(s: string, ws: Spaces): (r: string)
    ensures exists k :: SliceAt(s, r, k)
    ensures r != [] ==> !IsSpace(ws, r[0]) && !IsSpace(ws, r[|r| - 1])
    ensures r == [] <==> forall i :: 0 <= i < |s| ==> IsSpace(ws, s[i])
  {
    var t := TrimStart(s, ws);
    var r := TrimEnd(t, ws);
    assert SliceAt(s, r, |s| - |t|);
    r
  }

  /** A string that starts and ends with a non-whitespace character is its own trim. */
  lemma TrimTrimmed(s: string, ws: Spaces)
    requires s != [] && !IsSpace(ws, s[0]) && !IsSpace(ws, s[|s| - 1])
    ensures Trim(s, ws) == s
  {
  }

  /** `parts` joined with `sep` between neighbours: `sep.join(parts)` in Python,
      `parts.join(sep)` in JavaScript. */
  function Join(parts: seq<string>, sep: string): (r: string)
    ensures |parts| == 1 ==> r == parts[0]
    decreases |parts|
  {
    if |parts| == 0 then ""
    else if |parts| == 1 then parts[0]
    else parts[0] + sep + Join(parts[1..], sep)
  }

  /** Joining a part in front of a non-empty rest puts one separator between them. */
  lemma JoinCons(p: string, rest: seq<string>, sep: string)
    requires rest != []
    ensures Join([p] + rest, sep) == p + sep + Join(rest, sep)
  {
    assert ([p] + rest)[1..] == rest;
  }

  /** Joining three parts in front of a non-empty rest. */
  lemma JoinThree(a: string, b: string, c: string, rest: seq<string>, sep: string)
    requires rest != []
    ensures Join([a, b, c] + rest, sep) == (a + sep + b + sep + c + sep) + Join(rest, sep)
  {
    JoinCons(c, rest, sep);
    assert [b] + ([c] + rest) == [b, c] + rest;
    JoinCons(b, [c] + rest, sep);
    assert [a] + ([b, c] + rest) == [a, b, c] + rest;
    JoinCons(a, [b, c] + rest, sep);
  }

  /** Every part occurs in the text the parts are joined into. */
  lemma {:induction false} JoinHolds(parts: seq<string>, sep: string, i: nat)
    requires i < |parts|
    ensures exists k: nat :: OccursAt(Join(parts, sep), parts[i], k)
    decreases |parts|
  {
    var s := Join(parts, sep);
    if |parts| == 1 {
      assert OccursAt(s, parts[i], 0);
    } else {
      var head := parts[0] + sep;
      assert s == head + Join(parts[1..], sep);
      if i == 0 {
        assert s[..|parts[0]|] == parts[0];
        assert OccursAt(s, parts[i], 0);
      } else {
        JoinHolds(parts[1..], sep, i - 1);
        var k: nat :| OccursAt(Join(parts[1..], sep), parts[1..][i - 1], k);
        assert s[|head| + k..|head| + k + |parts[i]|] == Join(parts[1..], sep)[k..k + |parts[i]|];
        assert OccursAt(s, parts[i], |head| + k);
      }
    }
  }

  /** ... hence `Contains` finds each of them. */
  lemma JoinContains(parts: seq<string>, sep: string)
    ensures forall i :: 0 <= i < |parts| ==> Contains(Join(parts, sep), parts[i])
  {
    forall i | 0 <= i < |parts| ensures Contains(Join(parts, sep), parts[i]) {
      JoinHolds(parts, sep, i);
    }
  }

  /** Joining the first `k` parts gives a prefix of joining them all. */
  lemma {:induction false} JoinPrefix(parts: seq<string>, k: nat, sep: string)
    requires 1 <= k <= |parts|
    ensures Join(parts[..k], sep) <= Join(parts, sep)
    decreases k
  {
    if k > 1 {
      var rest := parts[1..];
      assert parts[..k][0] == parts[0] && parts[..k][1..] == rest[..k - 1];
      JoinPrefix(rest, k - 1, sep);
      var a, b := Join(rest[..k - 1], sep), Join(rest, sep);
      assert (parts[0] + sep + b)[..|parts[0] + sep + a|] == parts[0] + sep + b[..|a|];
    } else if |parts| > 1 {
      assert Join(parts, sep) == parts[0] + (sep + Join(parts[1..], sep));
    }
  }

  /** The index of the first `c` in `s`. */
  function FirstIndexOfChar(s: string, c: char): (i: nat)
    requires c in s
    ensures i < |s| && s[i] == c && c !in s[..i]
  {
    if s[0] == c then 0 else 1 + FirstIndexOfChar(s[1..], c)
  }

  /** `s.split(sep)` in JavaScript and in Python, for a one-character separator:
      the pieces between separators, empty ones included. */
  function Split(s: string, sep: char): (r: seq<string>)
    ensures |r| >= 1
    ensures forall i :: 0 <= i < |r| ==> sep !in r[i]
    ensures Join(r, [sep]) == s
    ensures r[0] <= s && (|r[0]| < |s| ==> s[|r[0]|] == sep)
    decreases |s|
  {
    if sep !in s then [s]
    else
      var i := FirstIndexOfChar(s, sep);
      var rest := Split(s[i + 1..], sep);
      var r := [s[..i]] + rest;
      assert r[1..] == rest;
      assert s == s[..i] + [sep] + s[i + 1..];
      r
  }

  /** `l` is the end of `s` after the last `sep`: a suffix of `s`, preceded by
      `sep` unless it is all of `s`. */
  predicate EndPiece(s: string, l: string, sep: char) {
    |l| <= |s| && s[|s| - |l|..] == l && (|l| < |s| ==> s[|s| - |l| - 1] == sep)
  }

  /** The end of a text after its last separator is unique. */
  lemma EndPieceUnique(s: string, a: string, b: string, sep: char)
    requires EndPiece(s, a, sep) && EndPiece(s, b, sep) && sep !in a && sep !in b
    ensures a == b
  {
  }

  /** The last piece of a split is the end of the text after its last separator. */
  lemma {:induction false} SplitLast(s: string, sep: char)
    ensures EndPiece(s, Last(Split(s, sep)), sep)
    decreases |s|
  {
    if sep !in s {
      assert Split(s, sep) == [s];
    } else {
      var i := FirstIndexOfChar(s, sep);
      var t := s[i + 1..];
      SplitLast(t, sep);
      SplitUnfold(s, sep, i);
      var rest := Split(t, sep);
      LastOfCons(s[..i], rest);
      EndPieceAfter(s, i, sep, Last(rest));
    }
  }

  /** The end piece of the text after a separator is an end piece of the whole text. */
  lemma EndPieceAfter(s: string, i: nat, sep: char, l: string)
    requires i < |s| && s[i] == sep && EndPiece(s[i + 1..], l, sep)
    ensures EndPiece(s, l, sep)
  {
    var t := s[i + 1..];
    var k := |s| - |l|;
    assert s[k..] == t[k - (i + 1)..];
    if |l| < |t| {
      assert s[k - 1] == t[k - 1 - (i + 1)];
    }
  }

  /** The last element of `[x] + rest` is that of `rest`. */
  lemma LastOfCons<T>(x: T, rest: seq<T>)
    requires |rest| >= 1
    ensures Last([x] + rest) == Last(rest)
  {
  }

  /** One step of `Split`: the piece before the first separator, then the split of the rest. */
  lemma SplitUnfold(s: string, sep: char, i: nat)
    requires sep in s && i == FirstIndexOfChar(s, sep)
    ensures var r := Split(s, sep); var rest := Split(s[i + 1..], sep);
            r == [s[..i]] + rest
  {
  }

  /** The last element of a non-empty sequence (`pop()` of the split, `[-1]` in Python). */
  function Last<T>(s: seq<T>): T
    requires |s| > 0
  {
    s[|s| - 1]
  }

  /** Simple case mapping of the Basic Latin letters. */
  function LowerChar(c: char): char {
    if 'A' <= c <= 'Z' then (c as int + 32) as char else c
  }

  function UpperChar(c: char): char {
    if 'a' <= c <= 'z' then (c as int - 32) as char else c
  }

  /** `toLowerCase()` / `lower()` on the Basic Latin letters; other characters are kept. */
  function Lower(s: string): (r: string)
    ensures |r| == |s|
    ensures forall i :: 0 <= i < |s| ==> r[i] == LowerChar(s[i])
  {
    seq(|s|, i requires 0 <= i < |s| => LowerChar(s[i]))
  }

  /** `s[a:b]` in Python for non-negative bounds: both ends are clamped to the length. */
  function Slice(s: string, a: nat, b: nat): (r: string)
    ensures |r| <= |s| && (a <= b ==> |r| <= b - a)
    ensures exists k :: SliceAt(s, r, k)
    ensures a <= b <= |s| ==> r == s[a..b]
  {
    var lo := if a < |s| then a else |s|;
    var hi := if b < lo then lo else if b < |s| then b else |s|;
    assert SliceAt(s, s[lo..hi], lo);
    s[lo..hi]
  }
}

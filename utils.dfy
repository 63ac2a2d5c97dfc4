/** The server's text helpers (backend/utils.py): packing a document's pieces
    into clauses of bounded length, and picking the excerpt of a document that
    best matches a question. */
module Utils {
  import opened Wrappers
  import opened Text

  /** `part.strip()` for a piece of the regex split. */
  function Strip(s: string): string {
    Trim(s, Py)
  }

  /** A non-empty piece with no whitespace at either end, which `strip()` leaves as it is. */
  predicate Stripped(s: string) {
    s != "" && !IsPySpace(s[0]) && !IsPySpace(s[|s| - 1])
  }

  /** The pieces the clause loop keeps: each piece stripped, the blank ones dropped, in order. */
  function Kept(parts: seq<string>): (r: seq<string>)
    ensures |r| <= |parts|
    decreases |parts|
  {
    if parts == [] then []
    else
      var p := Strip(parts[0]);
      if p == "" then Kept(parts[1..]) else [p] + Kept(parts[1..])
  }

  /** Keeping works piece by piece: the kept pieces of `a + b` are those of
      `a` followed by those of `b`. */
  lemma {:induction false} KeptAppend(a: seq<string>, b: seq<string>)
    ensures Kept(a + b) == Kept(a) + Kept(b)
    decreases |a|
  {
    if a == [] {
      assert a + b == b;
    } else {
      assert (a + b)[0] == a[0] && (a + b)[1..] == a[1..] + b;
      KeptAppend(a[1..], b);
    }
  }

  /** One piece is kept, stripped, exactly when it does not strip to nothing. */
  lemma KeptSingle(p: string)
    ensures Kept([p]) == if Strip(p) == "" then [] else [Strip(p)]
  {
    assert [p][1..] == [];
  }

  /** A sequence is its part before `i`, its `i`-th element and its part after. */
  lemma SplitAround(parts: seq<string>, i: nat)
    requires i < |parts|
    ensures parts == parts[..i] + [parts[i]] + parts[i + 1..]
  {
  }

  /** Every part that does not strip to nothing is kept, stripped. */
  lemma KeptComplete(parts: seq<string>, i: nat)
    requires i < |parts| && Strip(parts[i]) != ""
    ensures Strip(parts[i]) in Kept(parts)
  {
    var a, p, b := parts[..i], parts[i], parts[i + 1..];
    SplitAround(parts, i);
    KeptAppend(a + [p], b);
    KeptAppend(a, [p]);
    KeptSingle(p);
    assert Kept(parts) == Kept(a) + [Strip(p)] + Kept(b);
    assert (Kept(a) + [Strip(p)] + Kept(b))[|Kept(a)|] == Strip(p);
  }

  /** Every kept piece is the stripping of a part that does not strip to nothing. */
  lemma {:induction false} KeptSound(parts: seq<string>, x: string)
    requires x in Kept(parts)
    ensures exists i :: 0 <= i < |parts| && Strip(parts[i]) != "" && x == Strip(parts[i])
    decreases |parts|
  {
    var rest := parts[1..];
    SplitAround(parts, 0);
    assert parts[..0] == [];
    KeptAppend([parts[0]], rest);
    KeptSingle(parts[0]);
    if !(Strip(parts[0]) != "" && x == Strip(parts[0])) {
      KeptSound(rest, x);
      var i :| 0 <= i < |rest| && Strip(rest[i]) != "" && x == Strip(rest[i]);
      assert rest[i] == parts[i + 1];
    }
  }

  /** The kept pieces are exactly the stripped non-blank parts. */
  lemma KeptMembers(parts: seq<string>, x: string)
    ensures x in Kept(parts) <==> exists i :: 0 <= i < |parts| && Strip(parts[i]) != "" && x == Strip(parts[i])
  {
    if x in Kept(parts) {
      KeptSound(parts, x);
    } else {
      forall i | 0 <= i < |parts| && Strip(parts[i]) != "" ensures x != Strip(parts[i]) {
        KeptComplete(parts, i);
      }
    }
  }

  /** A piece that does not strip to nothing strips to a `Stripped` one. */
  lemma StripStripped(s: string)
    requires Strip(s) != ""
    ensures Stripped(Strip(s))
  {
    var r := Trim(s, Py);
    assert !IsSpace(Py, r[0]) && !IsSpace(Py, r[|r| - 1]);
  }

  /** Every kept piece is stripped and non-empty. */
  lemma {:induction false} KeptStripped(parts: seq<string>)
    ensures forall i :: 0 <= i < |Kept(parts)| ==> Stripped(Kept(parts)[i])
    decreases |parts|
  {
    if parts != [] {
      KeptStripped(parts[1..]);
      var p := Strip(parts[0]);
      var rest := Kept(parts[1..]);
      if p != "" {
        StripStripped(parts[0]);
        assert Kept(parts) == [p] + rest;
        forall i | 0 <= i < |Kept(parts)|
          ensures Stripped(Kept(parts)[i])
        {
          if i > 0 {
            assert Kept(parts)[i] == rest[i - 1];
          }
        }
      }
    }
  }

  /** The summed lengths of some pieces (the joining spaces not counted). */
  function SumLen(g: seq<string>): nat
    decreases |g|
  {
    if g == [] then 0 else SumLen(g[..|g| - 1]) + |g[|g| - 1]|
  }

  /** The pieces of all groups, in order. */
  function Flatten(groups: seq<seq<string>>): seq<string>
    decreases |groups|
  {
    if groups == [] then [] else groups[0] + Flatten(groups[1..])
  }

  /** The grouping the greedy loop builds, continuing from the open group
      `current` over the remaining kept pieces: a piece joins the open group
      unless the group is non-empty and the piece would take its summed length
      past `maxLen`, in which case the group is closed and the piece opens the
      next one. */
  function GreedyFrom(current: seq<string>, kept: seq<string>, maxLen: int): seq<seq<string>>
    decreases |kept|
  {
    if kept == [] then (if current == [] then [] else [current])
    else if current != [] && SumLen(current) + |kept[0]| > maxLen then
      [current] + GreedyFrom([kept[0]], kept[1..], maxLen)
    else GreedyFrom(current + [kept[0]], kept[1..], maxLen)
  }

  /** The grouping of all kept pieces. */
  function Greedy(kept: seq<string>, maxLen: int): seq<seq<string>> {
    GreedyFrom([], kept, maxLen)
  }

  /** A clause as the loop emits it: `" ".join(group).strip()`. */
  function ClauseOf(g: seq<string>): string {
    Strip(Join(g, " "))
  }

  /** The clause of every group, in order. */
  function Clauses(groups: seq<seq<string>>): (r: seq<string>)
    ensures |r| == |groups|
  {
    seq(|groups|, i requires 0 <= i < |groups| => ClauseOf(groups[i]))
  }

  /** `[c for c in clauses if c]`. */
  function NonEmpty(clauses: seq<string>): (r: seq<string>)
    ensures forall i :: 0 <= i < |r| ==> r[i] != ""
    ensures (forall i :: 0 <= i < |clauses| ==> clauses[i] != "") ==> r == clauses
    decreases |clauses|
  {
    if clauses == [] then []
    else if clauses[0] == "" then NonEmpty(clauses[1..])
    else [clauses[0]] + NonEmpty(clauses[1..])
  }

  /** The groups read back in order are the open group followed by the remaining pieces. */
  lemma {:induction false} GreedyFromPartition(current: seq<string>, kept: seq<string>, maxLen: int)
    ensures Flatten(GreedyFrom(current, kept, maxLen)) == current + kept
    ensures forall i :: 0 <= i < |GreedyFrom(current, kept, maxLen)| ==> GreedyFrom(current, kept, maxLen)[i] != []
    decreases |kept|
  {
    var r := GreedyFrom(current, kept, maxLen);
    if kept == [] {
      if current != [] {
        assert Flatten([current]) == current + Flatten([current][1..]);
      }
    } else if current != [] && SumLen(current) + |kept[0]| > maxLen {
      var rest := GreedyFrom([kept[0]], kept[1..], maxLen);
      GreedyFromPartition([kept[0]], kept[1..], maxLen);
      assert r[1..] == rest;
      assert kept == [kept[0]] + kept[1..];
    } else {
      GreedyFromPartition(current + [kept[0]], kept[1..], maxLen);
      assert kept == [kept[0]] + kept[1..];
    }
  }

  /** Every piece of every group is stripped and non-empty. */
  predicate AllStripped(groups: seq<seq<string>>) {
    forall i, j :: 0 <= i < |groups| && 0 <= j < |groups[i]| ==> Stripped(groups[i][j])
  }

  /** Every group of two or more pieces sums to at most `maxLen`. */
  predicate Bounded(groups: seq<seq<string>>, maxLen: int) {
    forall i :: 0 <= i < |groups| && |groups[i]| >= 2 ==> SumLen(groups[i]) <= maxLen
  }

  /** Every group but the last was closed because the next one's first piece did not fit. */
  predicate Flushed(groups: seq<seq<string>>, maxLen: int) {
    forall i :: 1 <= i < |groups| ==> |groups[i]| >= 1 && SumLen(groups[i - 1]) + |groups[i][0]| > maxLen
  }

  /** Every group holds only pieces that were already stripped and non-empty. */
  lemma {:induction false} GreedyFromStripped(current: seq<string>, kept: seq<string>, maxLen: int)
    requires forall j :: 0 <= j < |current| ==> Stripped(current[j])
    requires forall j :: 0 <= j < |kept| ==> Stripped(kept[j])
    ensures AllStripped(GreedyFrom(current, kept, maxLen))
    decreases |kept|
  {
    var r := GreedyFrom(current, kept, maxLen);
    if kept == [] {
      assert r == [] || r == [current];
    } else if current != [] && SumLen(current) + |kept[0]| > maxLen {
      var rest := GreedyFrom([kept[0]], kept[1..], maxLen);
      GreedyFromStripped([kept[0]], kept[1..], maxLen);
      assert r == [current] + rest;
      forall i, j | 0 <= i < |r| && 0 <= j < |r[i]| ensures Stripped(r[i][j]) {
        if i > 0 { assert r[i] == rest[i - 1]; }
      }
    } else {
      var next := current + [kept[0]];
      assert r == GreedyFrom(next, kept[1..], maxLen);
      GreedyFromStripped(next, kept[1..], maxLen);
    }
  }

  /** A group of two or more pieces sums to at most `maxLen`. */
  lemma {:induction false} GreedyFromBound(current: seq<string>, kept: seq<string>, maxLen: int)
    requires |current| >= 2 ==> SumLen(current) <= maxLen
    ensures Bounded(GreedyFrom(current, kept, maxLen), maxLen)
    decreases |kept|
  {
    var r := GreedyFrom(current, kept, maxLen);
    if kept == [] {
      assert r == [] || r == [current];
    } else if current != [] && SumLen(current) + |kept[0]| > maxLen {
      var rest := GreedyFrom([kept[0]], kept[1..], maxLen);
      GreedyFromBound([kept[0]], kept[1..], maxLen);
      assert r == [current] + rest;
      forall i | 0 <= i < |r| && |r[i]| >= 2 ensures SumLen(r[i]) <= maxLen {
        if i > 0 { assert r[i] == rest[i - 1]; }
      }
    } else {
      var next := current + [kept[0]];
      assert next[..|next| - 1] == current;
      assert r == GreedyFrom(next, kept[1..], maxLen);
      GreedyFromBound(next, kept[1..], maxLen);
    }
  }

  /** A non-empty open group is where the first group starts. */
  lemma {:induction false} GreedyFromFirst(current: seq<string>, kept: seq<string>, maxLen: int)
    requires current != []
    ensures var r := GreedyFrom(current, kept, maxLen); |r| >= 1 && |r[0]| >= 1 && r[0][0] == current[0]
    decreases |kept|
  {
    var r := GreedyFrom(current, kept, maxLen);
    if kept == [] {
      assert r == [current];
    } else if SumLen(current) + |kept[0]| > maxLen {
      assert r == [current] + GreedyFrom([kept[0]], kept[1..], maxLen);
    } else {
      var next := current + [kept[0]];
      assert r == GreedyFrom(next, kept[1..], maxLen);
      GreedyFromFirst(next, kept[1..], maxLen);
    }
  }

  /** Each group was closed only because the next group's first piece did not fit. */
  lemma {:induction false} GreedyFromFlush(current: seq<string>, kept: seq<string>, maxLen: int)
    ensures Flushed(GreedyFrom(current, kept, maxLen), maxLen)
    decreases |kept|
  {
    var r := GreedyFrom(current, kept, maxLen);
    if kept == [] {
      assert r == [] || r == [current];
    } else if current != [] && SumLen(current) + |kept[0]| > maxLen {
      var rest := GreedyFrom([kept[0]], kept[1..], maxLen);
      GreedyFromFlush([kept[0]], kept[1..], maxLen);
      GreedyFromFirst([kept[0]], kept[1..], maxLen);
      assert r == [current] + rest;
      forall i | 1 <= i < |r|
        ensures |r[i]| >= 1 && SumLen(r[i - 1]) + |r[i][0]| > maxLen
      {
        if i == 1 {
          assert r[0] == current && r[1] == rest[0];
        } else {
          var k := i - 1;
          assert r[i] == rest[k] && r[i - 1] == rest[k - 1];
        }
      }
    } else {
      var next := current + [kept[0]];
      assert r == GreedyFrom(next, kept[1..], maxLen);
      GreedyFromFlush(next, kept[1..], maxLen);
    }
  }

  /** Stripped pieces joined with spaces are stripped. */
  lemma {:induction false} JoinStripped(g: seq<string>)
    requires g != [] && forall j :: 0 <= j < |g| ==> Stripped(g[j])
    ensures Stripped(Join(g, " "))
    decreases |g|
  {
    if |g| > 1 {
      JoinStripped(g[1..]);
      var tail := Join(g[1..], " ");
      var s := g[0] + " " + tail;
      assert Join(g, " ") == s;
      assert s[0] == g[0][0] && s[|s| - 1] == tail[|tail| - 1];
    }
  }

  /** The `.strip()` after the join changes nothing: the clause is the space-join of its group. */
  lemma ClauseOfStripped(g: seq<string>)
    requires g != [] && forall j :: 0 <= j < |g| ==> Stripped(g[j])
    ensures ClauseOf(g) == Join(g, " ") && ClauseOf(g) != ""
  {
    var s := Join(g, " ");
    JoinStripped(g);
    assert !IsSpace(Py, s[0]) && !IsSpace(Py, s[|s| - 1]);
    TrimTrimmed(s, Py);
  }

  /** What `split_into_clauses` promises about its grouping of the kept pieces:
      the groups are non-empty and read back in order give exactly the kept
      pieces; a group of two or more sums to at most `maxLen`; a group was
      closed only when the next piece did not fit; and each clause is the
      space-join of its group, never empty. */
  lemma GreedyProperties(parts: seq<string>, maxLen: int)
    ensures var g := Greedy(Kept(parts), maxLen);
            && Flatten(g) == Kept(parts)
            && (forall i :: 0 <= i < |g| ==> g[i] != [])
            && Bounded(g, maxLen) && Flushed(g, maxLen)
            && (forall i :: 0 <= i < |g| ==> ClauseOf(g[i]) == Join(g[i], " ") && ClauseOf(g[i]) != "")
  {
    var kept := Kept(parts);
    var g := Greedy(kept, maxLen);
    GreedyFromPartition([], kept, maxLen);
    GreedyFromBound([], kept, maxLen);
    GreedyFromFlush([], kept, maxLen);
    KeptStripped(parts);
    GreedyFromStripped([], kept, maxLen);
    forall i | 0 <= i < |g| ensures ClauseOf(g[i]) == Join(g[i], " ") && ClauseOf(g[i]) != "" {
      ClauseOfStripped(g[i]);
    }
  }

  /** `Clauses` of one more group. */
  lemma ClausesSnoc(groups: seq<seq<string>>, g: seq<string>)
    ensures Clauses(groups + [g]) == Clauses(groups) + [ClauseOf(g)]
  {
    var all := groups + [g];
    forall i | 0 <= i < |all|
      ensures Clauses(all)[i] == (Clauses(groups) + [ClauseOf(g)])[i]
    {
      if i < |groups| { assert all[i] == groups[i]; }
    }
  }

  /** The kept pieces from position `i` on, one piece at a time. */
  lemma KeptStep(parts: seq<string>, i: nat)
    requires i < |parts|
    ensures Kept(parts[i..]) == (if Strip(parts[i]) == "" then [] else [Strip(parts[i])]) + Kept(parts[i + 1..])
  {
    assert parts[i..][0] == parts[i];
    assert parts[i..][1..] == parts[i + 1..];
  }

  /** The loop invariant after a piece that closes the open group. */
  lemma CloseStep(groups: seq<seq<string>>, current: seq<string>, part: string, rest: seq<string>, maxLen: int)
    requires current != [] && SumLen(current) + |part| > maxLen
    ensures groups + GreedyFrom(current, [part] + rest, maxLen)
            == (groups + [current]) + GreedyFrom([part], rest, maxLen)
  {
    assert ([part] + rest)[0] == part && ([part] + rest)[1..] == rest;
  }

  /** The loop invariant after a piece that joins the open group. */
  lemma JoinStep(groups: seq<seq<string>>, current: seq<string>, part: string, rest: seq<string>, maxLen: int)
    requires !(current != [] && SumLen(current) + |part| > maxLen)
    ensures groups + GreedyFrom(current, [part] + rest, maxLen)
            == groups + GreedyFrom(current + [part], rest, maxLen)
    ensures SumLen(current + [part]) == SumLen(current) + |part|
  {
    assert ([part] + rest)[0] == part && ([part] + rest)[1..] == rest;
    assert (current + [part])[..|current|] == current;
  }

  /** After the last piece, the open group (if any) is the last group. */
  lemma FinishStep(groups: seq<seq<string>>, current: seq<string>, maxLen: int, target: seq<seq<string>>)
    requires groups + GreedyFrom(current, [], maxLen) == target
    ensures current != [] ==> groups + [current] == target
    ensures current == [] ==> groups == target
  {
  }

  /** The filter of empty clauses keeps every clause of the greedy grouping. */
  lemma NoEmptyClause(parts: seq<string>, maxLen: int)
    ensures var c := Clauses(Greedy(Kept(parts), maxLen)); NonEmpty(c) == c
  {
    GreedyProperties(parts, maxLen);
  }

  /** `split_into_clauses` from the pieces of the regex split on: the greedy
      loop over the stripped pieces, then the filter of empty clauses. */
  method SplitIntoClauses(parts: seq<string>, maxLen: int) returns (r: seq<string>)
    ensures r == Clauses(Greedy(Kept(parts), maxLen))
  {
    var clauses: seq<string> := [];
    ghost var groups: seq<seq<string>> := [];
    var current: seq<string> := [];
    var currentLen := 0;
    for i := 0 to |parts|
      invariant currentLen == SumLen(current)
      invariant clauses == Clauses(groups)
      invariant groups + GreedyFrom(current, Kept(parts[i..]), maxLen) == Greedy(Kept(parts), maxLen)
    {
      var part := Strip(parts[i]);
      KeptStep(parts, i);
      if part == "" {
        continue;
      }
      if currentLen + |part| > maxLen && current != [] {
        CloseStep(groups, current, part, Kept(parts[i + 1..]), maxLen);
        ClausesSnoc(groups, current);
        clauses := clauses + [ClauseOf(current)];
        groups := groups + [current];
        current := [part];
        currentLen := |part|;
        assert current[..0] == [];
      } else {
        JoinStep(groups, current, part, Kept(parts[i + 1..]), maxLen);
        current := current + [part];
        currentLen := currentLen + |part|;
      }
    }
    assert parts[|parts|..] == [];
    FinishStep(groups, current, maxLen, Greedy(Kept(parts), maxLen));
    if current != [] {
      ClausesSnoc(groups, current);
      clauses := clauses + [ClauseOf(current)];
      groups := groups + [current];
    }
    NoEmptyClause(parts, maxLen);
    r := NonEmpty(clauses);
  }

  /** A piece is at most the summed length of its group. */
  lemma {:induction false} SumLenCovers(g: seq<string>, j: nat)
    requires j < |g|
    ensures |g[j]| <= SumLen(g)
    decreases |g|
  {
    if j < |g| - 1 {
      SumLenCovers(g[..|g| - 1], j);
    }
  }

  /** A piece longer than `maxLen` is a clause of its own. */
  lemma OversizeAlone(parts: seq<string>, maxLen: int)
    ensures var g := Greedy(Kept(parts), maxLen);
            forall i, j :: 0 <= i < |g| && 0 <= j < |g[i]| && |g[i][j]| > maxLen ==> |g[i]| == 1
  {
    var g := Greedy(Kept(parts), maxLen);
    GreedyProperties(parts, maxLen);
    forall i, j | 0 <= i < |g| && 0 <= j < |g[i]| && |g[i][j]| > maxLen
      ensures |g[i]| == 1
    {
      SumLenCovers(g[i], j);
    }
  }

  /** Python's `\w` on the Basic Latin letters, the digits and `_`. */
  predicate IsWordChar(c: char) {
    ('a' <= c <= 'z') || ('A' <= c <= 'Z') || ('0' <= c <= '9') || c == '_'
  }

  /** The length of the run of word characters `s` starts with. */
  function WordRun(s: string): (n: nat)
    ensures n <= |s|
    ensures forall i :: 0 <= i < n ==> IsWordChar(s[i])
    ensures n < |s| ==> !IsWordChar(s[n])
    decreases |s|
  {
    if |s| > 0 && IsWordChar(s[0]) then 1 + WordRun(s[1..]) else 0
  }

  /** `re.findall(r"\w+", s)`: the maximal runs of word characters, in order. */
  function Words(s: string): (r: seq<string>)
    ensures forall i :: 0 <= i < |r| ==> r[i] != "" && forall c :: c in r[i] ==> IsWordChar(c)
    decreases |s|
  {
    if s == [] then []
    else if !IsWordChar(s[0]) then Words(s[1..])
    else
      var n := WordRun(s);
      [s[..n]] + Words(s[n..])
  }

  /** `w` stands at `p` in `s` as a maximal run of word characters: it is
      non-empty, made of word characters, and neither neighbour is one. */
  predicate RunAt(s: string, w: string, p: nat) {
    && w != []
    && p + |w| <= |s| && s[p..p + |w|] == w
    && (forall c :: c in w ==> IsWordChar(c))
    && (p == 0 || !IsWordChar(s[p - 1]))
    && (p + |w| == |s| || !IsWordChar(s[p + |w|]))
  }

  /** A maximal run in a suffix of `s` is one in `s` when the suffix does not
      cut a run. */
  lemma RunShift(s: string, k: nat, w: string, p: nat)
    requires k <= |s| && RunAt(s[k..], w, p)
    requires p > 0 || k == 0 || !IsWordChar(s[k - 1])
    ensures RunAt(s, w, p + k)
  {
    assert s[k..][p..p + |w|] == s[p + k..p + k + |w|];
    if p > 0 {
      assert s[k..][p - 1] == s[p + k - 1];
    }
    if p + |w| < |s[k..]| {
      assert s[k..][p + |w|] == s[p + k + |w|];
    }
  }

  /** Every word stands in the text as a maximal run of word characters. */
  lemma {:induction false} WordsAreRuns(s: string, i: nat)
    requires i < |Words(s)|
    ensures exists p: nat :: RunAt(s, Words(s)[i], p)
    decreases |s|
  {
    if !IsWordChar(s[0]) {
      WordsAreRuns(s[1..], i);
      var p: nat :| RunAt(s[1..], Words(s)[i], p);
      RunShift(s, 1, Words(s)[i], p);
    } else {
      var n := WordRun(s);
      if i == 0 {
        assert s[..n] == s[0..0 + n];
        assert RunAt(s, Words(s)[0], 0);
      } else {
        var w := Words(s)[i];
        assert w == Words(s[n..])[i - 1];
        WordsAreRuns(s[n..], i - 1);
        var p: nat :| RunAt(s[n..], w, p);
        RunShift(s, n, w, p);
      }
    }
  }

  /** Position `k` of `s` lies inside the `i`-th word, which stands at `p`. */
  predicate InWord(s: string, k: nat, i: nat, p: nat) {
    i < |Words(s)| && RunAt(s, Words(s)[i], p) && p <= k < p + |Words(s)[i]|
  }

  /** Every word character of the text lies inside one of its words. */
  lemma {:induction false} WordsCover(s: string, k: nat)
    requires k < |s| && IsWordChar(s[k])
    ensures exists i: nat, p: nat :: InWord(s, k, i, p)
    decreases |s|
  {
    if !IsWordChar(s[0]) {
      WordsCover(s[1..], k - 1);
      var i: nat, p: nat :| InWord(s[1..], k - 1, i, p);
      RunShift(s, 1, Words(s)[i], p);
      assert InWord(s, k, i, p + 1);
    } else {
      var n := WordRun(s);
      if k < n {
        assert s[..n] == s[0..0 + n];
        assert InWord(s, k, 0, 0);
      } else {
        assert s[n..][k - n] == s[k];
        WordsCover(s[n..], k - n);
        var i: nat, p: nat :| InWord(s[n..], k - n, i, p);
        var w := Words(s[n..])[i];
        assert Words(s)[i + 1] == w;
        RunShift(s, n, w, p);
        assert InWord(s, k, i + 1, p + n);
      }
    }
  }

  /** The question's keywords: its words longer than three characters, lowered, in order. */
  function Keywords(question: string): (r: seq<string>)
    ensures forall i :: 0 <= i < |r| ==> |r[i]| > 3
  {
    LongWords(Words(question))
  }

  /** `[w.lower() for w in words if len(w) > 3]`. */
  function LongWords(words: seq<string>): (r: seq<string>)
    ensures |r| <= |words|
    ensures forall i :: 0 <= i < |r| ==> |r[i]| > 3
    decreases |words|
  {
    if words == [] then []
    else if |words[0]| > 3 then [Lower(words[0])] + LongWords(words[1..])
    else LongWords(words[1..])
  }

  /** Long words are picked word by word, so their order is kept. */
  lemma {:induction false} LongWordsAppend(a: seq<string>, b: seq<string>)
    ensures LongWords(a + b) == LongWords(a) + LongWords(b)
    decreases |a|
  {
    if a == [] {
      assert a + b == b;
    } else {
      assert (a + b)[0] == a[0] && (a + b)[1..] == a[1..] + b;
      LongWordsAppend(a[1..], b);
    }
  }

  /** The long words are exactly the lowered words longer than three characters. */
  lemma {:induction false} LongWordsMembers(words: seq<string>, k: string)
    ensures k in LongWords(words) <==> exists w :: w in words && |w| > 3 && k == Lower(w)
    decreases |words|
  {
    if words != [] {
      LongWordsMembers(words[1..], k);
      if k in LongWords(words[1..]) {
        var w :| w in words[1..] && |w| > 3 && k == Lower(w);
        assert w in words;
      }
      forall w | w in words && w != words[0] ensures w in words[1..] {
      }
    }
  }

  /** The keywords of a question are exactly its lowered words longer than
      three characters. */
  lemma KeywordsMembers(question: string, k: string)
    ensures k in Keywords(question) <==> exists w :: w in Words(question) && |w| > 3 && k == Lower(w)
  {
    LongWordsMembers(Words(question), k);
  }

  /** `sum(1 for k in keywords if k in chunk)`: repeated keywords count again. */
  function Count(keywords: seq<string>, chunk: string): (r: nat)
    ensures r <= |keywords|
    decreases |keywords|
  {
    if keywords == [] then 0
    else (if Contains(chunk, keywords[0]) then 1 else 0) + Count(keywords[1..], chunk)
  }

  /** The score of the window of the lowered text that starts at `i`. */
  function Score(lower: string, keywords: seq<string>, window: nat, i: nat): nat {
    Count(keywords, Slice(lower, i, i + window))
  }

  /** The end of the range of window starts: `max(1, len(lower) - 50)`. */
  function StartBound(n: nat): (b: int)
    ensures b >= 1
  {
    if n - 50 > 1 then n - 50 else 1
  }

  /** `s` is a window start the loop visits: a multiple of 50 below the bound. */
  predicate IsStart(lower: string, s: nat) {
    s % 50 == 0 && s < StartBound(|lower|)
  }

  /** `s` is the start the loop keeps: its score is the highest, and every
      earlier start scores strictly less (the update needs `>`). */
  ghost predicate FirstBest(lower: string, keywords: seq<string>, window: nat, s: nat) {
    && IsStart(lower, s)
    && (forall j: nat :: IsStart(lower, j) ==> Score(lower, keywords, window, j) <= Score(lower, keywords, window, s))
    && (forall j: nat :: IsStart(lower, j) && j < s ==> Score(lower, keywords, window, j) < Score(lower, keywords, window, s))
  }

  /** The kept start is determined by the text, the keywords and the window. */
  lemma FirstBestUnique(lower: string, keywords: seq<string>, window: nat, s: nat, t: nat)
    requires FirstBest(lower, keywords, window, s) && FirstBest(lower, keywords, window, t)
    ensures s == t
  {
  }

  /** The starts below `i + 50` are those up to `i`. */
  lemma NextStart(i: nat, j: nat)
    requires i % 50 == 0 && j % 50 == 0 && j < i + 50
    ensures j <= i
  {
  }

  /** When the scan has passed every start, the start it kept is the first best one. */
  lemma ScanDone(lower: string, keywords: seq<string>, window: nat, i: nat, bestIdx: nat, bestScore: int)
    requires i >= StartBound(|lower|)
    requires IsStart(lower, bestIdx) && bestScore == Score(lower, keywords, window, bestIdx)
    requires forall j: nat :: j % 50 == 0 && j < i ==> Score(lower, keywords, window, j) <= bestScore
    requires forall j: nat :: j % 50 == 0 && j < bestIdx ==> Score(lower, keywords, window, j) < bestScore
    ensures FirstBest(lower, keywords, window, bestIdx)
  {
  }

  /** The scan of `simple_retrieve_context`: every start in turn, keeping the
      first one whose score beats the best so far. */
  method BestStart(lower: string, keywords: seq<string>, window: nat) returns (bestIdx: nat)
    ensures FirstBest(lower, keywords, window, bestIdx)
  {
    bestIdx := 0;
    var bestScore: int := -1;
    var bound := StartBound(|lower|);
    var i: nat := 0;
    while i < bound
      invariant i % 50 == 0 && bestIdx % 50 == 0
      invariant i == 0 ==> bestScore == -1
      invariant i > 0 ==> IsStart(lower, bestIdx) && bestIdx < i && bestScore == Score(lower, keywords, window, bestIdx)
      invariant forall j: nat :: j % 50 == 0 && j < i ==> Score(lower, keywords, window, j) <= bestScore
      invariant forall j: nat :: j % 50 == 0 && j < bestIdx ==> Score(lower, keywords, window, j) < bestScore
      decreases bound - i
    {
      var chunk := Slice(lower, i, i + window);
      var score := Count(keywords, chunk);
      if score > bestScore {
        bestScore := score;
        bestIdx := i;
      }
      forall j: nat | j % 50 == 0 && j < i + 50
        ensures Score(lower, keywords, window, j) <= bestScore
      {
        NextStart(i, j);
      }
      i := i + 50;
    }
    ScanDone(lower, keywords, window, i, bestIdx, bestScore);
  }

  /** `simple_retrieve_context`: without keywords, the first `window`
      characters; otherwise the window of the text at the first start with the
      highest score. The result is always a contiguous slice of the text no
      longer than `window`. */
  method SimpleRetrieveContext(text: string, question: string, window: nat) returns (r: string)
    ensures exists k :: SliceAt(text, r, k)
    ensures |r| <= window
    ensures Keywords(question) == [] ==> r == Slice(text, 0, window)
    ensures Keywords(question) != []
            ==> exists s: nat :: FirstBest(Lower(text), Keywords(question), window, s) && r == Slice(text, s, s + window)
  {
    var keywords := Keywords(question);
    if keywords == [] {
      return Slice(text, 0, window);
    }
    var bestIdx := BestStart(Lower(text), keywords, window);
    r := Slice(text, bestIdx, bestIdx + window);
  }
}

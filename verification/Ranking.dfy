/** Worst-first ranking (usecases/dailybrief.go: rankBySeverity) and the severity filter that runs over
    it (inbound/mcp/tools.go: severityRank, listOpenExceptions). */
module Ranking {
  import opened Common
  import opened BriefPolicy

  /** Unknown severities rank with info. */
  function Rank(severity: string): (r: nat)
    ensures r <= 2
  {
    if severity == CRITICAL then 0 else if severity == WARNING then 1 else 2
  }

  function RankOf(e: OpenException): nat { Rank(e.severity) }

  /** The exceptions of one rank, in order. */
  function OfRank(s: seq<OpenException>, k: nat): seq<OpenException> {
    if s == [] then [] else
    OfRank(s[..|s| - 1], k) + if RankOf(s[|s| - 1]) == k then [s[|s| - 1]] else []
  }

  function Ranked(s: seq<OpenException>): seq<OpenException> { OfRank(s, 0) + OfRank(s, 1) + OfRank(s, 2) }

  ghost predicate WorstFirst(s: seq<OpenException>) {
    forall i, j :: 0 <= i < j < |s| ==> RankOf(s[i]) <= RankOf(s[j])
  }

  lemma {:induction false} OfRankAppend(a: seq<OpenException>, b: seq<OpenException>, k: nat)
    ensures OfRank(a + b, k) == OfRank(a, k) + OfRank(b, k)
    decreases |b|
  {
    if b == [] {
      assert a + b == a;
    } else {
      assert (a + b)[..|a + b| - 1] == a + b[..|b| - 1];
      OfRankAppend(a, b[..|b| - 1], k);
    }
  }

  lemma {:induction false} OfRankHolds(s: seq<OpenException>, k: nat)
    ensures forall e :: e in OfRank(s, k) <==> e in s && RankOf(e) == k
  {
    if s != [] {
      OfRankHolds(s[..|s| - 1], k);
      assert s == s[..|s| - 1] + [s[|s| - 1]];
    }
  }

  function Swapped(s: seq<OpenException>, j: nat): seq<OpenException>
    requires 0 < j < |s|
  {
    s[j - 1 := s[j]][j := s[j - 1]]
  }

  /** Swapping two neighbours of different ranks reorders nothing within a rank. */
  lemma SwapKeepsRanks(s: seq<OpenException>, j: nat, k: nat)
    requires 0 < j < |s| && RankOf(s[j - 1]) != RankOf(s[j])
    ensures OfRank(Swapped(s, j), k) == OfRank(s, k)
  {
    var a, x, y, b := s[..j - 1], s[j - 1], s[j], s[j + 1..];
    assert s == a + [x, y] + b;
    assert Swapped(s, j) == a + [y, x] + b;
    NeighboursCommute(a, x, y, b, k);
  }

  lemma NeighboursCommute(a: seq<OpenException>, x: OpenException, y: OpenException, b: seq<OpenException>, k: nat)
    requires RankOf(x) != RankOf(y)
    ensures OfRank(a + [x, y] + b, k) == OfRank(a + [y, x] + b, k)
  {
    OfRankAppend(a + [x, y], b, k);
    OfRankAppend(a, [x, y], k);
    OfRankAppend(a + [y, x], b, k);
    OfRankAppend(a, [y, x], k);
    PairOfRank(x, y, k);
    PairOfRank(y, x, k);
  }

  lemma OneOfRank(x: OpenException, k: nat)
    ensures OfRank([x], k) == if RankOf(x) == k then [x] else []
  {
    assert [x][..0] == [];
  }

  lemma PairOfRank(x: OpenException, y: OpenException, k: nat)
    ensures OfRank([x, y], k) == (if RankOf(x) == k then [x] else []) + (if RankOf(y) == k then [y] else [])
  {
    OneOfRank(x, k);
    assert [x, y][..1] == [x];
  }

  lemma {:induction false} NothingOfRank(s: seq<OpenException>, k: nat)
    requires forall i :: 0 <= i < |s| ==> RankOf(s[i]) != k
    ensures OfRank(s, k) == []
  {
    if s != [] { NothingOfRank(s[..|s| - 1], k); }
  }

  lemma OfRankSnoc(s: seq<OpenException>, x: OpenException, k: nat)
    ensures OfRank(s + [x], k) == OfRank(s, k) + if RankOf(x) == k then [x] else []
  {
    assert (s + [x])[..|s|] == s;
  }

  lemma {:induction false} WorstFirstIsRanked(s: seq<OpenException>)
    requires WorstFirst(s)
    ensures Ranked(s) == s
  {
    if s != [] {
      var front, last := s[..|s| - 1], s[|s| - 1];
      assert s == front + [last];
      assert WorstFirst(front);
      WorstFirstIsRanked(front);
      OfRankSnoc(front, last, 0); OfRankSnoc(front, last, 1); OfRankSnoc(front, last, 2);
      NothingWorse(front, last);
      hide OfRank, Rank, WorstFirst;
      RanksRegroup(OfRank(front, 0), OfRank(front, 1), OfRank(front, 2), last, RankOf(last));
    }
  }

  /** An element of rank k goes last when no run of a worse rank follows. */
  lemma RanksRegroup(a: seq<OpenException>, b: seq<OpenException>, c: seq<OpenException>, x: OpenException, k: nat)
    requires k <= 2 && (k < 2 ==> c == []) && (k < 1 ==> b == [])
    ensures (a + if k == 0 then [x] else []) + (b + if k == 1 then [x] else []) + (c + if k == 2 then [x] else [])
            == (a + b + c) + [x]
  {
    if k == 2 {
      assert (a + []) + (b + []) + (c + [x]) == (a + b + c) + [x];
    } else if k == 1 {
      assert (a + []) + (b + [x]) + ([] + []) == (a + b + []) + [x];
    } else {
      assert (a + [x]) + ([] + []) + ([] + []) == (a + [] + []) + [x];
    }
  }

  lemma NothingWorse(front: seq<OpenException>, last: OpenException)
    requires WorstFirst(front + [last])
    ensures forall k: nat :: k > RankOf(last) ==> OfRank(front, k) == []
  {
    hide OfRank, Rank;
    forall k: nat | k > RankOf(last) ensures OfRank(front, k) == [] {
      forall i | 0 <= i < |front| ensures RankOf(front[i]) != k {
        assert RankOf((front + [last])[i]) <= RankOf((front + [last])[|front|]);
      }
      NothingOfRank(front, k);
    }
  }

  /** The ranking is sorted, a permutation, and stable. */
  lemma RankedIsAStableSort(s: seq<OpenException>)
    ensures WorstFirst(Ranked(s)) && multiset(Ranked(s)) == multiset(s)
    ensures forall k: nat :: OfRank(Ranked(s), k) == OfRank(s, k)
  {
    OfRankHolds(s, 0); OfRankHolds(s, 1); OfRankHolds(s, 2);
    forall i, j | 0 <= i < j < |Ranked(s)| ensures RankOf(Ranked(s)[i]) <= RankOf(Ranked(s)[j]) {
      RankAt(s, i); RankAt(s, j);
    }
    RankedIsAPermutation(s);
    forall k: nat ensures OfRank(Ranked(s), k) == OfRank(s, k) { RankedKeepsRank(s, k); }
  }

  lemma RankAt(s: seq<OpenException>, i: nat)
    requires i < |Ranked(s)|
    ensures RankOf(Ranked(s)[i]) == if i < |OfRank(s, 0)| then 0 else if i < |OfRank(s, 0)| + |OfRank(s, 1)| then 1 else 2
  {
    OfRankHolds(s, 0); OfRankHolds(s, 1); OfRankHolds(s, 2);
    var c0, c1, c2 := OfRank(s, 0), OfRank(s, 1), OfRank(s, 2);
    if i < |c0| { assert c0[i] in c0; }
    else if i < |c0| + |c1| { assert c1[i - |c0|] in c1; }
    else { assert c2[i - |c0| - |c1|] in c2; }
  }

  lemma {:induction false} RankedIsAPermutation(s: seq<OpenException>)
    ensures multiset(Ranked(s)) == multiset(s)
  {
    if s != [] {
      var front, last := s[..|s| - 1], s[|s| - 1];
      assert s == front + [last];
      RankedIsAPermutation(front);
      assert multiset(Ranked(s)) == multiset(OfRank(s, 0)) + multiset(OfRank(s, 1)) + multiset(OfRank(s, 2));
      assert multiset(Ranked(front)) == multiset(OfRank(front, 0)) + multiset(OfRank(front, 1)) + multiset(OfRank(front, 2));
    }
  }

  lemma RankedKeepsRank(s: seq<OpenException>, k: nat)
    ensures OfRank(Ranked(s), k) == OfRank(s, k)
  {
    var c0, c1, c2 := OfRank(s, 0), OfRank(s, 1), OfRank(s, 2);
    OfRankAppend(c0 + c1, c2, k);
    OfRankAppend(c0, c1, k);
    OnlyOneRank(s, 0, k); OnlyOneRank(s, 1, k); OnlyOneRank(s, 2, k);
    hide OfRank, Rank;
    if k == 0 { assert c0 + [] + [] == c0; }
    else if k == 1 { assert [] + c1 + [] == c1; }
    else if k == 2 { assert [] + [] + c2 == c2; }
    else { NothingOfRank(s, k); }
  }

  lemma {:induction false} OnlyOneRank(s: seq<OpenException>, k: nat, m: nat)
    ensures OfRank(OfRank(s, k), m) == if k == m then OfRank(s, k) else []
  {
    if s != [] {
      var front, last := s[..|s| - 1], s[|s| - 1];
      OnlyOneRank(front, k, m);
      if RankOf(last) == k {
        OfRankAppend(OfRank(front, k), [last], m);
        OneOfRank(last, m);
      } else {
        assert OfRank(s, k) == OfRank(front, k);
      }
    }
  }

  /** A worst-first sequence that keeps every rank's order is the ranking: there is only one stable sort. */
  lemma StableSortIsUnique(s: seq<OpenException>, t: seq<OpenException>)
    requires WorstFirst(t) && forall k: nat :: OfRank(t, k) == OfRank(s, k)
    ensures t == Ranked(s)
  {
    WorstFirstIsRanked(t);
  }

  /** The in-place insertion sort over a copy; the input array is not written. */
  method RankBySeverity(exceptions: array<OpenException>) returns (out: array<OpenException>)
    ensures fresh(out)
    ensures out[..] == Ranked(exceptions[..])
  {
    out := new OpenException[exceptions.Length](i requires 0 <= i < exceptions.Length reads exceptions => exceptions[i]);
    ghost var input := exceptions[..];
    assert out[..] == input;
    var i := 1;
    while i < out.Length
      invariant 1 <= i
      invariant forall a, b :: 0 <= a < b < i && b < out.Length ==> RankOf(out[a]) <= RankOf(out[b])
      invariant forall k: nat :: OfRank(out[..], k) == OfRank(input, k)
    {
      InsertBackwards(out, i, input);
      i := i + 1;
    }
    StableSortIsUnique(input, out[..]);
  }

  method InsertBackwards(out: array<OpenException>, i: nat, ghost input: seq<OpenException>)
    requires i < out.Length
    requires forall a, b :: 0 <= a < b < i ==> RankOf(out[a]) <= RankOf(out[b])
    requires forall k: nat :: OfRank(out[..], k) == OfRank(input, k)
    modifies out
    ensures forall a, b :: 0 <= a < b <= i ==> RankOf(out[a]) <= RankOf(out[b])
    ensures forall k: nat :: OfRank(out[..], k) == OfRank(input, k)
  {
    var j: nat := i;
    while j > 0 && RankOf(out[j - 1]) > RankOf(out[j])
      invariant j <= i
      invariant forall a, b :: 0 <= a < b <= i && b != j ==> RankOf(out[a]) <= RankOf(out[b])
      invariant forall k: nat :: OfRank(out[..], k) == OfRank(input, k)
    {
      ghost var before := out[..];
      out[j - 1], out[j] := out[j], out[j - 1];
      assert out[..] == Swapped(before, j);
      forall k: nat ensures OfRank(out[..], k) == OfRank(input, k) { SwapKeepsRanks(before, j, k); }
      j := j - 1;
    }
  }

  // ----- the filter -----

  /** The tool's own ranking refuses unknown severities instead of ranking them last. */
  function SeverityRank(severity: string): Option<nat> {
    if severity == CRITICAL then Some(0) else if severity == WARNING then Some(1) else if severity == INFO then Some(2) else None
  }

  predicate AtLeast(e: OpenException, minRank: nat) {
    SeverityRank(e.severity).Some? && SeverityRank(e.severity).value <= minRank
  }

  function Filtered(s: seq<OpenException>, minRank: nat): seq<OpenException> {
    if s == [] then [] else
    Filtered(s[..|s| - 1], minRank) + if AtLeast(s[|s| - 1], minRank) then [s[|s| - 1]] else []
  }

  /** No severity means everything; an unknown one is refused. */
  function MinRank(severity: string): Option<nat> { if severity == "" then Some(2) else SeverityRank(severity) }

  method ListOpenExceptions(all: seq<OpenException>, severity: string) returns (r: Result<seq<OpenException>, string>)
    ensures r == if MinRank(severity).Some? then Ok(Filtered(all, MinRank(severity).value)) else Err(severity)
  {
    var minRank := 2;
    if severity != "" {
      var rank := SeverityRank(severity);
      if rank.None? { return Err(severity); }
      minRank := rank.value;
    }
    var filtered: seq<OpenException> := [];
    for i := 0 to |all|
      invariant filtered == Filtered(all[..i], minRank)
    {
      assert all[..i + 1][..i] == all[..i];
      var rank := SeverityRank(all[i].severity);
      if rank.Some? && rank.value <= minRank { filtered := filtered + [all[i]]; }
    }
    assert all[..|all|] == all;
    return Ok(filtered);
  }

  predicate KnownSeverity(e: OpenException) { e.severity in {INFO, WARNING, CRITICAL} }

  lemma {:induction false} FilterKeepsExactly(s: seq<OpenException>, minRank: nat)
    ensures forall e :: e in Filtered(s, minRank) <==> e in s && AtLeast(e, minRank)
    ensures (forall e :: e in s ==> AtLeast(e, minRank)) ==> Filtered(s, minRank) == s
  {
    if s != [] {
      var front, last := s[..|s| - 1], s[|s| - 1];
      assert s == front + [last];
      FilterKeepsExactly(front, minRank);
    }
  }

  lemma KnownRank(e: OpenException, minRank: nat)
    requires KnownSeverity(e)
    ensures AtLeast(e, minRank) <==> RankOf(e) <= minRank
  {
  }

  /** Over a worst-first list of known severities the filter cuts off a tail. */
  lemma {:induction false} FilterIsAPrefix(s: seq<OpenException>, minRank: nat)
    requires WorstFirst(s) && forall e :: e in s ==> KnownSeverity(e)
    ensures Filtered(s, minRank) <= s
  {
    hide KnownSeverity, AtLeast, Rank;
    if s != [] {
      var front, last := s[..|s| - 1], s[|s| - 1];
      assert s == front + [last];
      FilterIsAPrefix(front, minRank);
      if AtLeast(last, minRank) {
        KnownRank(last, minRank);
        forall e | e in front ensures AtLeast(e, minRank) {
          var i :| 0 <= i < |front| && front[i] == e;
          assert RankOf(s[i]) <= RankOf(s[|front|]) && s[i] in s;
          KnownRank(e, minRank);
        }
        FilterKeepsExactly(front, minRank);
      }
    }
  }

  lemma {:induction false} FilterGrows(s: seq<OpenException>, strict: nat, weak: nat)
    requires strict <= weak
    ensures |Filtered(s, strict)| <= |Filtered(s, weak)|
  {
    if s != [] { FilterGrows(s[..|s| - 1], strict, weak); }
  }

  /** A weaker minimum never drops anything, and the weakest shows the whole list. */
  lemma WeakerMinimumShowsMore(s: seq<OpenException>, strict: nat, weak: nat)
    requires WorstFirst(s) && (forall e :: e in s ==> KnownSeverity(e)) && strict <= weak
    ensures Filtered(s, strict) <= Filtered(s, weak) <= s
    ensures weak >= 2 ==> Filtered(s, weak) == s
  {
    FilterIsAPrefix(s, strict);
    FilterIsAPrefix(s, weak);
    FilterGrows(s, strict, weak);
    FilterKeepsExactly(s, weak);
  }

  // ----- by severity name -----

  /** Read without ranks: no critical after anything else, and no warning after an unknown or an info. */
  lemma CriticalsComeFirst(s: seq<OpenException>)
    ensures var r := Ranked(s);
            forall i, j :: 0 <= i < j < |r| ==>
              && (r[j].severity == "critical" ==> r[i].severity == "critical")
              && (r[j].severity == "warning" ==> r[i].severity in {"critical", "warning"})
  {
    RankedIsAStableSort(s);
    hide Ranked;
    var r := Ranked(s);
    forall i, j | 0 <= i < j < |r|
      ensures r[j].severity == "critical" ==> r[i].severity == "critical"
      ensures r[j].severity == "warning" ==> r[i].severity in {"critical", "warning"}
    {
      assert RankOf(r[i]) <= RankOf(r[j]);
    }
  }

  /** What each severity argument lets through; an argument of no known name is refused. */
  lemma ShownBySeverity(s: seq<OpenException>, severity: string)
    ensures MinRank(severity).Some? <==> severity in {"", "info", "warning", "critical"}
    ensures MinRank(severity).Some? ==>
              forall e :: e in Filtered(s, MinRank(severity).value) <==>
                e in s && e.severity in (if severity == "critical" then {"critical"}
                                         else if severity == "warning" then {"critical", "warning"}
                                         else {"critical", "warning", "info"})
  {
    if MinRank(severity).Some? {
      FilterKeepsExactly(s, MinRank(severity).value);
      hide Filtered;
    }
  }
}

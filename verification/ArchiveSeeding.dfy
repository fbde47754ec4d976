/** Round-robin seeding of an evaluation history and the keyset pages read back from it
    (scripts/benchmark_learning_evaluation_archive.py, src/agnoclaw/learning_postgres.py
    `query_evaluation_archive`). */
module ArchiveSeeding {
  import opened Wrappers

  // ----- Seeding -----

  function Lesser(m: nat, n: nat): nat {
    if m < n then m else n
  }

  /** How many of the first `h` evaluations fall to candidate `i` of `c`. */
  function Count(h: nat, c: nat, i: nat): nat
    requires c > 0
  {
    if h == 0 then 0 else Count(h - 1, c, i) + (if (h - 1) % c == i then 1 else 0)
  }

  /** The last evaluation of candidate `i` among the first `h`. */
  function Latest(h: nat, c: nat, i: nat): Option<nat>
    requires c > 0
  {
    if h == 0 then None else if (h - 1) % c == i then Some(h - 1) else Latest(h - 1, c, i)
  }

  function Sum(counts: seq<nat>): nat {
    if counts == [] then 0 else Sum(counts[..|counts| - 1]) + counts[|counts| - 1]
  }

  lemma {:induction false} SumUpdate(counts: seq<nat>, k: nat)
    requires k < |counts|
    ensures Sum(counts[k := counts[k] + 1]) == Sum(counts) + 1
  {
    var n := |counts| - 1;
    var updated := counts[k := counts[k] + 1];
    if k < n {
      assert updated[..n] == counts[..n][k := counts[k] + 1];
      SumUpdate(counts[..n], k);
    } else {
      assert updated[..n] == counts[..n];
    }
  }

  lemma {:induction false} SumZero(counts: seq<nat>)
    requires forall i :: 0 <= i < |counts| ==> counts[i] == 0
    ensures Sum(counts) == 0
  {
    if counts != [] { SumZero(counts[..|counts| - 1]); }
  }

  ghost predicate Seeded(counts: seq<nat>, latest: seq<Option<nat>>, h: nat, c: nat)
    requires c > 0
  {
    && |counts| == |latest| == c && Sum(counts) == h
    && forall i :: 0 <= i < c ==> counts[i] == Count(h, c, i) && latest[i] == Latest(h, c, i)
  }

  lemma SeedNone(counts: seq<nat>, latest: seq<Option<nat>>, c: nat)
    requires c > 0 && |counts| == |latest| == c
    requires forall i :: 0 <= i < c ==> counts[i] == 0 && latest[i] == None
    ensures Seeded(counts, latest, 0, c)
  {
    SumZero(counts);
  }

  lemma SeedOne(counts: seq<nat>, latest: seq<Option<nat>>, h: nat, c: nat, k: nat)
    requires c > 0 && Seeded(counts, latest, h, c) && k == h % c < c
    ensures Seeded(counts[k := counts[k] + 1], latest[k := Some(h)], h + 1, c)
  {
    SumUpdate(counts, k);
  }

  /** The counting loop of the seeding: counts add up to the history, and each candidate
      ends with its own count and its own last evaluation. */
  method SeedCounts(historySize: nat) returns (counts: array<nat>, latest: array<Option<nat>>)
    requires historySize >= 1
    ensures fresh(counts) && fresh(latest)
    ensures Seeded(counts[..], latest[..], historySize, Lesser(100, historySize))
  {
    var candidateCount := Lesser(100, historySize);
    counts := new nat[candidateCount](_ => 0);
    latest := new Option<nat>[candidateCount](_ => None);
    SeedNone(counts[..], latest[..], candidateCount);
    for index := 0 to historySize
      invariant Seeded(counts[..], latest[..], index, candidateCount)
    {
      var candidateIndex := index % candidateCount;
      SeedOne(counts[..], latest[..], index, candidateCount, candidateIndex);
      ghost var counted, named := counts[..], latest[..];
      counts[candidateIndex] := counts[candidateIndex] + 1;
      latest[candidateIndex] := Some(index);
      assert counts[..] == counted[candidateIndex := counted[candidateIndex] + 1];
      assert latest[..] == named[candidateIndex := Some(index)];
    }
  }

  lemma {:induction false} MultipleGrows(a: nat, b: nat, c: nat)
    requires a < b
    ensures a * c + c <= b * c
  {
    if a + 1 < b { MultipleGrows(a, b - 1, c); }
  }

  lemma OneRemainder(a: nat, r: nat, b: nat, s: nat, c: nat)
    requires r < c && s < c && a * c + r == b * c + s
    ensures a == b && r == s
  {
    if a < b { MultipleGrows(a, b, c); }
    if b < a { MultipleGrows(b, a, c); }
  }

  lemma DivMod(n: nat, q: nat, i: nat, c: nat)
    requires i < c && n == i + q * c
    ensures n % c == i
  {
    OneRemainder(n / c, n % c, q, i, c);
  }

  /** The two numbers in a window of length `c` with one remainder are the same. */
  lemma SameInWindow(n: nat, i: nat, q: nat, c: nat)
    requires i < c && i + q * c - c < n <= i + q * c
    ensures n % c == i <==> n == i + q * c
  {
    if n == i + q * c { DivMod(n, q, i, c); }
    if n % c == i {
      var p := n / c;
      if p < q { MultipleGrows(p, q, c); }
      if q < p { MultipleGrows(q, p, c); }
    }
  }

  lemma {:induction false} CountBracket(h: nat, c: nat, i: nat)
    requires i < c
    ensures i + Count(h, c, i) * c - c < h <= i + Count(h, c, i) * c
  {
    if h > 0 {
      var q := Count(h - 1, c, i);
      CountBracket(h - 1, c, i);
      SameInWindow(h - 1, i, q, c);
    }
  }

  lemma {:induction false} LatestIsLast(h: nat, c: nat, i: nat)
    requires i < c
    ensures Latest(h, c, i).Some? <==> Count(h, c, i) > 0
    ensures Latest(h, c, i).Some? ==> Latest(h, c, i).value == i + (Count(h, c, i) - 1) * c
  {
    if h > 0 {
      LatestIsLast(h - 1, c, i);
      CountBracket(h - 1, c, i);
      SameInWindow(h - 1, i, Count(h - 1, c, i), c);
    }
  }

  lemma {:induction false} LatestIsLargest(h: nat, c: nat, i: nat, k: nat)
    requires c > 0 && k < h && k % c == i
    ensures Latest(h, c, i).Some? && k <= Latest(h, c, i).value < h && Latest(h, c, i).value % c == i
  {
    if (h - 1) % c != i { LatestIsLargest(h - 1, c, i, k); }
  }

  /** Every candidate has an evaluation; its last one, whose time the seeding computes from
      the count, is the largest index below the history size with its remainder. */
  lemma LatestEvaluation(h: nat, i: nat, k: nat)
    requires h >= 1 && i < Lesser(100, h) && k < h && k % Lesser(100, h) == i
    ensures var c := Lesser(100, h);
            var last := i + (Count(h, c, i) - 1) * c;
            Count(h, c, i) >= 1 && Latest(h, c, i) == Some(last) && k <= last < h && last % c == i
  {
    LatestIsLast(h, Lesser(100, h), i);
    LatestIsLargest(h, Lesser(100, h), i, k);
  }

  /** The premise above is never empty: candidate `i` is given evaluation `i`. */
  lemma EveryCandidateIsEvaluated(h: nat, i: nat)
    requires h >= 1 && i < Lesser(100, h)
    ensures Count(h, Lesser(100, h), i) >= 1
  {
    DivMod(i, 0, i, Lesser(100, h));
    LatestEvaluation(h, i, i);
  }

  // ----- Reading pages back -----

  /** The matching evaluations older than `bound`, the latest first: every fourth one failed
      the safety gate. */
  function Below(bound: nat): seq<nat> {
    if bound == 0 then []
    else if (bound - 1) % 4 == 0 then [bound - 1] + Below(bound - 1)
    else Below(bound - 1)
  }

  function Take(s: seq<nat>, n: nat): seq<nat> {
    if |s| <= n then s else s[..n]
  }

  datatype Page = Page(items: seq<nat>, cursor: Option<nat>)

  /** One row more than the limit is read to know whether a page follows. */
  function QueryPage(h: nat, cursor: Option<nat>, limit: nat): Page
    requires limit >= 1
  {
    var rows := Take(Below(if cursor.Some? then Lesser(cursor.value, h) else h), limit + 1);
    var items := Take(rows, limit);
    Page(items, if |rows| > limit then Some(items[|items| - 1]) else None)
  }

  lemma {:induction false} BelowMembers(bound: nat)
    ensures forall k :: k in Below(bound) <==> 0 <= k < bound && k % 4 == 0
    ensures |Below(bound)| == (bound + 3) / 4
  {
    if bound > 0 { BelowMembers(bound - 1); }
  }

  /** What is below the j-th match is what follows it. */
  lemma {:induction false} BelowAMatch(bound: nat, j: nat)
    requires j < |Below(bound)|
    ensures Below(bound)[j] < bound && Below(Below(bound)[j]) == Below(bound)[j + 1..]
  {
    if (bound - 1) % 4 != 0 {
      BelowAMatch(bound - 1, j);
    } else if j > 0 {
      BelowAMatch(bound - 1, j - 1);
      assert Below(bound)[j + 1..] == Below(bound - 1)[j..];
    } else {
      assert Below(bound)[1..] == Below(bound - 1);
    }
  }

  datatype PairError = FirstPageShort | SecondPageShort | PagesOverlap

  method QueryPair(h: nat, limit: nat) returns (r: Result<nat, PairError>)
    requires limit >= 1
    ensures r == if 2 * limit <= (h + 3) / 4 then Ok(2 * limit)
                 else if limit < (h + 3) / 4 then Err(SecondPageShort)
                 else Err(FirstPageShort)
  {
    PairOfPages(h, limit);
    var first := QueryPage(h, None, limit);
    if |first.items| != limit || first.cursor.None? {
      return Err(FirstPageShort);
    }
    var second := QueryPage(h, first.cursor, limit);
    if |second.items| != limit {
      return Err(SecondPageShort);
    }
    if exists k :: k in first.items && k in second.items {
      return Err(PagesOverlap);
    }
    return Ok(|first.items| + |second.items|);
  }

  lemma FirstPage(h: nat, limit: nat)
    requires limit >= 1
    ensures var first := QueryPage(h, None, limit);
            && first.items == Take(Below(h), limit)
            && first.cursor == if limit < |Below(h)| then Some(Below(h)[limit - 1]) else None
  {
  }

  lemma NextPage(h: nat, limit: nat)
    requires limit >= 1 && limit < |Below(h)|
    ensures QueryPage(h, Some(Below(h)[limit - 1]), limit).items == Take(Below(h)[limit..], limit)
  {
    BelowAMatch(h, limit - 1);
  }

  /** The first page is full and has a cursor exactly when there are more matches than its
      limit; then the second page is the next matches and shares none with the first. */
  lemma PairOfPages(h: nat, limit: nat)
    requires limit >= 1
    ensures var first := QueryPage(h, None, limit);
            && (|first.items| == limit && first.cursor.Some? <==> limit < (h + 3) / 4)
            && (first.cursor.Some? ==>
                  var second := QueryPage(h, first.cursor, limit);
                  && |second.items| == Lesser(limit, (h + 3) / 4 - limit)
                  && first.items + second.items == Take(Below(h), 2 * limit)
                  && forall k :: k in first.items ==> k !in second.items)
  {
    BelowMembers(h);
    FirstPage(h, limit);
    if limit < |Below(h)| {
      NextPage(h, limit);
      NoRepeats(h, limit);
      TakeTwice(Below(h), limit);
    }
  }

  lemma TakeTwice(s: seq<nat>, n: nat)
    requires n < |s|
    ensures Take(s, n) == s[..n] && s[..n] + Take(s[n..], n) == Take(s, 2 * n)
    ensures forall k :: k in Take(s[n..], n) ==> k in s[n..]
  {
  }

  lemma NoRepeats(h: nat, j: nat)
    requires 0 < j < |Below(h)|
    ensures forall k :: k in Below(h)[..j] ==> k !in Below(h)[j..]
  {
    forall p | 0 <= p < j ensures Below(h)[p] !in Below(h)[j..] {
      BelowAMatch(h, p);
      BelowMembers(Below(h)[p]);
      SuffixMembers(Below(h), p + 1, j);
    }
  }

  lemma SuffixMembers(s: seq<nat>, i: nat, j: nat)
    requires i <= j <= |s|
    ensures forall k :: k in s[j..] ==> k in s[i..]
  {
    assert s[j..] == s[i..][j - i..];
  }

  /** Any page limit the arguments allow leaves enough matches for two full, disjoint pages. */
  lemma AllowedLimitFillsTwoPages(h: nat, limit: nat)
    requires 1 <= limit <= Lesser(1000, h / 8)
    ensures 2 * limit <= (h + 3) / 4
    ensures var first := QueryPage(h, None, limit);
            && first.cursor.Some? && |first.items| == limit
            && |QueryPage(h, first.cursor, limit).items| == limit
            && forall k :: k in first.items ==> k !in QueryPage(h, first.cursor, limit).items
  {
    PairOfPages(h, limit);
  }
}

/** Looking for a context overflow in the graph of an exception and the exceptions it names
    (src/agnoclaw/context_overflow.py, `is_context_overflow_exception`). */
module OverflowSearch {
  import opened Wrappers

  /** What the provider's own classifier says; it may raise. */
  datatype Classified = Overflow | Other | Raises

  /** An exception object: its type, the classifier's answer when it is a provider error, and
      the exceptions it refers to by identity. Cycles are allowed. */
  datatype Exc = Exc(
    windowExceeded: bool,
    provider: Option<Classified>,
    cause: Option<nat>,
    context: Option<nat>,
    agentRun: bool,
    args: seq<nat>)

  type Graph = nat -> Exc

  const LIMIT := 12

  predicate IsOverflow(e: Exc) {
    e.windowExceeded || e.provider == Some(Overflow)
  }

  function Listed(o: Option<nat>): seq<nat> {
    if o.Some? then [o.value] else []
  }

  function Nested(e: Exc): seq<nat> {
    Listed(e.cause) + Listed(e.context) + (if e.agentRun then e.args else [])
  }

  /** The answer of the loop from a worklist and the identities already seen. */
  function Search(g: Graph, pending: seq<nat>, seen: set<nat>): bool
    decreases LIMIT - |seen|, |pending|
  {
    if pending == [] || |seen| >= LIMIT then false
    else
      var rest, current := pending[..|pending| - 1], pending[|pending| - 1];
      if current in seen then Search(g, rest, seen)
      else if IsOverflow(g(current)) then true
      else Search(g, rest + Nested(g(current)), seen + {current})
  }

  method IsContextOverflowException(g: Graph, exc: nat) returns (found: bool)
    ensures found == Search(g, [exc], {})
  {
    var pending := [exc];
    var seen: set<nat> := {};
    while pending != [] && |seen| < LIMIT
      invariant Search(g, pending, seen) == Search(g, [exc], {})
      decreases LIMIT - |seen|, |pending|
    {
      var current := pending[|pending| - 1];
      pending := pending[..|pending| - 1];
      if current in seen {
        continue;
      }
      seen := seen + {current};
      var e := g(current);
      if e.windowExceeded {
        return true;
      }
      if e.provider == Some(Overflow) {
        return true;
      }
      pending := PushNested(pending, e);
    }
    return false;
  }

  method PushNested(before: seq<nat>, e: Exc) returns (pending: seq<nat>)
    ensures pending == before + Nested(e)
  {
    pending := before;
    if e.cause.Some? {
      pending := pending + [e.cause.value];
    }
    if e.context.Some? {
      pending := pending + [e.context.value];
    }
    if e.agentRun {
      pending := pending + e.args;
    }
  }

  // ----- Reachability -----

  /** A walk from each exception to one it names. */
  predicate IsPath(g: Graph, path: seq<nat>) {
    path != [] && forall i :: 0 <= i < |path| - 1 ==> path[i + 1] in Nested(g(path[i]))
  }

  ghost predicate Reachable(g: Graph, from: nat, to: nat) {
    exists path: seq<nat> :: IsPath(g, path) && path[0] == from && path[|path| - 1] == to
  }

  lemma ReachableSelf(g: Graph, n: nat)
    ensures Reachable(g, n, n)
  {
    assert IsPath(g, [n]);
  }

  lemma ReachableNext(g: Graph, from: nat, n: nat, m: nat)
    requires Reachable(g, from, n) && m in Nested(g(n))
    ensures Reachable(g, from, m)
  {
    var path: seq<nat> :| IsPath(g, path) && path[0] == from && path[|path| - 1] == n;
    var longer := path + [m];
    assert IsPath(g, longer) && longer[0] == from && longer[|longer| - 1] == m;
  }

  /** A set with `from` that is closed under naming holds everything reachable. */
  lemma {:induction false} ClosedHoldsPath(g: Graph, closed: set<nat>, path: seq<nat>)
    requires IsPath(g, path) && path[0] in closed
    requires forall n, m :: n in closed && m in Nested(g(n)) ==> m in closed
    ensures path[|path| - 1] in closed
    decreases |path|
  {
    var n := |path| - 1;
    if n > 0 {
      assert IsPath(g, path[..n]);
      ClosedHoldsPath(g, closed, path[..n]);
      assert path[n - 1 + 1] in Nested(g(path[n - 1]));
    }
  }

  /** Only reachable exceptions are looked at, those seen are no overflow, and what they name
      is seen or waiting. */
  ghost predicate SearchInv(g: Graph, root: nat, pending: seq<nat>, seen: set<nat>) {
    && OnlyReachable(g, root, pending, seen)
    && NothingForgotten(g, root, pending, seen)
  }

  ghost predicate OnlyReachable(g: Graph, root: nat, pending: seq<nat>, seen: set<nat>) {
    forall n :: n in pending || n in seen ==> Reachable(g, root, n)
  }

  ghost predicate NothingForgotten(g: Graph, root: nat, pending: seq<nat>, seen: set<nat>) {
    && (root in pending || root in seen)
    && (forall n :: n in seen ==> !IsOverflow(g(n)))
    && (forall n, m :: n in seen && m in Nested(g(n)) ==> m in seen || m in pending)
  }

  ghost predicate Bounds(g: Graph, root: nat, all: set<nat>) {
    forall n :: Reachable(g, root, n) ==> n in all
  }

  lemma NamedAreReachable(g: Graph, root: nat, n: nat)
    requires Reachable(g, root, n)
    ensures forall m :: m in Nested(g(n)) ==> Reachable(g, root, m)
  {
    forall m | m in Nested(g(n)) ensures Reachable(g, root, m) {
      ReachableNext(g, root, n, m);
    }
  }

  /** A newly seen exception that is no overflow. */
  lemma SeenFirst(g: Graph, root: nat, rest: seq<nat>, seen: set<nat>, current: nat, named: seq<nat>)
    requires NothingForgotten(g, root, rest + [current], seen) && !IsOverflow(g(current)) && named == Nested(g(current))
    ensures NothingForgotten(g, root, rest + named, seen + {current})
  {
    var pending, pending' := rest + [current], rest + named;
    assert forall n :: n in pending ==> n in pending' || n == current;
    forall n, m | n in seen + {current} && m in Nested(g(n)) ensures m in seen + {current} || m in pending' {
      if n == current { assert m in named; } else { assert m in seen || m in pending; }
    }
  }

  lemma NamedJoin(g: Graph, root: nat, rest: seq<nat>, seen: set<nat>, current: nat)
    requires OnlyReachable(g, root, rest + [current], seen)
    ensures OnlyReachable(g, root, rest + Nested(g(current)), seen + {current})
  {
    var pending := rest + [current];
    assert current in pending && forall n :: n in rest ==> n in pending;
    NamedAreReachable(g, root, current);
  }

  lemma PopKeepsInv(g: Graph, root: nat, pending: seq<nat>, seen: set<nat>)
    requires SearchInv(g, root, pending, seen) && pending != []
    ensures var rest, current := pending[..|pending| - 1], pending[|pending| - 1];
            && (current in seen ==> SearchInv(g, root, rest, seen))
            && (current !in seen && !IsOverflow(g(current)) ==>
                  SearchInv(g, root, rest + Nested(g(current)), seen + {current}))
  {
    var rest, current := pending[..|pending| - 1], pending[|pending| - 1];
    assert pending == rest + [current];
    assert current in pending;
    if current in seen {
    } else if !IsOverflow(g(current)) {
      NamedJoin(g, root, rest, seen, current);
      SeenFirst(g, root, rest, seen, current, Nested(g(current)));
    }
  }

  lemma {:induction false} SearchIsSound(g: Graph, root: nat, pending: seq<nat>, seen: set<nat>)
    requires SearchInv(g, root, pending, seen) && Search(g, pending, seen)
    ensures exists n :: Reachable(g, root, n) && IsOverflow(g(n))
    decreases LIMIT - |seen|, |pending|
  {
    PopKeepsInv(g, root, pending, seen);
    var rest, current := pending[..|pending| - 1], pending[|pending| - 1];
    if current in seen {
      SearchIsSound(g, root, rest, seen);
    } else if IsOverflow(g(current)) {
      assert current in pending;
    } else {
      SearchIsSound(g, root, rest + Nested(g(current)), seen + {current});
    }
  }

  lemma NoneLeft(g: Graph, root: nat, seen: set<nat>, n: nat)
    requires SearchInv(g, root, [], seen) && Reachable(g, root, n)
    ensures !IsOverflow(g(n))
  {
    var path: seq<nat> :| IsPath(g, path) && path[0] == root && path[|path| - 1] == n;
    ClosedHoldsPath(g, seen, path);
  }

  lemma SameSize(a: set<nat>, b: set<nat>)
    requires a <= b && |b| <= |a|
    ensures a == b
  {
    if a != b {
      var x :| x in b && x !in a;
      assert a <= b - {x};
      SmallerSubset(a, b - {x});
    }
  }

  lemma {:induction false} SmallerSubset(a: set<nat>, b: set<nat>)
    requires a <= b
    ensures |a| <= |b|
    decreases |a|
  {
    if a != {} {
      var x :| x in a;
      SmallerSubset(a - {x}, b - {x});
    }
  }

  lemma {:induction false} SearchIsComplete(g: Graph, root: nat, pending: seq<nat>, seen: set<nat>, all: set<nat>, n: nat)
    requires SearchInv(g, root, pending, seen) && Bounds(g, root, all) && |all| <= LIMIT
    requires Reachable(g, root, n) && IsOverflow(g(n))
    ensures Search(g, pending, seen)
    decreases LIMIT - |seen|, |pending|
  {
    if pending == [] {
      NoneLeft(g, root, seen, n);
    } else if |seen| >= LIMIT {
      assert seen <= all;
      SameSize(seen, all);
      assert false;
    } else {
      PopKeepsInv(g, root, pending, seen);
      var rest, current := pending[..|pending| - 1], pending[|pending| - 1];
      if current in seen {
        SearchIsComplete(g, root, rest, seen, all, n);
      } else if !IsOverflow(g(current)) {
        SearchIsComplete(g, root, rest + Nested(g(current)), seen + {current}, all, n);
      }
    }
  }

  /** The search ends on every graph, and a yes is always right. */
  lemma YesIsRight(g: Graph, root: nat)
    requires Search(g, [root], {})
    ensures exists n :: Reachable(g, root, n) && IsOverflow(g(n))
  {
    SearchIsSound(g, root, [root], {});
  }

  /** With at most twelve distinct reachable exceptions the answer is exact, cycles or not. */
  lemma ExactUpToTwelve(g: Graph, root: nat, all: set<nat>)
    requires Bounds(g, root, all) && |all| <= 12
    ensures Search(g, [root], {}) <==> exists n :: Reachable(g, root, n) && IsOverflow(g(n))
  {
    if Search(g, [root], {}) { SearchIsSound(g, root, [root], {}); }
    if exists n :: Reachable(g, root, n) && IsOverflow(g(n)) {
      var n :| Reachable(g, root, n) && IsOverflow(g(n));
      SearchIsComplete(g, root, [root], {}, all, n);
    }
  }

  // ----- The bound is sharp -----

  /** Exceptions raised from each other in a row, the last of which is the overflow. */
  function Chain(last: nat): Graph {
    (n: nat) => Exc(n == last, None, if n < last then Some(n + 1) else None, None, false, [])
  }

  function UpTo(n: nat): (r: set<nat>)
    ensures |r| == n && forall k: nat :: k in r <==> k < n
  {
    if n == 0 then {} else UpTo(n - 1) + {n - 1}
  }

  lemma {:induction false} ChainFrom(last: nat, k: nat)
    requires k <= last && k <= LIMIT
    ensures Search(Chain(last), [k], UpTo(k)) <==> last < LIMIT
    decreases LIMIT - k
  {
    var g := Chain(last);
    if k < LIMIT && k < last {
      assert Nested(g(k)) == [k + 1];
      assert [k][..0] + [k + 1] == [k + 1] && UpTo(k) + {k} == UpTo(k + 1);
      ChainFrom(last, k + 1);
    }
  }

  lemma {:induction false} ChainReaches(last: nat, k: nat)
    requires k <= last
    ensures Reachable(Chain(last), 0, k)
  {
    if k == 0 {
      ReachableSelf(Chain(last), 0);
    } else {
      ChainReaches(last, k - 1);
      ReachableNext(Chain(last), 0, k - 1, k);
    }
  }

  /** In a row of exceptions the overflow at the end is always reachable, and it is found
      exactly when it is among the first twelve. */
  lemma ChainFoundIffAmongTwelve(last: nat)
    ensures Reachable(Chain(last), 0, last) && IsOverflow(Chain(last)(last))
    ensures Search(Chain(last), [0], {}) <==> last < 12
  {
    ChainReaches(last, last);
    ChainFrom(last, 0);
    assert UpTo(0) == {};
  }

  // ----- Which exceptions are looked at -----

  /** The first `n` distinct exceptions in visiting order, continuing from those already
      visited: the latest named one first, and no stop at an overflow. */
  function Visited(g: Graph, pending: seq<nat>, order: seq<nat>, n: nat): seq<nat>
    decreases n - |order|, |pending|
  {
    if pending == [] || |order| >= n then order
    else
      var rest, current := pending[..|pending| - 1], pending[|pending| - 1];
      if current in order then Visited(g, rest, order, n)
      else Visited(g, rest + Nested(g(current)), order + [current], n)
  }

  function VisitingOrder(g: Graph, root: nat, n: nat): seq<nat> {
    Visited(g, [root], [], n)
  }

  predicate Distinct(order: seq<nat>) {
    forall i, j :: 0 <= i < j < |order| ==> order[i] != order[j]
  }

  function Members(order: seq<nat>): (r: set<nat>)
    ensures forall x :: x in r <==> x in order
  {
    if order == [] then {} else Members(order[..|order| - 1]) + {order[|order| - 1]}
  }

  lemma {:induction false} DistinctSize(order: seq<nat>)
    requires Distinct(order)
    ensures |Members(order)| == |order|
  {
    if order != [] {
      var front, last := order[..|order| - 1], order[|order| - 1];
      DistinctSize(front);
      assert last !in front;
    }
  }

  /** What was visited stays, and nothing is visited twice or beyond the first `n`. */
  lemma {:induction false} VisitedExtends(g: Graph, pending: seq<nat>, order: seq<nat>, n: nat)
    requires Distinct(order) && |order| <= n
    ensures order <= Visited(g, pending, order, n) && |Visited(g, pending, order, n)| <= n
    ensures Distinct(Visited(g, pending, order, n))
    decreases n - |order|, |pending|
  {
    if pending != [] && |order| < n {
      var rest, current := pending[..|pending| - 1], pending[|pending| - 1];
      if current in order {
        VisitedExtends(g, rest, order, n);
      } else {
        VisitedExtends(g, rest + Nested(g(current)), order + [current], n);
      }
    }
  }

  /** The order does not depend on how much of it is asked for. */
  lemma {:induction false} VisitedPrefix(g: Graph, pending: seq<nat>, order: seq<nat>, m: nat, n: nat)
    requires Distinct(order) && |order| <= m <= n
    ensures Visited(g, pending, order, m) <= Visited(g, pending, order, n)
    decreases m - |order|, |pending|
  {
    if pending != [] && |order| < m {
      var rest, current := pending[..|pending| - 1], pending[|pending| - 1];
      if current in order {
        VisitedPrefix(g, rest, order, m, n);
      } else {
        VisitedPrefix(g, rest + Nested(g(current)), order + [current], m, n);
      }
    } else {
      VisitedExtends(g, pending, order, n);
    }
  }

  /** `x` is the exception visited after exactly `k` others. */
  predicate VisitedAs(g: Graph, root: nat, x: nat, k: nat) {
    var order := VisitingOrder(g, root, k + 1);
    k < |order| && order[k] == x
  }

  lemma VisitedAsInOrder(g: Graph, root: nat, x: nat, k: nat, n: nat)
    requires k < n
    ensures VisitedAs(g, root, x, k) <==> k < |VisitingOrder(g, root, n)| && VisitingOrder(g, root, n)[k] == x
  {
    VisitedPrefix(g, [root], [], k + 1, n);
    VisitedFull(g, [root], [], k + 1, n);
  }

  /** Asking for more gives more only if all that was asked for was there. */
  lemma {:induction false} VisitedFull(g: Graph, pending: seq<nat>, order: seq<nat>, m: nat, n: nat)
    requires Distinct(order) && |order| <= m <= n
    ensures |Visited(g, pending, order, m)| < m ==> Visited(g, pending, order, n) == Visited(g, pending, order, m)
    decreases m - |order|, |pending|
  {
    if pending != [] && |order| < m {
      var rest, current := pending[..|pending| - 1], pending[|pending| - 1];
      if current in order {
        VisitedFull(g, rest, order, m, n);
      } else {
        VisitedFull(g, rest + Nested(g(current)), order + [current], m, n);
      }
    }
  }

  predicate HasOverflow(g: Graph, order: seq<nat>) {
    exists i :: 0 <= i < |order| && IsOverflow(g(order[i]))
  }

  lemma {:induction false} SearchFindsVisited(g: Graph, pending: seq<nat>, order: seq<nat>)
    requires Distinct(order) && |order| <= LIMIT && !HasOverflow(g, order)
    ensures Search(g, pending, Members(order)) <==> HasOverflow(g, Visited(g, pending, order, LIMIT))
    decreases LIMIT - |order|, |pending|
  {
    DistinctSize(order);
    if pending != [] && |order| < LIMIT {
      var rest, current := pending[..|pending| - 1], pending[|pending| - 1];
      if current in order {
        SearchFindsVisited(g, rest, order);
      } else {
        var longer := order + [current];
        if IsOverflow(g(current)) {
          VisitedExtends(g, rest + Nested(g(current)), longer, LIMIT);
          OverflowStays(g, longer, Visited(g, rest + Nested(g(current)), longer, LIMIT), |order|);
        } else {
          SearchFindsVisited(g, rest + Nested(g(current)), longer);
        }
      }
    }
  }

  lemma OverflowStays(g: Graph, order: seq<nat>, longer: seq<nat>, i: nat)
    requires order <= longer && i < |order| && IsOverflow(g(order[i]))
    ensures HasOverflow(g, longer)
  {
  }

  /** On every graph the answer is yes exactly when an overflow is among the first twelve
      distinct exceptions in visiting order. */
  lemma FoundIffAmongFirstTwelve(g: Graph, root: nat)
    ensures Search(g, [root], {}) <==> exists x: nat, k: nat :: k < 12 && VisitedAs(g, root, x, k) && IsOverflow(g(x))
  {
    var order := VisitingOrder(g, root, LIMIT);
    assert Members([]) == {};
    SearchFindsVisited(g, [root], []);
    VisitedExtends(g, [root], [], LIMIT);
    if HasOverflow(g, order) {
      var i :| 0 <= i < |order| && IsOverflow(g(order[i]));
      VisitedAsInOrder(g, root, order[i], i, LIMIT);
      assert VisitedAs(g, root, order[i], i) && IsOverflow(g(order[i]));
    }
    if x: nat, k: nat :| k < 12 && VisitedAs(g, root, x, k) && IsOverflow(g(x)) {
      VisitedAsInOrder(g, root, x, k, LIMIT);
      assert IsOverflow(g(order[k]));
    }
  }

  ghost predicate Exact(g: Graph, root: nat) {
    Search(g, [root], {}) <==> exists n :: Reachable(g, root, n) && IsOverflow(g(n))
  }

  /** Every graph with at most `n` reachable exceptions. */
  ghost predicate ExactUpTo(n: nat) {
    forall g: Graph, root: nat, all: set<nat> :: Bounds(g, root, all) && |all| <= n ==> Exact(g, root)
  }

  lemma ChainIsBounded(last: nat)
    ensures Bounds(Chain(last), 0, UpTo(last + 1))
  {
    var g, all := Chain(last), UpTo(last + 1);
    forall n | Reachable(g, 0, n) ensures n in all {
      var path: seq<nat> :| IsPath(g, path) && path[0] == 0 && path[|path| - 1] == n;
      ClosedHoldsPath(g, all, path);
    }
  }

  /** Twelve is the exact bound: the answer is right on every graph with at most `n` reachable
      exceptions if and only if `n` is at most twelve. */
  lemma ExactUpToIffTwelve(n: nat)
    ensures ExactUpTo(n) <==> n <= 12
  {
    if n <= 12 {
      forall g: Graph, root: nat, all: set<nat> | Bounds(g, root, all) && |all| <= n ensures Exact(g, root) {
        ExactUpToTwelve(g, root, all);
      }
    } else {
      ChainIsBounded(12);
      ChainFoundIffAmongTwelve(12);
      assert !Exact(Chain(12), 0);
    }
  }
}

/** A business host that applies a change under a revision check and keeps an idempotency
    receipt for it (examples/domain_harness/demo.py, `DemoHost`). */
module DemoHost {
  import opened Wrappers

  /** The digest of the arguments is injective, so the arguments stand for it. */
  datatype Arguments = Arguments(expectedRevision: int, revenue: int)

  datatype Applied = Applied(revision: int, revenue: int)

  datatype Receipt = Receipt(arguments: Arguments, result: Applied)

  datatype Tables = Tables(revision: int, revenue: Option<int>, receipts: map<string, Receipt>, outputs: map<string, string>)

  datatype HostError = KeyReused | StaleRevision

  const NEW_HOST := Tables(1, None, map[], map[])

  function ApplyChange(t: Tables, key: string, a: Arguments): (Tables, Result<Applied, HostError>) {
    if key in t.receipts then
      if t.receipts[key].arguments != a then (t, Err(KeyReused)) else (t, Ok(t.receipts[key].result))
    else if t.revision != a.expectedRevision then (t, Err(StaleRevision))
    else
      var result := Applied(a.expectedRevision + 1, a.revenue);
      (t.(revision := t.revision + 1, revenue := Some(a.revenue), receipts := t.receipts[key := Receipt(a, result)]),
       Ok(result))
  }

  /** The first content saved under a digest stays. */
  function SaveOutput(t: Tables, digest: string, content: string): Tables {
    if digest in t.outputs then t else t.(outputs := t.outputs[digest := content])
  }

  /** Where a call ends: it returns, the process dies before the commit, or it dies after the
      commit and before the answer arrives. */
  datatype Fate = Returns | DiesBeforeCommit | DiesAfterCommit

  datatype Step = Apply(key: string, arguments: Arguments, fate: Fate) | Save(digest: string, content: string, fate: Fate)

  function Next(t: Tables, step: Step): Tables {
    if step.fate.DiesBeforeCommit? then t
    else
      match step
      case Apply(key, a, _) => ApplyChange(t, key, a).0
      case Save(digest, content, _) => SaveOutput(t, digest, content)
  }

  function Run(t: Tables, steps: seq<Step>): Tables
    decreases |steps|
  {
    if steps == [] then t else Run(Next(t, steps[0]), steps[1..])
  }

  // ----- The tables are the fold of the committed changes -----

  datatype Change = Change(key: string, revenue: int)

  /** What the tables hold after these changes, the oldest first. */
  function ReceiptsOf(changes: seq<Change>): map<string, Receipt> {
    if changes == [] then map[]
    else
      var n := |changes|;
      ReceiptsOf(changes[..n - 1])
      [changes[n - 1].key := Receipt(Arguments(n, changes[n - 1].revenue), Applied(n + 1, changes[n - 1].revenue))]
  }

  predicate NewKeys(changes: seq<Change>) {
    changes == [] ||
    (var front := changes[..|changes| - 1]; NewKeys(front) && changes[|changes| - 1].key !in ReceiptsOf(front))
  }

  predicate Explains(t: Tables, changes: seq<Change>) {
    && NewKeys(changes)
    && t.revision == 1 + |changes|
    && t.revenue == (if changes == [] then None else Some(changes[|changes| - 1].revenue))
    && t.receipts == ReceiptsOf(changes)
  }

  lemma ApplyExtends(t: Tables, changes: seq<Change>, step: Step)
    requires Explains(t, changes)
    ensures Explains(Next(t, step), changes) ||
            (step.Apply? && !step.fate.DiesBeforeCommit? && step.key !in t.receipts
             && Explains(Next(t, step), changes + [Change(step.key, step.arguments.revenue)]))
  {
    if step.Apply? {
      assert (changes + [Change(step.key, step.arguments.revenue)])[..|changes|] == changes;
    }
  }

  /** After any run of calls, stale calls, reused keys and deaths, the tables are explained
      by a list of committed changes that extends the earlier one. */
  lemma {:induction false} RunIsExplained(t: Tables, changes: seq<Change>, steps: seq<Step>) returns (after: seq<Change>)
    requires Explains(t, changes)
    ensures changes <= after && Explains(Run(t, steps), after)
    decreases |steps|
  {
    if steps == [] {
      after := changes;
    } else {
      ApplyExtends(t, changes, steps[0]);
      var next := if Explains(Next(t, steps[0]), changes) then changes
                  else changes + [Change(steps[0].key, steps[0].arguments.revenue)];
      after := RunIsExplained(Next(t, steps[0]), next, steps[1..]);
    }
  }

  /** The receipts number the revisions: one each from 2 up to the current one, for the key
      and the revenue of the change that made it. */
  lemma {:induction false} ReceiptOfChange(changes: seq<Change>, k: nat)
    requires NewKeys(changes) && k < |changes|
    ensures changes[k].key in ReceiptsOf(changes)
    ensures ReceiptsOf(changes)[changes[k].key] ==
            Receipt(Arguments(k + 1, changes[k].revenue), Applied(k + 2, changes[k].revenue))
  {
    var front := changes[..|changes| - 1];
    if k < |front| {
      ReceiptOfChange(front, k);
    }
  }

  lemma {:induction false} ChangeOfReceipt(changes: seq<Change>, key: string) returns (k: nat)
    requires NewKeys(changes) && key in ReceiptsOf(changes)
    ensures k < |changes| && changes[k].key == key
  {
    var front := changes[..|changes| - 1];
    if changes[|changes| - 1].key == key {
      k := |changes| - 1;
    } else {
      k := ChangeOfReceipt(front, key);
    }
  }

  lemma {:induction false} ReceiptsCount(changes: seq<Change>)
    requires NewKeys(changes)
    ensures |ReceiptsOf(changes)| == |changes|
  {
    if changes != [] { ReceiptsCount(changes[..|changes| - 1]); }
  }

  predicate CarriesRevision(t: Tables, key: string, revision: int) {
    key in t.receipts && t.receipts[key].result.revision == revision
  }

  ghost predicate Carried(t: Tables, revision: int) {
    exists key :: CarriesRevision(t, key, revision)
  }

  /** In every reachable state the revision is one plus the number of receipts; each revision
      from 2 to the current one is carried by exactly one receipt and no receipt carries any
      other; and the revenue is that of the receipt with the highest revision. */
  lemma ReceiptsAreTheHistory(steps: seq<Step>)
    ensures var t := Run(NEW_HOST, steps);
            && t.revision == 1 + |t.receipts|
            && (forall key :: key in t.receipts ==> 2 <= t.receipts[key].result.revision <= t.revision)
            && (forall v :: 2 <= v <= t.revision ==> Carried(t, v))
            && (forall v, key, key' :: CarriesRevision(t, key, v) && CarriesRevision(t, key', v) ==> key == key')
            && (t.receipts == map[] ==> t.revenue == None)
            && (forall key :: CarriesRevision(t, key, t.revision) ==> t.revenue == Some(t.receipts[key].result.revenue))
  {
    var changes := RunIsExplained(NEW_HOST, [], steps);
    var t := Run(NEW_HOST, steps);
    ReceiptsCount(changes);
    forall key | key in t.receipts
      ensures exists k: nat :: k < |changes| && changes[k].key == key
                               && t.receipts[key].result == Applied(k + 2, changes[k].revenue)
    {
      var k := ChangeOfReceipt(changes, key);
      ReceiptOfChange(changes, k);
    }
    forall v | 2 <= v <= t.revision ensures Carried(t, v) {
      ReceiptOfChange(changes, v - 2);
      assert CarriesRevision(t, changes[v - 2].key, v);
    }
  }

  /** Nothing a later call does changes a receipt. */
  lemma {:induction false} ReceiptsAreKept(t: Tables, steps: seq<Step>, key: string)
    requires key in t.receipts
    ensures key in Run(t, steps).receipts && Run(t, steps).receipts[key] == t.receipts[key]
    decreases |steps|
  {
    if steps != [] { ReceiptsAreKept(Next(t, steps[0]), steps[1..], key); }
  }

  /** A call that committed, even if its caller died before the answer, is answered the same
      way after any run of other calls: the retry returns the first result and changes
      nothing, and the same key with other arguments is refused and changes nothing. */
  lemma RetryReturnsFirstResult(t: Tables, key: string, a: Arguments, steps: seq<Step>, b: Arguments)
    requires ApplyChange(t, key, a).1.Ok?
    ensures var later := Run(ApplyChange(t, key, a).0, steps);
            && ApplyChange(later, key, a) == (later, ApplyChange(t, key, a).1)
            && (b != a ==> ApplyChange(later, key, b) == (later, Err(KeyReused)))
  {
    ReceiptsAreKept(ApplyChange(t, key, a).0, steps, key);
  }

  /** Nothing a later call does changes a saved output. */
  lemma {:induction false} OutputsAreKept(t: Tables, steps: seq<Step>, digest: string)
    requires digest in t.outputs
    ensures digest in Run(t, steps).outputs && Run(t, steps).outputs[digest] == t.outputs[digest]
    decreases |steps|
  {
    if steps != [] { OutputsAreKept(Next(t, steps[0]), steps[1..], digest); }
  }

  /** The content first committed under a digest is the one found there after any run, even
      one that saves other contents under it; and saving touches neither the deal nor its
      receipts. */
  lemma FirstSavedContentStays(t: Tables, digest: string, content: string, steps: seq<Step>)
    requires digest !in t.outputs
    ensures var saved := SaveOutput(t, digest, content);
            && saved.revision == t.revision && saved.revenue == t.revenue && saved.receipts == t.receipts
            && var later := Run(saved, steps);
               digest in later.outputs && later.outputs[digest] == content
  {
    OutputsAreKept(SaveOutput(t, digest, content), steps, digest);
  }

  /** A call changes the tables if and only if its key is new and it names the current
      revision; a known key is answered with its receipt or refused for other arguments, and a
      new key against another revision is refused as stale. */
  lemma AppliedIffNewAndCurrent(t: Tables, key: string, a: Arguments)
    ensures var (t', reply) := ApplyChange(t, key, a);
            && (t' != t <==> key !in t.receipts && a.expectedRevision == t.revision)
            && (t' != t ==> && reply == Ok(Applied(t'.revision, a.revenue)) && t'.revision == t.revision + 1
                            && t'.revenue == Some(a.revenue) && key in t'.receipts && t'.outputs == t.outputs)
            && (reply == Err(KeyReused) <==> key in t.receipts && t.receipts[key].arguments != a)
            && (reply == Err(StaleRevision) <==> key !in t.receipts && a.expectedRevision != t.revision)
  {
    if key !in t.receipts && a.expectedRevision == t.revision {
      assert ApplyChange(t, key, a).0.revision == t.revision + 1;
    }
  }

  lemma {:induction false} RevisionNeverFalls(t: Tables, steps: seq<Step>)
    ensures Run(t, steps).revision >= t.revision
    decreases |steps|
  {
    if steps != [] { RevisionNeverFalls(Next(t, steps[0]), steps[1..]); }
  }

  /** Of all new keys sent against one revision only the first is applied, whatever calls and
      deaths come between. */
  lemma OneChangePerRevision(t: Tables, key: string, a: Arguments, steps: seq<Step>, key': string, b: Arguments)
    requires ApplyChange(t, key, a).0 != t && a.expectedRevision == b.expectedRevision
    requires key' !in Run(ApplyChange(t, key, a).0, steps).receipts
    ensures var later := Run(ApplyChange(t, key, a).0, steps);
            ApplyChange(later, key', b) == (later, Err(StaleRevision))
  {
    AppliedIffNewAndCurrent(t, key, a);
    RevisionNeverFalls(ApplyChange(t, key, a).0, steps);
  }

  // ----- The host itself -----

  class Host {
    var revision: int
    var revenue: Option<int>
    var receipts: map<string, Receipt>
    var outputs: map<string, string>

    function View(): Tables
      reads this
    {
      Tables(revision, revenue, receipts, outputs)
    }

    constructor ()
      ensures View() == NEW_HOST
    {
      revision, revenue, receipts, outputs := 1, None, map[], map[];
    }

    method Current() returns (current: int)
      ensures current == View().revision
    {
      return revision;
    }

    /** One transaction that may be cut short after any of its statements. */
    method Apply(expectedRevision: int, newRevenue: int, key: string, diesAfter: Option<nat>)
        returns (reply: Option<Result<Applied, HostError>>)
      modifies this
      ensures var a := Arguments(expectedRevision, newRevenue);
              match reply
              case Some(r) => (View(), r) == ApplyChange(old(View()), key, a)
              case None => diesAfter.Some? && View() == old(View())
      ensures diesAfter.None? ==> reply.Some?
    {
      var begin := View();
      var arguments := Arguments(expectedRevision, newRevenue);
      if key in receipts {
        if receipts[key].arguments != arguments {
          return Some(Err(KeyReused));
        }
        return Some(Ok(receipts[key].result));
      }
      var updated := 0;
      if revision == expectedRevision {
        revenue := Some(newRevenue);
        revision := revision + 1;
        updated := 1;
      }
      if diesAfter == Some(1) {
        Rollback(begin);
        return None;
      }
      if updated != 1 {
        return Some(Err(StaleRevision));
      }
      var result := Applied(expectedRevision + 1, newRevenue);
      receipts := receipts[key := Receipt(arguments, result)];
      if diesAfter == Some(2) {
        Rollback(begin);
        return None;
      }
      return Some(Ok(result));
    }

    method Rollback(begin: Tables)
      modifies this
      ensures View() == begin
    {
      revision, revenue, receipts, outputs := begin.revision, begin.revenue, begin.receipts, begin.outputs;
    }

    method Save(digest: string, content: string)
      modifies this
      ensures View() == SaveOutput(old(View()), digest, content)
    {
      if digest !in outputs {
        outputs := outputs[digest := content];
      }
    }
  }
}

/** Deep merge of JSON documents and the order in which attachments are merged
    (examples/pe_risk_platform/deal_pack_builder.py, `_merge_dict`,
    `build_pack_from_attachments`). */
module DeepMerge {
  import opened Json

  type Dict = map<string, Value>

  predicate BothObjects(a: Dict, b: Dict, k: string) {
    k in a && k in b && a[k].Obj? && b[k].Obj?
  }

  /** Objects on both sides are merged; otherwise the second document wins. */
  function Merge(a: Dict, b: Dict): Dict
    decreases Obj(b)
  {
    map k | k in a.Keys + b.Keys ::
      if BothObjects(a, b, k) then Obj(Merge(a[k].fields, b[k].fields))
      else if k in b then b[k]
      else a[k]
  }

  /** The dictionary after the entries of `override` with these keys were taken. */
  function Taken(base: Dict, override: Dict, keys: set<string>): Dict
    requires keys <= override.Keys
  {
    map k | k in base.Keys + keys ::
      if k !in keys then base[k]
      else if BothObjects(base, override, k) then Obj(Merge(base[k].fields, override[k].fields))
      else override[k]
  }

  /** Everything but the entries `todo` has been taken. */
  predicate Remaining(base: Dict, override: Dict, todo: set<string>, out: Dict) {
    todo <= override.Keys && out == Taken(base, override, override.Keys - todo)
  }

  lemma TakeOneOf(base: Dict, override: Dict, todo: set<string>, out: Dict, key: string)
    requires Remaining(base, override, todo, out) && key in todo
    ensures key in override
    ensures BothObjects(out, override, key) ==>
              Remaining(base, override, todo - {key}, out[key := Obj(Merge(out[key].fields, override[key].fields))])
    ensures !BothObjects(out, override, key) ==> Remaining(base, override, todo - {key}, out[key := override[key]])
  {
    assert override.Keys - (todo - {key}) == (override.Keys - todo) + {key};
  }

  lemma NoneTaken(base: Dict, override: Dict)
    ensures Remaining(base, override, override.Keys, base)
  {
    assert override.Keys - override.Keys == {};
  }

  lemma AllTaken(base: Dict, override: Dict, out: Dict)
    requires Remaining(base, override, {}, out)
    ensures out == Merge(base, override)
  {
    assert override.Keys - {} == override.Keys;
  }

  /** One entry of the second document. */
  method TakeEntry(base: Dict, override: Dict, ghost todo: set<string>, before: Dict, key: string) returns (out: Dict)
    requires Remaining(base, override, todo, before) && key in todo
    ensures Remaining(base, override, todo - {key}, out)
    decreases Obj(override), 0
  {
    TakeOneOf(base, override, todo, before, key);
    var value := override[key];
    if value.Obj? && key in before && before[key].Obj? {
      var merged := MergeDict(before[key].fields, value.fields);
      out := before[key := Obj(merged)];
    } else {
      out := before[key := value];
    }
  }

  method MergeDict(base: Dict, override: Dict) returns (out: Dict)
    ensures out == Merge(base, override)
    decreases Obj(override), 1
  {
    NoneTaken(base, override);
    out := base;
    var todo := override.Keys;
    while todo != {}
      invariant Remaining(base, override, todo, out)
      decreases |todo|
    {
      var key :| key in todo;
      out := TakeEntry(base, override, todo, out, key);
      todo := todo - {key};
    }
    AllTaken(base, override, out);
  }

  // ----- Laws of one and two documents -----

  lemma {:induction false} MergeWithItself(a: Dict)
    ensures Merge(a, a) == a
    decreases Obj(a)
  {
    forall k | k in a && a[k].Obj? ensures Merge(a[k].fields, a[k].fields) == a[k].fields {
      MergeWithItself(a[k].fields);
    }
  }

  /** Merging the same document again changes nothing. */
  lemma {:induction false} MergeAgain(a: Dict, b: Dict)
    ensures Merge(Merge(a, b), b) == Merge(a, b)
    decreases Obj(b)
  {
    forall k | k in b && b[k].Obj?
      ensures BothObjects(a, b, k) ==> Merge(Merge(a[k].fields, b[k].fields), b[k].fields) == Merge(a[k].fields, b[k].fields)
      ensures Merge(b[k].fields, b[k].fields) == b[k].fields
    {
      if BothObjects(a, b, k) { MergeAgain(a[k].fields, b[k].fields); }
      MergeWithItself(b[k].fields);
    }
  }

  lemma MergeWithNothing(a: Dict)
    ensures Merge(a, map[]) == a && Merge(map[], a) == a
  {
  }

  /** Every path of `a` down to a non-object is decided by `c`. */
  predicate Absorbed(a: Dict, c: Dict)
    decreases Obj(c)
  {
    forall k | k in a :: k in c && (BothObjects(a, c, k) ==> Absorbed(a[k].fields, c[k].fields))
  }

  lemma {:induction false} AbsorbedIff(a: Dict, c: Dict)
    ensures Merge(a, c) == c <==> Absorbed(a, c)
    decreases Obj(c)
  {
    var m := Merge(a, c);
    forall k | BothObjects(a, c, k)
      ensures Merge(a[k].fields, c[k].fields) == c[k].fields <==> Absorbed(a[k].fields, c[k].fields)
    {
      AbsorbedIff(a[k].fields, c[k].fields);
    }
    if m == c {
      forall k | k in a ensures k in c && (BothObjects(a, c, k) ==> Absorbed(a[k].fields, c[k].fields)) {
        assert k in m;
        if BothObjects(a, c, k) { assert m[k] == c[k]; }
      }
    }
  }

  // ----- Three documents -----

  /** Where `a` and `c` have objects and `b` has something else, `c` decides everything that
      `a` says. */
  predicate Compatible(a: Dict, b: Dict, c: Dict)
    decreases Obj(c)
  {
    forall k | BothObjects(a, c, k) && k in b ::
      if b[k].Obj? then Compatible(a[k].fields, b[k].fields, c[k].fields)
      else Absorbed(a[k].fields, c[k].fields)
  }

  predicate AssociativeAt(a: Dict, b: Dict, c: Dict, k: string) {
    && (k in Merge(Merge(a, b), c) <==> k in Merge(a, Merge(b, c)))
    && (k in Merge(Merge(a, b), c) ==> Merge(Merge(a, b), c)[k] == Merge(a, Merge(b, c))[k])
  }

  lemma AssociativeByKey(a: Dict, b: Dict, c: Dict)
    ensures Merge(Merge(a, b), c) == Merge(a, Merge(b, c)) <==> forall k :: AssociativeAt(a, b, c, k)
  {
    if forall k :: AssociativeAt(a, b, c, k) {
      var left, right := Merge(Merge(a, b), c), Merge(a, Merge(b, c));
      assert forall k :: k in left <==> k in right by {
        forall k ensures k in left <==> k in right { assert AssociativeAt(a, b, c, k); }
      }
      forall k | k in left ensures left[k] == right[k] { assert AssociativeAt(a, b, c, k); }
    }
  }

  /** Where the two groupings can differ at all. */
  lemma AssociativeAtKey(a: Dict, b: Dict, c: Dict, k: string)
    ensures AssociativeAt(a, b, c, k) <==>
              (BothObjects(a, c, k) && k in b ==>
                 if b[k].Obj? then
                   Merge(Merge(a[k].fields, b[k].fields), c[k].fields) == Merge(a[k].fields, Merge(b[k].fields, c[k].fields))
                 else Merge(a[k].fields, c[k].fields) == c[k].fields)
  {
  }

  /** Merging is associative exactly on compatible documents. */
  lemma {:induction false} AssociativeIffCompatible(a: Dict, b: Dict, c: Dict)
    ensures Merge(Merge(a, b), c) == Merge(a, Merge(b, c)) <==> Compatible(a, b, c)
    decreases Obj(c)
  {
    AssociativeByKey(a, b, c);
    forall k
      ensures AssociativeAt(a, b, c, k) <==> (BothObjects(a, c, k) && k in b ==> CompatibleAt(a, b, c, k))
    {
      AssociativeAtKey(a, b, c, k);
      if BothObjects(a, c, k) && k in b {
        if b[k].Obj? {
          AssociativeIffCompatible(a[k].fields, b[k].fields, c[k].fields);
        } else {
          AbsorbedIff(a[k].fields, c[k].fields);
        }
      }
    }
  }

  predicate CompatibleAt(a: Dict, b: Dict, c: Dict, k: string)
    requires BothObjects(a, c, k) && k in b
  {
    if b[k].Obj? then Compatible(a[k].fields, b[k].fields, c[k].fields)
    else Absorbed(a[k].fields, c[k].fields)
  }

  /** Somewhere `a` and `c` have objects and `b` has something that is none. */
  predicate Blocks(a: Dict, b: Dict, c: Dict)
    decreases Obj(c)
  {
    exists k | BothObjects(a, c, k) && k in b ::
      !b[k].Obj? || Blocks(a[k].fields, b[k].fields, c[k].fields)
  }

  lemma {:induction false} UnblockedIsCompatible(a: Dict, b: Dict, c: Dict)
    requires !Blocks(a, b, c)
    ensures Compatible(a, b, c)
    decreases Obj(c)
  {
    forall k | BothObjects(a, c, k) && k in b
      ensures b[k].Obj? && Compatible(a[k].fields, b[k].fields, c[k].fields)
    {
      UnblockedIsCompatible(a[k].fields, b[k].fields, c[k].fields);
    }
  }

  /** A merged document blocks only where one of its parts does. */
  lemma {:induction false} MergedBlocks(a: Dict, b: Dict, b': Dict, c: Dict)
    requires Blocks(a, Merge(b, b'), c)
    ensures Blocks(a, b, c) || Blocks(a, b', c)
    decreases Obj(c)
  {
    var m := Merge(b, b');
    var k :| BothObjects(a, c, k) && k in m && (!m[k].Obj? || Blocks(a[k].fields, m[k].fields, c[k].fields));
    if BothObjects(b, b', k) {
      MergedBlocks(a[k].fields, b[k].fields, b'[k].fields, c[k].fields);
    }
  }

  // ----- Attachments -----

  /** Merge the documents one by one onto `base`. */
  function MergeOnto(base: Dict, docs: seq<Dict>): Dict {
    if docs == [] then base else Merge(MergeOnto(base, docs[..|docs| - 1]), docs[|docs| - 1])
  }

  /** No document blocks a later one on something the base has. */
  predicate NoBlocking(base: Dict, docs: seq<Dict>) {
    forall i, j :: 0 <= i < j < |docs| ==> !Blocks(base, docs[i], docs[j])
  }

  lemma {:induction false} FoldBlocks(base: Dict, docs: seq<Dict>, c: Dict)
    requires Blocks(base, MergeOnto(map[], docs), c)
    ensures exists i :: 0 <= i < |docs| && Blocks(base, docs[i], c)
  {
    if docs != [] {
      var front, last := docs[..|docs| - 1], docs[|docs| - 1];
      MergedBlocks(base, MergeOnto(map[], front), last, c);
      if !Blocks(base, last, c) {
        FoldBlocks(base, front, c);
        var i :| 0 <= i < |front| && Blocks(base, front[i], c);
        assert docs[i] == front[i];
      }
    }
  }

  /** Merging the attachments one by one onto the base pack is merging their fold onto it, as
      long as no attachment has a non-object where the base and a later one have objects. */
  lemma {:induction false} FoldLaw(base: Dict, docs: seq<Dict>)
    requires NoBlocking(base, docs)
    ensures MergeOnto(base, docs) == Merge(base, MergeOnto(map[], docs))
  {
    if docs == [] {
      MergeWithNothing(base);
    } else {
      var front, last := docs[..|docs| - 1], docs[|docs| - 1];
      FoldLaw(base, front);
      var fold := MergeOnto(map[], front);
      if Blocks(base, fold, last) {
        FoldBlocks(base, front, last);
        assert false;
      }
      UnblockedIsCompatible(base, fold, last);
      AssociativeIffCompatible(base, fold, last);
    }
  }

  /** The condition cannot be dropped: a non-object in the middle hides the base from one
      order and not from the other, unless the last document decides everything anyway. */
  lemma BlockingDocumentBreaksTheLaw(base: Dict, middle: Dict, last: Dict, k: string)
    requires BothObjects(base, last, k) && k in middle && !middle[k].Obj?
    ensures MergeOnto(base, [middle, last]) == Merge(base, MergeOnto(map[], [middle, last])) ==>
              Absorbed(base[k].fields, last[k].fields)
  {
    TwoDocuments(base, middle, last);
    TwoDocuments(map[], middle, last);
    MergeWithNothing(middle);
    AssociativeIffCompatible(base, middle, last);
  }

  lemma NullHidesTheBase()
    ensures var base, middle, last: Dict := map["m" := Obj(map["x" := Null])], map["m" := Null], map["m" := Obj(map[])];
            MergeOnto(base, [middle, last]) != Merge(base, MergeOnto(map[], [middle, last]))
  {
    var base, middle, last: Dict := map["m" := Obj(map["x" := Null])], map["m" := Null], map["m" := Obj(map[])];
    BlockingDocumentBreaksTheLaw(base, middle, last, "m");
    assert "x" in base["m"].fields && "x" !in last["m"].fields;
  }

  lemma TwoDocuments(base: Dict, first: Dict, second: Dict)
    ensures MergeOnto(base, [first, second]) == Merge(Merge(base, first), second)
  {
    var docs := [first, second];
    assert docs[..1] == [first] && [first][..0] == [];
    assert MergeOnto(base, [first]) == Merge(MergeOnto(base, []), first);
  }

  function Documents(payloads: seq<Value>): seq<Dict> {
    if payloads == [] then []
    else
      var front, last := Documents(payloads[..|payloads| - 1]), payloads[|payloads| - 1];
      if last.Obj? then front + [last.fields] else front
  }

  /** The documents of a list of payloads are its objects, in order. */
  lemma {:induction false} DocumentsInOrder(a: seq<Value>, b: seq<Value>)
    ensures Documents(a + b) == Documents(a) + Documents(b)
    ensures |b| == 1 ==> Documents(b) == if b[0].Obj? then [b[0].fields] else []
  {
    if b == [] {
      assert a + b == a;
    } else {
      var n := |b| - 1;
      assert (a + b)[..|a| + n] == a + b[..n];
      DocumentsInOrder(a, b[..n]);
    }
  }

  /** The loop over the JSON attachments: only objects are merged. */
  method MergeAttachments(base: Dict, payloads: seq<Value>) returns (pack: Dict)
    ensures pack == Merge(base, MergeOnto(map[], Documents(payloads)))
    ensures NoBlocking(base, Documents(payloads)) ==> pack == MergeOnto(base, Documents(payloads))
  {
    var merged: Dict := map[];
    for i := 0 to |payloads|
      invariant merged == MergeOnto(map[], Documents(payloads[..i]))
    {
      assert payloads[..i + 1][..i] == payloads[..i];
      if payloads[i].Obj? {
        var docs := Documents(payloads[..i]);
        assert (docs + [payloads[i].fields])[..|docs|] == docs;
        merged := MergeDict(merged, payloads[i].fields);
      }
    }
    assert payloads[..|payloads|] == payloads;
    pack := MergeDict(base, merged);
    if NoBlocking(base, Documents(payloads)) { FoldLaw(base, Documents(payloads)); }
  }
}

/** When merging attachments one by one is merging their fold
    (examples/pe_risk_platform/deal_pack_builder.py, `build_pack_from_attachments`). */
module AttachmentOrder {
  import opened Wrappers
  import opened Json
  import opened DeepMerge

  /** What one key's value becomes under another. */
  function Combine(x: Value, y: Value): Value {
    if x.Obj? && y.Obj? then Obj(Merge(x.fields, y.fields)) else y
  }

  function Fold(x: Value, vs: seq<Value>): Value {
    if vs == [] then x else Combine(Fold(x, vs[..|vs| - 1]), vs[|vs| - 1])
  }

  /** The values the documents give a key, in their order. */
  function Values(docs: seq<Dict>, k: string): seq<Value> {
    if docs == [] then []
    else
      var front, last := Values(docs[..|docs| - 1], k), docs[|docs| - 1];
      if k in last then front + [last[k]] else front
  }

  /** The objects behind the last value that is none. */
  function TailObjects(vs: seq<Value>): (ds: seq<Dict>)
    ensures |ds| <= |vs|
  {
    if vs == [] || !vs[|vs| - 1].Obj? then []
    else TailObjects(vs[..|vs| - 1]) + [vs[|vs| - 1].fields]
  }

  function Objects(ds: seq<Dict>): (vs: seq<Value>)
    ensures |vs| == |ds|
  {
    seq(|ds|, i requires 0 <= i < |ds| => Obj(ds[i]))
  }

  /** For each object of the base: the documents give it no value or end with one that is no
      object; or they give it objects only, compatible with it in turn; or the objects behind
      the last other value decide everything that the base says. */
  predicate FoldCompatible(base: Dict, docs: seq<Dict>)
    decreases Obj(base)
  {
    forall k | k in base && base[k].Obj? ::
      var vs := Values(docs, k);
      var ds := TailObjects(vs);
      || ds == []
      || (if |ds| == |vs| then FoldCompatible(base[k].fields, ds)
          else Absorbed(base[k].fields, MergeOnto(map[], ds)))
  }

  // ----- One key -----

  lemma {:induction false} FoldFirst(x: Value, vs: seq<Value>)
    requires vs != []
    ensures Fold(x, vs) == Fold(Combine(x, vs[0]), vs[1..])
  {
    if |vs| > 1 {
      var front := vs[..|vs| - 1];
      FoldFirst(x, front);
      assert vs[1..][..|vs| - 2] == front[1..];
    } else {
      assert vs[..0] == [] && vs[1..] == [];
    }
  }

  lemma {:induction false} FoldConcat(x: Value, a: seq<Value>, b: seq<Value>)
    ensures Fold(x, a + b) == Fold(Fold(x, a), b)
    decreases |b|
  {
    if b == [] {
      assert a + b == a;
    } else {
      assert (a + b)[..|a + b| - 1] == a + b[..|b| - 1];
      FoldConcat(x, a, b[..|b| - 1]);
    }
  }

  lemma {:induction false} FoldObjects(m: Dict, ds: seq<Dict>)
    ensures Fold(Obj(m), Objects(ds)) == Obj(MergeOnto(m, ds))
  {
    if ds != [] {
      var front := ds[..|ds| - 1];
      FoldObjects(m, front);
      assert Objects(ds)[..|ds| - 1] == Objects(front);
    }
  }

  /** Objects behind a value that is none start afresh. */
  lemma FoldAfresh(x: Value, ds: seq<Dict>)
    requires !x.Obj? && ds != []
    ensures Fold(x, Objects(ds)) == Obj(MergeOnto(map[], ds))
  {
    FoldFirst(x, Objects(ds));
    FoldFirst(Obj(map[]), Objects(ds));
    MergeWithNothing(ds[0]);
    FoldObjects(map[], ds);
  }

  lemma ObjectsAppend(ds: seq<Dict>, d: Dict)
    ensures Objects(ds + [d]) == Objects(ds) + [Obj(d)]
  {
  }

  lemma {:induction false} TailSplits(vs: seq<Value>)
    ensures var ds := TailObjects(vs);
            && vs == vs[..|vs| - |ds|] + Objects(ds)
            && (|ds| < |vs| ==> !vs[|vs| - |ds| - 1].Obj?)
  {
    if vs != [] && vs[|vs| - 1].Obj? {
      var front, last := vs[..|vs| - 1], vs[|vs| - 1];
      var ds := TailObjects(front);
      TailSplits(front);
      ObjectsAppend(ds, last.fields);
      var head := front[..|front| - |ds|];
      assert head == vs[..|vs| - |ds| - 1];
      assert vs == front + [last] && (head + Objects(ds)) + [last] == head + (Objects(ds) + [last]);
    }
  }

  /** A value that is no object makes the fold forget what came before. */
  lemma FoldForgets(x: Value, vs: seq<Value>)
    requires |TailObjects(vs)| < |vs|
    ensures var ds := TailObjects(vs);
            Fold(x, vs) == if ds == [] then vs[|vs| - 1] else Obj(MergeOnto(map[], ds))
  {
    var ds := TailObjects(vs);
    var head := vs[..|vs| - |ds|];
    TailSplits(vs);
    FoldConcat(x, head, Objects(ds));
    assert Fold(x, head) == vs[|vs| - |ds| - 1];
    if ds != [] { FoldAfresh(Fold(x, head), ds); }
  }

  lemma FoldAppend(x: Value, vs: seq<Value>, v: Value)
    ensures Fold(x, vs + [v]) == Combine(Fold(x, vs), v)
    ensures var longer := vs + [v];
            Fold(longer[0], longer[1..]) == if vs == [] then v else Combine(Fold(vs[0], vs[1..]), v)
  {
    var longer := vs + [v];
    assert longer[..|vs|] == vs;
    if vs != [] {
      assert longer[1..] == vs[1..] + [v];
      assert longer[1..][..|vs| - 1] == vs[1..];
    }
  }

  /** The value of one key in the merged documents, by its values in them. */
  function ValueAt(base: Dict, k: string, vs: seq<Value>): Option<Value> {
    if k in base then Some(Fold(base[k], vs)) else if vs == [] then None else Some(Fold(vs[0], vs[1..]))
  }

  function Lookup(d: Dict, k: string): Option<Value> {
    if k in d then Some(d[k]) else None
  }

  lemma ValueAtAppend(base: Dict, k: string, vs: seq<Value>, v: Value)
    ensures var was := ValueAt(base, k, vs);
            ValueAt(base, k, vs + [v]) == Some(if was.Some? then Combine(was.value, v) else v)
  {
    FoldAppend(if k in base then base[k] else Null, vs, v);
  }

  /** The merged documents, key by key. */
  lemma {:induction false} MergeOntoAt(base: Dict, docs: seq<Dict>, k: string)
    ensures Lookup(MergeOnto(base, docs), k) == ValueAt(base, k, Values(docs, k))
  {
    if docs != [] {
      var front, last := docs[..|docs| - 1], docs[|docs| - 1];
      MergeOntoAt(base, front, k);
      if k in last { ValueAtAppend(base, k, Values(front, k), last[k]); }
    }
  }

  // ----- All keys -----

  predicate CompatibleValues(b: Value, vs: seq<Value>) {
    b.Obj? ==>
      var ds := TailObjects(vs);
      || ds == []
      || (if |ds| == |vs| then MergeOnto(b.fields, ds) == Merge(b.fields, MergeOnto(map[], ds))
          else Merge(b.fields, MergeOnto(map[], ds)) == MergeOnto(map[], ds))
  }

  /** The two orders agree on the values of a key of the base. */
  lemma ValuesAgreeIff(b: Value, vs: seq<Value>)
    requires vs != []
    ensures Fold(b, vs) == Combine(b, Fold(vs[0], vs[1..])) <==> CompatibleValues(b, vs)
  {
    var ds := TailObjects(vs);
    TailSplits(vs);
    if |ds| < |vs| {
      FoldForgets(b, vs);
      FoldForgets(Null, vs);
      FoldFirst(Null, vs);
    } else if b.Obj? {
      assert vs == Objects(ds);
      FoldObjects(b.fields, ds);
      FoldFirst(Null, vs);
      FoldAfresh(Null, ds);
    } else {
      FoldFirst(b, vs);
    }
  }

  predicate AgreeAt(base: Dict, docs: seq<Dict>, k: string) {
    Lookup(MergeOnto(base, docs), k) == Lookup(Merge(base, MergeOnto(map[], docs)), k)
  }

  lemma AgreeAtIff(base: Dict, docs: seq<Dict>, k: string)
    ensures AgreeAt(base, docs, k) <==> (k in base ==> CompatibleValues(base[k], Values(docs, k)))
  {
    var vs := Values(docs, k);
    MergeOntoAt(base, docs, k);
    MergeOntoAt(map[], docs, k);
    if k in base && vs != [] { ValuesAgreeIff(base[k], vs); }
  }

  lemma AgreeByKey(base: Dict, docs: seq<Dict>)
    ensures MergeOnto(base, docs) == Merge(base, MergeOnto(map[], docs)) <==> forall k :: AgreeAt(base, docs, k)
  {
    var one, fold := MergeOnto(base, docs), Merge(base, MergeOnto(map[], docs));
    if forall k :: AgreeAt(base, docs, k) {
      assert one.Keys == fold.Keys by {
        forall k ensures k in one <==> k in fold { assert AgreeAt(base, docs, k); }
      }
      forall k | k in one ensures one[k] == fold[k] { assert AgreeAt(base, docs, k); }
    }
  }

  /** Merging any list of attachments one by one onto the base is merging their fold onto it
      if and only if they are compatible with the base. */
  lemma {:induction false} FoldLawIff(base: Dict, docs: seq<Dict>)
    ensures MergeOnto(base, docs) == Merge(base, MergeOnto(map[], docs)) <==> FoldCompatible(base, docs)
    decreases Obj(base)
  {
    AgreeByKey(base, docs);
    forall k
      ensures AgreeAt(base, docs, k) <==> (k in base ==> CompatibleValues(base[k], Values(docs, k)))
    {
      AgreeAtIff(base, docs, k);
    }
    forall k | k in base && base[k].Obj?
      ensures CompatibleValues(base[k], Values(docs, k)) <==>
                var ds := TailObjects(Values(docs, k));
                || ds == []
                || (if |ds| == |Values(docs, k)| then FoldCompatible(base[k].fields, ds)
                    else Absorbed(base[k].fields, MergeOnto(map[], ds)))
    {
      var ds := TailObjects(Values(docs, k));
      FoldLawIff(base[k].fields, ds);
      AbsorbedIff(base[k].fields, MergeOnto(map[], ds));
    }
  }
}

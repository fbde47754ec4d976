/** Setting one rubric weight and renormalizing the others, in exact arithmetic
    (examples/pe_risk_platform/rubric_tools.py, `set_weight_renormalized`). */
module RubricWeights {
  import opened Wrappers

  type Weights = map<string, real>

  datatype WeightError = OutOfRange | UnknownDimension(name: string)

  predicate Distinct(keys: seq<string>) {
    keys == [] || (keys[0] !in keys[1..] && Distinct(keys[1..]))
  }

  /** The keys of a dictionary in its order. */
  ghost predicate IsOrder(keys: seq<string>, w: Weights) {
    Distinct(keys) && forall k :: k in keys <==> k in w
  }

  function Others(keys: seq<string>, dimension: string): seq<string> {
    if keys == [] then []
    else if keys[0] == dimension then Others(keys[1..], dimension)
    else [keys[0]] + Others(keys[1..], dimension)
  }

  function Get(w: Weights, k: string): real {
    if k in w then w[k] else 0.0
  }

  function Sum(keys: seq<string>, w: Weights): real {
    if keys == [] then 0.0 else Get(w, keys[0]) + Sum(keys[1..], w)
  }

  /** One other dimension's part of `rest`: in proportion when the others have a positive
      sum, and an equal part otherwise. */
  function Part(weight: real, sum: real, count: nat, rest: real): real
    requires count > 0
  {
    if sum > 0.0 then weight * (rest / sum) else rest / count as real
  }

  function Shared(others: seq<string>, w: Weights, dimension: string, value: real): Weights {
    var sum := Sum(others, w);
    map k | k in w :: if k == dimension then value
                      else if k in others then Part(w[k], sum, |others|, 1.0 - value)
                      else w[k]
  }

  /** The final cleanup pushes what is missing to one into the tuned dimension. */
  function SetWeight(keys: seq<string>, w: Weights, dimension: string, value: real): Result<Weights, WeightError> {
    if !(0.0 <= value <= 1.0) then Err(OutOfRange)
    else if dimension !in w then Err(UnknownDimension(dimension))
    else
      var shared := Shared(Others(keys, dimension), w, dimension, value);
      var total := Sum(keys, shared);
      Ok(if total != 0.0 then shared[dimension := value + (1.0 - total)] else shared)
  }

  /** A weight is set exactly for a known dimension and a value from zero to one. */
  lemma SetIff(keys: seq<string>, w: Weights, dimension: string, value: real)
    ensures SetWeight(keys, w, dimension, value).Ok? <==> 0.0 <= value <= 1.0 && dimension in w
    ensures SetWeight(keys, w, dimension, value) == Err(OutOfRange) <==> value < 0.0 || value > 1.0
    ensures SetWeight(keys, w, dimension, value).Ok? ==>
              SetWeight(keys, w, dimension, value).value.Keys == w.Keys
  {
  }

  method SumOf(keys: seq<string>, w: Weights) returns (total: real)
    ensures total == Sum(keys, w)
  {
    total := 0.0;
    assert keys[0..] == keys;
    for i := 0 to |keys|
      invariant total + Sum(keys[i..], w) == Sum(keys, w)
    {
      assert keys[i..][1..] == keys[i + 1..];
      total := total + Get(w, keys[i]);
    }
  }

  method ShareAll(others: seq<string>, w: Weights, rest: real) returns (weights: Weights)
    requires forall k :: k in others ==> k in w
    ensures weights.Keys == w.Keys
    ensures forall k :: k in w ==> weights[k] == if k in others then Part(w[k], Sum(others, w), |others|, rest) else w[k]
  {
    weights := w;
    var sum := SumOf(others, w);
    for i := 0 to |others|
      invariant weights.Keys == w.Keys
      invariant forall k :: k in w ==>
                  weights[k] == if k in others[..i] then Part(w[k], sum, |others|, rest) else w[k]
    {
      var part := Part(w[others[i]], sum, |others|, rest);
      assert others[..i + 1] == others[..i] + [others[i]];
      weights := weights[others[i] := part];
    }
    assert others[..|others|] == others;
  }

  method SetWeightRenormalized(keys: seq<string>, rubric: Weights, dimension: string, value: real)
      returns (r: Result<Weights, WeightError>)
    requires IsOrder(keys, rubric)
    ensures r == SetWeight(keys, rubric, dimension, value)
  {
    if !(0.0 <= value <= 1.0) {
      return Err(OutOfRange);
    }
    if dimension !in rubric {
      return Err(UnknownDimension(dimension));
    }
    var others := Others(keys, dimension);
    OthersMembers(keys, dimension);
    var rest := if 1.0 - value > 0.0 then 1.0 - value else 0.0;
    var weights := ShareAll(others, rubric, rest);
    weights := weights[dimension := value];
    assert weights == Shared(others, rubric, dimension, value);
    var total := SumOf(keys, weights);
    if total != 0.0 {
      weights := weights[dimension := weights[dimension] + (1.0 - total)];
    }
    return Ok(weights);
  }

  // ----- Sums -----

  lemma {:induction false} OthersMembers(keys: seq<string>, dimension: string)
    ensures forall k :: k in Others(keys, dimension) <==> k in keys && k != dimension
  {
    if keys != [] { OthersMembers(keys[1..], dimension); }
  }

  lemma {:induction false} NotThere(keys: seq<string>, dimension: string)
    requires dimension !in keys
    ensures Others(keys, dimension) == keys
  {
    if keys != [] { NotThere(keys[1..], dimension); }
  }

  lemma {:induction false} SumSplit(keys: seq<string>, w: Weights, dimension: string)
    requires Distinct(keys) && dimension in keys
    ensures Sum(keys, w) == Get(w, dimension) + Sum(Others(keys, dimension), w)
    ensures |Others(keys, dimension)| == |keys| - 1
  {
    if keys[0] == dimension {
      NotThere(keys[1..], dimension);
    } else {
      SumSplit(keys[1..], w, dimension);
    }
  }

  /** A sum of equally scaled terms. */
  lemma {:induction false} SumScaled(keys: seq<string>, w: Weights, w': Weights, c: real)
    requires forall k :: k in keys ==> Get(w', k) == Get(w, k) * c
    ensures Sum(keys, w') == Sum(keys, w) * c
  {
    if keys != [] { SumScaled(keys[1..], w, w', c); }
  }

  lemma {:induction false} SumEven(keys: seq<string>, w: Weights, c: real)
    requires forall k :: k in keys ==> Get(w, k) == c
    ensures Sum(keys, w) == |keys| as real * c
  {
    if keys != [] { SumEven(keys[1..], w, c); }
  }

  /** The others together get exactly what is left. */
  lemma OthersGetTheRest(others: seq<string>, w: Weights, dimension: string, value: real)
    requires others != [] && dimension !in others && forall k :: k in others ==> k in w
    ensures Sum(others, Shared(others, w, dimension, value)) == 1.0 - value
  {
    var shared := Shared(others, w, dimension, value);
    var s := Sum(others, w);
    if s > 0.0 {
      var c := (1.0 - value) / s;
      forall k | k in others ensures Get(shared, k) == Get(w, k) * c { }
      SumScaled(others, w, shared, c);
    } else {
      var c := (1.0 - value) / |others| as real;
      SumEven(others, shared, c);
    }
  }

  lemma OthersExist(keys: seq<string>, w: Weights, dimension: string)
    requires IsOrder(keys, w) && dimension in w && |keys| >= 2
    ensures var others := Others(keys, dimension);
            others != [] && dimension !in others && forall k :: k in others <==> k in w && k != dimension
  {
    OthersMembers(keys, dimension);
    SumSplit(keys, w, dimension);
  }

  // ----- What setting a weight promises -----

  /** With two or more dimensions the total is exactly one and the chosen value is kept; this
      holds for any weights at all. */
  lemma TotalIsOne(keys: seq<string>, w: Weights, dimension: string, value: real)
    requires IsOrder(keys, w) && dimension in w && 0.0 <= value <= 1.0 && |keys| >= 2
    ensures var r := SetWeight(keys, w, dimension, value);
            && r == Ok(Shared(Others(keys, dimension), w, dimension, value))
            && IsOrder(keys, r.value) && Sum(keys, r.value) == 1.0 && r.value[dimension] == value
  {
    var others := Others(keys, dimension);
    var shared := Shared(others, w, dimension, value);
    OthersExist(keys, w, dimension);
    OthersGetTheRest(others, w, dimension, value);
    SumSplit(keys, shared, dimension);
    assert shared[dimension := value + (1.0 - 1.0)] == shared;
  }

  lemma PartNonNegative(weight: real, sum: real, count: nat, rest: real)
    requires count > 0 && weight >= 0.0 && rest >= 0.0
    ensures Part(weight, sum, count, rest) >= 0.0
  {
    if sum > 0.0 {
      assert rest / sum >= 0.0;
    } else {
      assert rest / count as real >= 0.0;
    }
  }

  /** Non-negative weights stay non-negative. */
  lemma WeightsStayNonNegative(keys: seq<string>, w: Weights, dimension: string, value: real)
    requires IsOrder(keys, w) && dimension in w && 0.0 <= value <= 1.0 && |keys| >= 2
    requires forall k :: k in w ==> w[k] >= 0.0
    ensures SetWeight(keys, w, dimension, value).Ok?
    ensures forall k :: k in w ==> Get(SetWeight(keys, w, dimension, value).value, k) >= 0.0
  {
    var others := Others(keys, dimension);
    TotalIsOne(keys, w, dimension, value);
    OthersExist(keys, w, dimension);
    forall k | k in w ensures Get(Shared(others, w, dimension, value), k) >= 0.0 {
      PartNonNegative(w[k], Sum(others, w), |others|, 1.0 - value);
    }
  }

  predicate SameRatio(x: real, y: real, x': real, y': real) {
    x * y' == y * x'
  }

  lemma SharedRatio(others: seq<string>, w: Weights, dimension: string, value: real, a: string, b: string)
    requires a in others && b in others && a in w && b in w && dimension !in others && Sum(others, w) > 0.0
    ensures SameRatio(Get(Shared(others, w, dimension, value), a), Get(Shared(others, w, dimension, value), b), w[a], w[b])
  {
    PartsExchange(w[a], w[b], Sum(others, w), |others|, 1.0 - value);
  }

  /** The other weights keep their ratios when they have a positive sum. */
  lemma RatiosAreKept(keys: seq<string>, w: Weights, dimension: string, value: real, a: string, b: string)
    requires IsOrder(keys, w) && dimension in w && 0.0 <= value <= 1.0 && |keys| >= 2
    requires a in w && b in w && a != dimension && b != dimension && Sum(Others(keys, dimension), w) > 0.0
    ensures var r := SetWeight(keys, w, dimension, value);
            r.Ok? && SameRatio(Get(r.value, a), Get(r.value, b), w[a], w[b])
  {
    TotalIsOne(keys, w, dimension, value);
    OthersExist(keys, w, dimension);
    SharedRatio(Others(keys, dimension), w, dimension, value, a, b);
  }

  lemma PartsExchange(x: real, y: real, sum: real, count: nat, rest: real)
    requires sum > 0.0 && count > 0
    ensures SameRatio(Part(x, sum, count, rest), Part(y, sum, count, rest), x, y)
  {
  }

  /** A single dimension cannot keep a chosen value between zero and one: the cleanup makes
      it one, except that zero stays zero. */
  lemma SingleDimension(name: string, weight: real, value: real)
    requires 0.0 <= value <= 1.0
    ensures var r := SetWeight([name], map[name := weight], name, value);
            r == Ok(map[name := if value == 0.0 then 0.0 else 1.0]) && (r.value[name] == value <==> value == 0.0 || value == 1.0)
  {
    var w := map[name := weight];
    assert Others([name], name) == [] by { assert [name][1..] == []; }
    var shared := Shared([], w, name, value);
    assert shared == map[name := value];
    assert Sum([name], shared) == value by { assert [name][1..] == []; }
    assert shared[name := value + (1.0 - value)] == map[name := 1.0];
  }

  // ----- Setting the same dimension twice -----

  lemma Rescaled(x: real, first: real, second: real, s: real)
    requires first != 0.0 && s != 0.0
    ensures x * (first / s) * (second / first) == x * (second / s)
  {
    var a, b := first / s, second / first;
    assert s * (a * b) == (s * a) * b;
    assert s * (a * b) == s * (second / s);
    assert x * a * b == x * (a * b);
  }

  lemma PartTwice(x: real, s: real, n: nat, rest: real, rest': real)
    requires n > 0 && rest > 0.0
    ensures Part(Part(x, s, n, rest), rest, n, rest') == Part(x, s, n, rest')
  {
    if s > 0.0 { Rescaled(x, rest, rest', s); } else { Rescaled(1.0, rest, rest', n as real); }
  }

  /** After a first value below one the second is shared as if it came alone. */
  lemma SharedTwice(others: seq<string>, w: Weights, dimension: string, first: real, second: real, k: string)
    requires others != [] && dimension !in others && (forall o :: o in others ==> o in w) && k in others && first < 1.0
    ensures Get(Shared(others, Shared(others, w, dimension, first), dimension, second), k)
         == Get(Shared(others, w, dimension, second), k)
  {
    OthersGetTheRest(others, w, dimension, first);
    PartTwice(w[k], Sum(others, w), |others|, 1.0 - first, 1.0 - second);
  }

  /** Setting a dimension to one forgets the ratios: the next value is shared evenly. */
  lemma SharedAfterOne(others: seq<string>, w: Weights, dimension: string, second: real, k: string)
    requires others != [] && dimension !in others && (forall o :: o in others ==> o in w) && k in others
    ensures Get(Shared(others, Shared(others, w, dimension, 1.0), dimension, second), k) == (1.0 - second) / |others| as real
  {
    OthersGetTheRest(others, w, dimension, 1.0);
  }

  lemma EvenPart(x: real, rest: real, s: real, n: real)
    requires s > 0.0 && n > 0.0
    ensures rest / n == x * (rest / s) <==> rest == 0.0 || x * n == s
  {
    var a, b := rest / n, rest / s;
    assert n * (x * b) == (x * n) * b;
    if a == x * b && rest != 0.0 {
      assert b * (x * n) == b * s;
    }
    if x * n == s {
      assert n * a == n * (x * b);
    }
  }

  /** Every other weight already is an equal part of their sum. */
  predicate Even(others: seq<string>, w: Weights) {
    forall k :: k in others ==> Get(w, k) * |others| as real == Sum(others, w)
  }

  predicate Forgotten(others: seq<string>, w: Weights, first: real, second: real, k: string) {
    first == 1.0 && second != 1.0 && Sum(others, w) > 0.0 && Get(w, k) * |others| as real != Sum(others, w)
  }

  lemma TwiceAt(others: seq<string>, w: Weights, dimension: string, first: real, second: real, k: string)
    requires others != [] && dimension !in others && (forall o :: o in others ==> o in w) && k in others && first <= 1.0
    ensures (Get(Shared(others, Shared(others, w, dimension, first), dimension, second), k)
             == Get(Shared(others, w, dimension, second), k))
            <==> !Forgotten(others, w, first, second, k)
  {
    if first < 1.0 {
      SharedTwice(others, w, dimension, first, second, k);
    } else {
      SharedAfterOne(others, w, dimension, second, k);
      if Sum(others, w) > 0.0 { EvenPart(w[k], 1.0 - second, Sum(others, w), |others| as real); }
    }
  }

  /** Setting one dimension twice is setting the second value alone, exactly when the first
      value left something to share, or the second leaves nothing, or the others were not
      told apart anyway. */
  lemma TwiceIsSecondIff(keys: seq<string>, w: Weights, dimension: string, first: real, second: real)
    requires IsOrder(keys, w) && dimension in w && |keys| >= 2 && 0.0 <= first <= 1.0 && 0.0 <= second <= 1.0
    ensures SetWeight(keys, w, dimension, first).Ok?
    ensures SetWeight(keys, SetWeight(keys, w, dimension, first).value, dimension, second) == SetWeight(keys, w, dimension, second)
            <==> || first < 1.0 || second == 1.0
                 || Sum(Others(keys, dimension), w) <= 0.0 || Even(Others(keys, dimension), w)
  {
    var others := Others(keys, dimension);
    var once := Shared(others, w, dimension, first);
    OthersExist(keys, w, dimension);
    TotalIsOne(keys, w, dimension, first);
    TotalIsOne(keys, once, dimension, second);
    TotalIsOne(keys, w, dimension, second);
    var twice, direct := Shared(others, once, dimension, second), Shared(others, w, dimension, second);
    SameIffAtOthers(others, dimension, twice, direct);
    forall k | k in others
      ensures Get(twice, k) == Get(direct, k) <==> !Forgotten(others, w, first, second, k)
    {
      TwiceAt(others, w, dimension, first, second, k);
    }
  }

  lemma SameIffAtOthers(others: seq<string>, dimension: string, a: Weights, b: Weights)
    requires a.Keys == b.Keys && dimension in a && a[dimension] == b[dimension]
    requires forall k :: k in others <==> k in a && k != dimension
    ensures a == b <==> forall k :: k in others ==> Get(a, k) == Get(b, k)
  {
    if forall k :: k in others ==> Get(a, k) == Get(b, k) {
      forall k | k in a ensures a[k] == b[k] {
        if k != dimension { assert k in others; }
      }
    }
  }
}

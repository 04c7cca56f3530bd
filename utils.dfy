/**
 * The pure helpers of the `Utils` object: folds (`sum`, `groupBy`, and the
 * `filter` the other modules use), the aging-bucket classifier, the character
 * filter of `parseNumber`, the weighted-average cost, `paginate`, and the
 * rounding that `Number(x.toFixed(2))` performs.
 */
module Utils {
  import opened Wrappers

  // ---------------------------------------------------------------------
  // Folds
  // ---------------------------------------------------------------------

  /** `sum(list, selector)`: the selector's values added up, starting from 0. */
  function Sum<T>(xs: seq<T>, f: T -> real): real
    decreases |xs|
  {
    if |xs| == 0 then 0.0 else Sum(xs[..|xs| - 1], f) + f(xs[|xs| - 1])
  }

  /** Summing a concatenation sums the parts. */
  lemma {:induction false} SumAppend<T>(a: seq<T>, b: seq<T>, f: T -> real)
    ensures Sum(a + b, f) == Sum(a, f) + Sum(b, f)
    decreases |b|
  {
    if |b| == 0 {
      assert a + b == a;
    } else {
      assert (a + b)[..|a + b| - 1] == a + b[..|b| - 1];
      SumAppend(a, b[..|b| - 1], f);
    }
  }

  /** A sum grows with its terms. */
  lemma {:induction false} SumMonotone<T>(xs: seq<T>, f: T -> real, g: T -> real)
    requires forall i :: 0 <= i < |xs| ==> f(xs[i]) <= g(xs[i])
    ensures Sum(xs, f) <= Sum(xs, g)
    decreases |xs|
  {
    if |xs| > 0 {
      SumMonotone(xs[..|xs| - 1], f, g);
    }
  }

  /** `list.filter(p)`: the elements satisfying `p`, in their original order. */
  function Filter<T>(xs: seq<T>, p: T -> bool): (r: seq<T>)
    ensures |r| <= |xs|
    ensures forall i :: 0 <= i < |r| ==> r[i] in xs && p(r[i])
    ensures forall i :: 0 <= i < |xs| && p(xs[i]) ==> xs[i] in r
    decreases |xs|
  {
    if |xs| == 0 then []
    else (if p(xs[0]) then [xs[0]] else []) + Filter(xs[1..], p)
  }

  /** Filtering distributes over concatenation, so the kept elements keep their order. */
  lemma {:induction false} FilterAppend<T>(a: seq<T>, b: seq<T>, p: T -> bool)
    ensures Filter(a + b, p) == Filter(a, p) + Filter(b, p)
    decreases |a|
  {
    if |a| > 0 {
      assert (a + b)[1..] == a[1..] + b;
      FilterAppend(a[1..], b, p);
    } else {
      assert a + b == b;
    }
  }

  /** A filter that keeps everything is the identity. */
  lemma {:induction false} FilterAll<T>(xs: seq<T>, p: T -> bool)
    requires forall i :: 0 <= i < |xs| ==> p(xs[i])
    ensures Filter(xs, p) == xs
    decreases |xs|
  {
    if |xs| > 0 {
      FilterAll(xs[1..], p);
    }
  }

  /** Filters that agree on every element of the list give the same result. */
  lemma {:induction false} FilterCongruent<T>(xs: seq<T>, p: T -> bool, q: T -> bool)
    requires forall i :: 0 <= i < |xs| ==> p(xs[i]) == q(xs[i])
    ensures Filter(xs, p) == Filter(xs, q)
    decreases |xs|
  {
    if |xs| > 0 {
      FilterCongruent(xs[1..], p, q);
    }
  }

  /** A filter that keeps nothing is empty. */
  lemma {:induction false} FilterNone<T>(xs: seq<T>, p: T -> bool)
    requires forall i :: 0 <= i < |xs| ==> !p(xs[i])
    ensures Filter(xs, p) == []
    decreases |xs|
  {
    if |xs| > 0 {
      FilterNone(xs[1..], p);
    }
  }

  /** The sum of a one-element list is its term. */
  lemma SumSingleton<T>(x: T, f: T -> real)
    ensures Sum([x], f) == f(x)
  {
    assert [x][..0] == [];
  }

  /** Summing over a filter is summing a selector that is zero outside the filter. */
  lemma {:induction false} SumFilter<T>(xs: seq<T>, p: T -> bool, f: T -> real, g: T -> real)
    requires forall x :: g(x) == if p(x) then f(x) else 0.0
    ensures Sum(Filter(xs, p), f) == Sum(xs, g)
    decreases |xs|
  {
    if |xs| > 0 {
      var init := xs[..|xs| - 1];
      var last := xs[|xs| - 1];
      assert xs == init + [last];
      FilterAppend(init, [last], p);
      SumAppend(Filter(init, p), Filter([last], p), f);
      SumFilter(init, p, f, g);
      assert Filter([last], p) == if p(last) then [last] else [];
      if p(last) {
        SumSingleton(last, f);
      }
    }
  }

  /** Two lists whose terms agree position by position have the same sum. */
  lemma {:induction false} SumPointwise<A, B>(xs: seq<A>, f: A -> real, ys: seq<B>, g: B -> real)
    requires |xs| == |ys|
    requires forall i :: 0 <= i < |xs| ==> f(xs[i]) == g(ys[i])
    ensures Sum(xs, f) == Sum(ys, g)
    decreases |xs|
  {
    if |xs| > 0 {
      SumPointwise(xs[..|xs| - 1], f, ys[..|ys| - 1], g);
    }
  }

  /** A filter and its complement split a sum in two. */
  lemma {:induction false} SumFilterPartition<T>(xs: seq<T>, p: T -> bool, q: T -> bool, f: T -> real)
    requires forall x :: q(x) == !p(x)
    ensures Sum(Filter(xs, p), f) + Sum(Filter(xs, q), f) == Sum(xs, f)
    decreases |xs|
  {
    if |xs| > 0 {
      var last := xs[|xs| - 1];
      var init := xs[..|xs| - 1];
      assert xs == init + [last];
      FilterAppend(init, [last], p);
      FilterAppend(init, [last], q);
      SumAppend(Filter(init, p), Filter([last], p), f);
      SumAppend(Filter(init, q), Filter([last], q), f);
      SumFilterPartition(init, p, q, f);
    }
  }

  // ---------------------------------------------------------------------
  // groupBy
  // ---------------------------------------------------------------------

  /** One step of `groupBy`'s reduce: push `x` onto the group of `k`, opening it at the end if new. */
  function AddToGroup<T, K(==)>(groups: seq<(K, seq<T>)>, k: K, x: T): seq<(K, seq<T>)>
    decreases |groups|
  {
    if |groups| == 0 then [(k, [x])]
    else if groups[0].0 == k then [(k, groups[0].1 + [x])] + groups[1..]
    else [groups[0]] + AddToGroup(groups[1..], k, x)
  }

  /**
   * `groupBy(list, keyFn)`: the groups in the order their keys first occur
   * (the order `Object.entries` lists string keys in).
   */
  function GroupBy<T, K(==)>(xs: seq<T>, key: T -> K): seq<(K, seq<T>)>
    decreases |xs|
  {
    if |xs| == 0 then []
    else AddToGroup(GroupBy(xs[..|xs| - 1], key), key(xs[|xs| - 1]), xs[|xs| - 1])
  }

  /** The keys of a grouping, in order. */
  function Keys<T, K>(groups: seq<(K, seq<T>)>): seq<K>
    decreases |groups|
  {
    if |groups| == 0 then [] else [groups[0].0] + Keys(groups[1..])
  }

  /** The members of the group of `k` (empty if there is none). */
  function FindGroup<T, K(==)>(groups: seq<(K, seq<T>)>, k: K): seq<T>
    decreases |groups|
  {
    if |groups| == 0 then [] else if groups[0].0 == k then groups[0].1 else FindGroup(groups[1..], k)
  }

  /** The elements of `xs` whose key is `k`, in their original order. */
  function WithKey<T, K(==)>(xs: seq<T>, key: T -> K, k: K): seq<T>
    decreases |xs|
  {
    if |xs| == 0 then []
    else WithKey(xs[..|xs| - 1], key, k) + (if key(xs[|xs| - 1]) == k then [xs[|xs| - 1]] else [])
  }

  /** No value occurs twice. */
  ghost predicate Distinct<K>(ks: seq<K>) {
    forall i, j :: 0 <= i < j < |ks| ==> ks[i] != ks[j]
  }

  /** Total size of all groups. */
  function SizeSum<T, K>(groups: seq<(K, seq<T>)>): nat
    decreases |groups|
  {
    if |groups| == 0 then 0 else |groups[0].1| + SizeSum(groups[1..])
  }

  /** Sum of a selector over all members of all groups. */
  function GroupedSum<T, K>(groups: seq<(K, seq<T>)>, f: T -> real): real
    decreases |groups|
  {
    if |groups| == 0 then 0.0 else Sum(groups[0].1, f) + GroupedSum(groups[1..], f)
  }

  lemma {:induction false} KeysIndex<T, K>(groups: seq<(K, seq<T>)>)
    ensures |Keys(groups)| == |groups|
    ensures forall i :: 0 <= i < |groups| ==> Keys(groups)[i] == groups[i].0
    decreases |groups|
  {
    if |groups| > 0 {
      KeysIndex(groups[1..]);
    }
  }

  /** A new key is appended at the end; a known key leaves the key order alone. */
  lemma {:induction false} AddToGroupKeys<T, K>(groups: seq<(K, seq<T>)>, k: K, x: T)
    ensures Keys(AddToGroup(groups, k, x)) == if k in Keys(groups) then Keys(groups) else Keys(groups) + [k]
    decreases |groups|
  {
    if |groups| > 0 {
      var r := AddToGroup(groups, k, x);
      if groups[0].0 == k {
        assert r[1..] == groups[1..];
      } else {
        assert r[1..] == AddToGroup(groups[1..], k, x);
        AddToGroupKeys(groups[1..], k, x);
      }
    }
  }

  /** Adding `x` under `k` extends the group of `k` by `x` and no other group. */
  lemma {:induction false} AddToGroupFind<T, K>(groups: seq<(K, seq<T>)>, k: K, x: T, k': K)
    ensures FindGroup(AddToGroup(groups, k, x), k') ==
              if k' == k then FindGroup(groups, k) + [x] else FindGroup(groups, k')
    decreases |groups|
  {
    if |groups| > 0 {
      var r := AddToGroup(groups, k, x);
      if groups[0].0 == k {
        assert r[1..] == groups[1..];
      } else {
        assert r[1..] == AddToGroup(groups[1..], k, x);
        AddToGroupFind(groups[1..], k, x, k');
      }
    }
  }

  /** Adding one element adds one to the total size and its value to every grouped sum. */
  lemma {:induction false} AddToGroupSums<T, K>(groups: seq<(K, seq<T>)>, k: K, x: T, f: T -> real)
    ensures SizeSum(AddToGroup(groups, k, x)) == SizeSum(groups) + 1
    ensures GroupedSum(AddToGroup(groups, k, x), f) == GroupedSum(groups, f) + f(x)
    decreases |groups|
  {
    if |groups| == 0 {
      var r := AddToGroup(groups, k, x);
      assert r == [(k, [x])];
      assert r[1..] == [];
      assert [x][..0] == [];
      assert Sum([x], f) == f(x);
      assert GroupedSum(r, f) == Sum([x], f) + GroupedSum(r[1..], f);
    } else {
      var r := AddToGroup(groups, k, x);
      if groups[0].0 == k {
        assert r[1..] == groups[1..];
        SumAppend(groups[0].1, [x], f);
        assert [x][..0] == [];
      } else {
        assert r[1..] == AddToGroup(groups[1..], k, x);
        AddToGroupSums(groups[1..], k, x, f);
      }
    }
  }

  /** Under distinct keys, the group found for a key is the one at its position. */
  lemma {:induction false} FindGroupAt<T, K>(groups: seq<(K, seq<T>)>, i: nat)
    requires Distinct(Keys(groups)) && i < |groups|
    ensures FindGroup(groups, groups[i].0) == groups[i].1
    decreases i
  {
    KeysIndex(groups);
    if i > 0 {
      assert groups[0].0 != groups[i].0 by {
        assert Keys(groups)[0] != Keys(groups)[i];
      }
      KeysIndex(groups[1..]);
      assert Keys(groups[1..]) == Keys(groups)[1..];
      assert groups[1..][i - 1] == groups[i];
      FindGroupAt(groups[1..], i - 1);
    }
  }

  /**
   * `groupBy` places every element in exactly the group of its key, in
   * original order: the keys are distinct, a key has a group exactly when
   * some element carries it, the group of every key holds precisely the
   * elements with that key, the group sizes add up to the length of the
   * list, and any selector summed group by group gives its sum over the list.
   */
  lemma {:induction false} GroupByCorrect<T, K>(xs: seq<T>, key: T -> K, f: T -> real)
    ensures var g := GroupBy(xs, key);
      && Distinct(Keys(g))
      && (forall k :: k in Keys(g) <==> exists j :: 0 <= j < |xs| && key(xs[j]) == k)
      && (forall k :: FindGroup(g, k) == WithKey(xs, key, k))
      && SizeSum(g) == |xs|
      && GroupedSum(g, f) == Sum(xs, f)
    decreases |xs|
  {
    if |xs| > 0 {
      var init := xs[..|xs| - 1];
      var x := xs[|xs| - 1];
      var g0 := GroupBy(init, key);
      GroupByCorrect(init, key, f);
      AddToGroupKeys(g0, key(x), x);
      AddToGroupSums(g0, key(x), x, f);
      forall k ensures FindGroup(GroupBy(xs, key), k) == WithKey(xs, key, k) {
        AddToGroupFind(g0, key(x), x, k);
      }
      forall k ensures k in Keys(GroupBy(xs, key)) <==> exists j :: 0 <= j < |xs| && key(xs[j]) == k {
        if exists j :: 0 <= j < |init| && key(init[j]) == k {
          var j :| 0 <= j < |init| && key(init[j]) == k;
          assert xs[j] == init[j];
        }
        if exists j :: 0 <= j < |xs| && key(xs[j]) == k {
          var j :| 0 <= j < |xs| && key(xs[j]) == k;
          if j < |init| {
            assert init[j] == xs[j];
          }
        }
      }
    }
  }

  /** Each group of `groupBy`, read at its position, holds exactly the elements with its key, and is never empty. */
  lemma GroupByGroups<T, K>(xs: seq<T>, key: T -> K, i: nat)
    requires i < |GroupBy(xs, key)|
    ensures GroupBy(xs, key)[i].1 == WithKey(xs, key, GroupBy(xs, key)[i].0)
    ensures |GroupBy(xs, key)[i].1| > 0
  {
    var g := GroupBy(xs, key);
    GroupByCorrect(xs, key, x => 0.0);
    FindGroupAt(g, i);
    KeysIndex(g);
    assert g[i].0 in Keys(g);
    var j :| 0 <= j < |xs| && key(xs[j]) == g[i].0;
    WithKeyHas(xs, key, j);
  }

  lemma {:induction false} WithKeyHas<T, K>(xs: seq<T>, key: T -> K, j: nat)
    requires j < |xs|
    ensures |WithKey(xs, key, key(xs[j]))| > 0
    decreases |xs|
  {
    if j < |xs| - 1 {
      assert xs[..|xs| - 1][j] == xs[j];
      WithKeyHas(xs[..|xs| - 1], key, j);
    }
  }
  // ---------------------------------------------------------------------
  // Aging buckets
  // ---------------------------------------------------------------------

  /** The five aging buckets, in order of increasing age. */
  datatype Bucket = Current | Days1To30 | Days31To60 | Days61To90 | Over90Days {

    /** The bucket's key and label in the report objects. */
    function Label(): string {
      match this
      case Current => "Current"
      case Days1To30 => "1-30 Days"
      case Days31To60 => "31-60 Days"
      case Days61To90 => "61-90 Days"
      case Over90Days => "90+ Days"
    }

    /** Position of the bucket from youngest (0) to oldest (4). */
    function Rank(): nat {
      match this
      case Current => 0
      case Days1To30 => 1
      case Days31To60 => 2
      case Days61To90 => 3
      case Over90Days => 4
    }
  }

  /** The bucket for a debt that is `days` days past its due date. */
  function BucketForDays(days: int): (b: Bucket)
    ensures b == Current <==> days <= 0
    ensures b == Days1To30 <==> 1 <= days <= 30
    ensures b == Days31To60 <==> 31 <= days <= 60
    ensures b == Days61To90 <==> 61 <= days <= 90
    ensures b == Over90Days <==> days > 90
  {
    if days <= 0 then Current
    else if days <= 30 then Days1To30
    else if days <= 60 then Days31To60
    else if days <= 90 then Days61To90
    else Over90Days
  }

  /**
   * `agingBucket(dueDate)`. The clock and the date arithmetic of
   * `diffInDays` are the parameter `daysSince`, which gives the number of
   * whole days elapsed since a date.
   */
  function AgingBucket(dueDate: Option<string>, daysSince: string -> int): (b: Bucket)
    ensures dueDate.None? || dueDate.value == "" ==> b == Current
    ensures dueDate.Some? && dueDate.value != "" ==> b == BucketForDays(daysSince(dueDate.value))
  {
    if dueDate.None? || dueDate.value == "" then Current else BucketForDays(daysSince(dueDate.value))
  }

  /** Every day count lands in exactly one bucket, the labels tell buckets apart, and older debts never land in a younger bucket. */
  lemma BucketsAreOrderedAndDistinct(d1: int, d2: int, b1: Bucket, b2: Bucket)
    ensures b1.Label() == b2.Label() ==> b1 == b2
    ensures d1 <= d2 ==> BucketForDays(d1).Rank() <= BucketForDays(d2).Rank()
  {
  }

  // ---------------------------------------------------------------------
  // parseNumber
  // ---------------------------------------------------------------------

  /** What a form field yields: nothing, a number, or text. */
  datatype FormValue = Missing | Number(x: real) | Text(s: string)

  /** The characters the regular expression `[^0-9.-]` does not strip. */
  predicate NumericChar(c: char) {
    ('0' <= c <= '9') || c == '.' || c == '-'
  }

  /** `String(value).replace(/[^0-9.-]/g, '')`. */
  function KeepNumericChars(s: string): (r: string)
    ensures |r| <= |s|
    ensures forall i :: 0 <= i < |r| ==> NumericChar(r[i])
    ensures forall c :: c in s && NumericChar(c) ==> c in r
    decreases |s|
  {
    if |s| == 0 then []
    else (if NumericChar(s[0]) then [s[0]] else []) + KeepNumericChars(s[1..])
  }

  /** The filter works character by character, so the kept characters stay in their original order. */
  lemma {:induction false} KeepNumericCharsAppend(a: string, b: string)
    ensures KeepNumericChars(a + b) == KeepNumericChars(a) + KeepNumericChars(b)
    decreases |a|
  {
    if |a| > 0 {
      assert (a + b)[1..] == a[1..] + b;
      KeepNumericCharsAppend(a[1..], b);
    } else {
      assert a + b == b;
    }
  }

  /** Filtering twice is filtering once. */
  lemma {:induction false} KeepNumericCharsIdempotent(s: string)
    ensures KeepNumericChars(KeepNumericChars(s)) == KeepNumericChars(s)
    decreases |s|
  {
    if |s| > 0 {
      var head := if NumericChar(s[0]) then [s[0]] else [];
      KeepNumericCharsAppend(head, KeepNumericChars(s[1..]));
      KeepNumericCharsIdempotent(s[1..]);
      if NumericChar(s[0]) {
        assert KeepNumericChars(head) == head by {
          assert head[1..] == [];
        }
      }
    }
  }

  /**
   * `parseNumber(value)`. `parseFloat` (floating-point parsing) is the
   * parameter, returning `None` where JavaScript returns NaN.
   */
  function ParseNumber(value: FormValue, parseFloat: string -> Option<real>): (r: real)
    ensures value.Number? ==> r == value.x
    ensures value == Missing || value == Text("") ==> r == 0.0
    ensures value.Text? && value.s != "" && parseFloat(KeepNumericChars(value.s)).None? ==> r == 0.0
    ensures value.Text? && value.s != "" && parseFloat(KeepNumericChars(value.s)).Some? ==>
              r == parseFloat(KeepNumericChars(value.s)).value
  {
    match value
    case Number(x) => x
    case Missing => 0.0
    case Text(s) =>
      if s == "" then 0.0
      else match parseFloat(KeepNumericChars(s))
        case None => 0.0
        case Some(x) => x
  }

  /** Formatting characters (currency signs, thousands separators) never change the parsed value. */
  lemma ParseNumberIgnoresFormatting(s: string, parseFloat: string -> Option<real>)
    requires parseFloat("").None?
    ensures ParseNumber(Text(s), parseFloat) == ParseNumber(Text(KeepNumericChars(s)), parseFloat)
  {
    KeepNumericCharsIdempotent(s);
  }

  // ---------------------------------------------------------------------
  // weightedAverageCost
  // ---------------------------------------------------------------------

  /** One `{ quantity, cost }` pair handed to `weightedAverageCost`. */
  datatype CostLine = CostLine(quantity: real, cost: real)

  function LineQuantity(l: CostLine): real { l.quantity }
  function LineValue(l: CostLine): real { l.quantity * l.cost }

  function TotalQuantity(ls: seq<CostLine>): real { Sum(ls, LineQuantity) }
  function TotalCost(ls: seq<CostLine>): real { Sum(ls, LineValue) }

  /** Σ(quantity·cost) / Σquantity, or 0 for an empty list or a zero total quantity. */
  function WeightedAverage(ls: seq<CostLine>): (avg: real)
    ensures |ls| == 0 || TotalQuantity(ls) == 0.0 ==> avg == 0.0
    ensures TotalQuantity(ls) != 0.0 ==> avg * TotalQuantity(ls) == TotalCost(ls)
  {
    if |ls| == 0 then 0.0
    else if TotalQuantity(ls) == 0.0 then 0.0
    else TotalCost(ls) / TotalQuantity(ls)
  }

  /** `weightedAverageCost(movements)`: the `forEach` accumulating `totalQty` and `totalCost`. */
  method WeightedAverageCost(ls: seq<CostLine>) returns (avg: real)
    ensures avg == WeightedAverage(ls)
  {
    if |ls| == 0 {
      return 0.0;
    }
    var totalQty, totalCost := 0.0, 0.0;
    for i := 0 to |ls|
      invariant totalQty == TotalQuantity(ls[..i])
      invariant totalCost == TotalCost(ls[..i])
    {
      assert ls[..i + 1][..i] == ls[..i];
      totalQty := totalQty + ls[i].quantity;
      totalCost := totalCost + ls[i].quantity * ls[i].cost;
    }
    assert ls[..|ls|] == ls;
    avg := if totalQty == 0.0 then 0.0 else totalCost / totalQty;
  }

  /** The worked example: 10 units at 5 and 10 units at 7 average to 6. */
  lemma WeightedAverageExample()
    ensures WeightedAverage([CostLine(10.0, 5.0), CostLine(10.0, 7.0)]) == 6.0
  {
    var ls := [CostLine(10.0, 5.0), CostLine(10.0, 7.0)];
    assert ls[..1] == [CostLine(10.0, 5.0)];
    assert ls[..1][..0] == [];
    assert Sum(ls[..1], LineQuantity) == 10.0;
    assert Sum(ls[..1], LineValue) == 50.0;
    assert TotalQuantity(ls) == 20.0;
    assert TotalCost(ls) == 120.0;
  }

  lemma {:induction false} CostBounds(ls: seq<CostLine>, lo: real, hi: real)
    requires forall i :: 0 <= i < |ls| ==> ls[i].quantity > 0.0 && lo <= ls[i].cost <= hi
    ensures lo * TotalQuantity(ls) <= TotalCost(ls) <= hi * TotalQuantity(ls)
    ensures |ls| > 0 ==> TotalQuantity(ls) > 0.0
    decreases |ls|
  {
    if |ls| > 0 {
      var init := ls[..|ls| - 1];
      var l := ls[|ls| - 1];
      CostBounds(init, lo, hi);
      assert lo * l.quantity <= l.quantity * l.cost <= hi * l.quantity by {
        MultiplyBounds(l.quantity, lo, l.cost, hi);
      }
      assert |init| == 0 ==> TotalQuantity(init) == 0.0;
      assert TotalQuantity(ls) == TotalQuantity(init) + l.quantity;
      assert TotalCost(ls) == TotalCost(init) + l.quantity * l.cost;
      assert lo * TotalQuantity(ls) == lo * TotalQuantity(init) + lo * l.quantity;
      assert hi * TotalQuantity(ls) == hi * TotalQuantity(init) + hi * l.quantity;
      assert lo * TotalQuantity(init) <= TotalCost(init);
      assert lo * TotalQuantity(init) + lo * l.quantity <= TotalCost(init) + l.quantity * l.cost;
      assert TotalCost(init) + l.quantity * l.cost <= hi * TotalQuantity(init) + hi * l.quantity;
    }
  }

  lemma MultiplyBounds(q: real, lo: real, c: real, hi: real)
    requires q > 0.0 && lo <= c <= hi
    ensures lo * q <= q * c <= hi * q
  {
  }

  /** With all quantities positive, the average lies between the smallest and the largest cost. */
  lemma WeightedAverageBetween(ls: seq<CostLine>, lo: real, hi: real)
    requires |ls| > 0
    requires forall i :: 0 <= i < |ls| ==> ls[i].quantity > 0.0 && lo <= ls[i].cost <= hi
    ensures lo <= WeightedAverage(ls) <= hi
  {
    CostBounds(ls, lo, hi);
    var q := TotalQuantity(ls);
    var avg := WeightedAverage(ls);
    assert avg * q == TotalCost(ls);
  }

  // ---------------------------------------------------------------------
  // Rounding and paginate
  // ---------------------------------------------------------------------

  /** `Number(x.toFixed(2))`, read as rounding half up to the nearest cent. */
  function RoundToCents(x: real): (r: real)
    ensures x - 0.005 < r <= x + 0.005
    ensures r * 100.0 == (r * 100.0).Floor as real
    ensures x * 100.0 == (x * 100.0).Floor as real ==> r == x
  {
    var n := (x * 100.0 + 0.5).Floor;
    CentsOfFloor(x, n);
    n as real / 100.0
  }

  /** The facts about the floor that `RoundToCents` rests on. */
  lemma CentsOfFloor(x: real, n: int)
    requires n == (x * 100.0 + 0.5).Floor
    ensures (n as real / 100.0) * 100.0 == n as real
    ensures x - 0.005 < n as real / 100.0 <= x + 0.005
    ensures x * 100.0 == (x * 100.0).Floor as real ==> n as real / 100.0 == x
  {
    var y := x * 100.0;
    assert n as real <= y + 0.5 < n as real + 1.0;
    if y == y.Floor as real {
      assert n == y.Floor;
    }
  }

  /** The object `paginate` returns. */
  datatype Page<T> = Page(items: seq<T>, page: int, pages: int, total: int)

  function Max(a: int, b: int): int { if a < b then b else a }
  function Min(a: int, b: int): int { if a < b then a else b }

  /** The page count: the least number of pages, at least one, covering `total` items. */
  function PageCount(total: nat, pageSize: int): (pages: int)
    requires pageSize > 0
    ensures pages >= 1 && pages * pageSize >= total
    ensures pages == 1 || (pages - 1) * pageSize < total
  {
    var q := (total + pageSize - 1) / pageSize;
    CeilDivision(total, pageSize);
    if q < 1 then 1 else q
  }

  lemma CeilDivision(total: nat, pageSize: int)
    requires pageSize > 0
    ensures var q := (total + pageSize - 1) / pageSize;
      q >= 0 && q * pageSize >= total && (q <= 1 || (q - 1) * pageSize < total)
  {
    var n := total + pageSize - 1;
    var q := n / pageSize;
    var r := n % pageSize;
    assert n == q * pageSize + r && 0 <= r < pageSize;
    assert (q - 1) * pageSize == q * pageSize - pageSize;
  }

  /** The first index of page `current` lies within the list. */
  lemma PageStartBound(total: nat, pageSize: int, current: int)
    requires pageSize > 0
    requires 1 <= current <= PageCount(total, pageSize)
    ensures 0 <= (current - 1) * pageSize <= total
  {
    var pages := PageCount(total, pageSize);
    if pages > 1 {
      assert (current - 1) * pageSize <= (pages - 1) * pageSize by {
        MulMonotone(current - 1, pages - 1, pageSize);
      }
    } else {
      assert current - 1 == 0;
    }
  }

  lemma MulMonotone(a: int, b: int, c: int)
    requires 0 <= a <= b && c > 0
    ensures 0 <= a * c <= b * c
  {
  }

  /** `paginate(items, page, pageSize)`; every caller passes a positive page size. */
  function Paginate<T>(items: seq<T>, page: int, pageSize: int): (p: Page<T>)
    requires pageSize > 0
    ensures p.total == |items|
    ensures p.pages == PageCount(|items|, pageSize)
    ensures 1 <= p.page <= p.pages
    ensures p.page == (if page < 1 then 1 else if page > p.pages then p.pages else page)
    ensures 0 <= (p.page - 1) * pageSize <= |items|
    ensures p.items == items[(p.page - 1) * pageSize .. Min((p.page - 1) * pageSize + pageSize, |items|)]
    ensures |p.items| <= pageSize
  {
    var total := |items|;
    var pages := PageCount(total, pageSize);
    var current := Min(Max(page, 1), pages);
    var start := (current - 1) * pageSize;
    PageStartBound(total, pageSize, current);
    Page(items[start .. Min(start + pageSize, total)], current, pages, total)
  }
}

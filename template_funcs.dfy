/**
 * The helper functions that the server registers with its HTML templates
 * (`templateFuncMap` in main.go): `formatQty`, `inc` and `dict`.
 * `formatFloat` works on float64 values and is not part of this model.
 */
module TemplateFuncs {
  import opened Wrappers
  import opened GoTypes

  // ---------------------------------------------------------------------
  // formatQty
  // ---------------------------------------------------------------------

  /**
   * Joins an ingredient's quantity and unit for display, leaving out the
   * empty parts. The result is pinned down completely by the clauses below:
   * the quantity is a prefix, the unit a suffix, and a single space sits
   * between them exactly when both are non-empty.
   */
  function FormatQty(qty: string, unit: string): (r: string)
    ensures r == "" <==> qty == "" && unit == ""
    ensures |r| == |qty| + |unit| + (if qty != "" && unit != "" then 1 else 0)
    ensures r[..|qty|] == qty
    ensures r[|r| - |unit|..] == unit
    ensures qty != "" && unit != "" ==> r[|qty|] == ' '
  {
    if qty == "" && unit == "" then ""
    else if unit == "" then qty
    else if qty == "" then unit
    else qty + " " + unit
  }

  /** Reference definition: the non-empty parts, in order, separated by single spaces. */
  function JoinNonEmpty(parts: seq<string>): string
  {
    if parts == [] then ""
    else
      var rest := JoinNonEmpty(parts[1..]);
      if parts[0] == "" then rest
      else if rest == "" then parts[0]
      else parts[0] + " " + rest
  }

  /** formatQty is the space-join of its non-empty arguments. */
  lemma FormatQtyIsJoinNonEmpty(qty: string, unit: string)
    ensures FormatQty(qty, unit) == JoinNonEmpty([qty, unit])
  {
    assert [qty, unit][1..] == [unit];
    assert [unit][1..] == [];
    assert JoinNonEmpty([unit]) == unit;
  }

  // ---------------------------------------------------------------------
  // inc
  // ---------------------------------------------------------------------

  /** `inc` adds one, wrapping from the largest Go int to the smallest as two's complement does. */
  function Inc(i: Int64): (r: Int64)
    ensures i < MaxInt64 ==> r == i + 1
    ensures i == MaxInt64 ==> r == MinInt64
  {
    if i == MaxInt64 then MinInt64 else i + 1
  }

  /** The step labels a template prints for a list of `n` directions (indices 0 .. n-1). */
  function StepLabels(n: nat): (labels: seq<Int64>)
    requires n <= MaxInt64
    ensures |labels| == n
  {
    seq(n, k requires 0 <= k < n => Inc(k))
  }

  /**
   * Step numbering is 1-based: the labels of a list of `n` directions are
   * exactly 1, 2, ..., n, so they are distinct and strictly increasing.
   */
  lemma StepLabelsOneBased(n: nat)
    requires n <= MaxInt64
    ensures forall k :: 0 <= k < n ==> StepLabels(n)[k] == k + 1
    ensures forall j, k :: 0 <= j < k < n ==> StepLabels(n)[j] < StepLabels(n)[k]
  {
  }

  // ---------------------------------------------------------------------
  // dict
  // ---------------------------------------------------------------------

  /**
   * A template argument: Go's `any`. Only the distinction between a string
   * and any other value matters to `dict`.
   */
  datatype Arg<V> = Str(s: string) | NonStr(v: V)

  /** The argument in key position of the `j`-th pair. */
  function KeyAt<V>(pairs: seq<Arg<V>>, j: nat): Arg<V>
    requires 2 * j + 1 < |pairs|
  {
    pairs[2 * j]
  }

  /** The argument in value position of the `j`-th pair. */
  function ValueAt<V>(pairs: seq<Arg<V>>, j: nat): Arg<V>
    requires 2 * j + 1 < |pairs|
  {
    pairs[2 * j + 1]
  }

  /**
   * The map after the first `n` pairs have been stored, or None when one of
   * their keys is not a string (Go's type assertion `pairs[i].(string)`
   * panics).
   */
  function Fill<V>(pairs: seq<Arg<V>>, n: nat): Option<map<string, Arg<V>>>
    requires 2 * n <= |pairs|
  {
    if n == 0 then Some(map[])
    else
      match Fill(pairs, n - 1)
      case None => None
      case Some(m) =>
        match KeyAt(pairs, n - 1)
        case Str(k) => Some(m[k := ValueAt(pairs, n - 1)])
        case NonStr(_) => None
  }

  /** What `dict` returns for the whole argument list: every complete pair is stored. */
  function DictOf<V>(pairs: seq<Arg<V>>): Option<map<string, Arg<V>>>
  {
    Fill(pairs, |pairs| / 2)
  }

  /**
   * `dict`: walks the arguments two at a time and stores each key with the
   * argument after it; a trailing unpaired argument is never visited.
   */
  method Dict<V>(pairs: seq<Arg<V>>) returns (r: Option<map<string, Arg<V>>>)
    ensures r == DictOf(pairs)
  {
    var m: map<string, Arg<V>> := map[];
    var i := 0;
    while i < |pairs| - 1
      invariant 0 <= i <= |pairs| && i % 2 == 0
      invariant Fill(pairs, i / 2) == Some(m)
    {
      match pairs[i]
      case NonStr(_) =>
        assert Fill(pairs, i / 2 + 1) == None;
        FillStaysUndefined(pairs, i / 2 + 1, |pairs| / 2);
        return None;
      case Str(k) =>
        m := m[k := pairs[i + 1]];
      i := i + 2;
    }
    return Some(m);
  }

  /** Once a non-string key has been met, no later pair can make `dict` succeed. */
  lemma {:induction false} FillStaysUndefined<V>(pairs: seq<Arg<V>>, n: nat, n': nat)
    requires n <= n' && 2 * n' <= |pairs| && Fill(pairs, n) == None
    ensures Fill(pairs, n') == None
  {
    if n < n' {
      FillStaysUndefined(pairs, n, n' - 1);
    }
  }

  /** `dict` succeeds exactly when every paired key is a string. */
  lemma {:induction false} FillDefinedIff<V>(pairs: seq<Arg<V>>, n: nat)
    requires 2 * n <= |pairs|
    ensures Fill(pairs, n).Some? <==> forall j :: 0 <= j < n ==> KeyAt(pairs, j).Str?
  {
    if n > 0 {
      FillDefinedIff(pairs, n - 1);
    }
  }

  /** The keys of the filled map are exactly the string keys of the stored pairs. */
  lemma {:induction false} FillKeys<V>(pairs: seq<Arg<V>>, n: nat, k: string)
    requires 2 * n <= |pairs| && Fill(pairs, n).Some?
    ensures k in Fill(pairs, n).value <==> exists j :: 0 <= j < n && KeyAt(pairs, j) == Str(k)
  {
    if n > 0 {
      FillKeys(pairs, n - 1, k);
      if KeyAt(pairs, n - 1) == Str(k) {
      } else if k in Fill(pairs, n).value {
        assert k in Fill(pairs, n - 1).value;
      }
    }
  }

  /**
   * Each key is bound to the value of its LAST occurrence among the stored
   * pairs: a later duplicate overwrites an earlier one.
   */
  lemma {:induction false} FillLastWins<V>(pairs: seq<Arg<V>>, n: nat, j: nat, k: string)
    requires 2 * n <= |pairs| && Fill(pairs, n).Some?
    requires j < n && KeyAt(pairs, j) == Str(k)
    requires forall j' :: j < j' < n ==> KeyAt(pairs, j') != Str(k)
    ensures k in Fill(pairs, n).value && Fill(pairs, n).value[k] == ValueAt(pairs, j)
  {
    if j < n - 1 {
      FillLastWins(pairs, n - 1, j, k);
    }
  }

  /** The properties of `dict` on a whole argument list. */
  lemma DictContents<V>(pairs: seq<Arg<V>>)
    ensures DictOf(pairs).Some? <==> forall j :: 0 <= j < |pairs| / 2 ==> KeyAt(pairs, j).Str?
    ensures DictOf(pairs).Some? ==>
      forall k :: k in DictOf(pairs).value <==> exists j :: 0 <= j < |pairs| / 2 && KeyAt(pairs, j) == Str(k)
  {
    FillDefinedIff(pairs, |pairs| / 2);
    if DictOf(pairs).Some? {
      forall k
        ensures k in DictOf(pairs).value <==> exists j :: 0 <= j < |pairs| / 2 && KeyAt(pairs, j) == Str(k)
      {
        FillKeys(pairs, |pairs| / 2, k);
      }
    }
  }

  /** In the map `dict` returns, a key is bound to the value after its last occurrence. */
  lemma DictLastWins<V>(pairs: seq<Arg<V>>, j: nat, k: string)
    requires DictOf(pairs).Some?
    requires j < |pairs| / 2 && KeyAt(pairs, j) == Str(k)
    requires forall j' :: j < j' < |pairs| / 2 ==> KeyAt(pairs, j') != Str(k)
    ensures k in DictOf(pairs).value && DictOf(pairs).value[k] == ValueAt(pairs, j)
  {
    FillLastWins(pairs, |pairs| / 2, j, k);
  }

  /** Filling depends only on the complete pairs: anything appended later is ignored. */
  lemma {:induction false} FillPrefix<V>(pairs: seq<Arg<V>>, extra: seq<Arg<V>>, n: nat)
    requires 2 * n <= |pairs|
    ensures Fill(pairs + extra, n) == Fill(pairs, n)
  {
    if n > 0 {
      FillPrefix(pairs, extra, n - 1);
      assert KeyAt(pairs + extra, n - 1) == KeyAt(pairs, n - 1);
      assert ValueAt(pairs + extra, n - 1) == ValueAt(pairs, n - 1);
    }
  }

  /** A trailing unpaired argument is ignored. */
  lemma DictIgnoresTrailing<V>(pairs: seq<Arg<V>>, last: Arg<V>)
    requires |pairs| % 2 == 0
    ensures DictOf(pairs + [last]) == DictOf(pairs)
  {
    FillPrefix(pairs, [last], |pairs| / 2);
  }
}

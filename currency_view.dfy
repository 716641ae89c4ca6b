/**
 * The exchange-rate card (components/currency.tsx): single-rate data gets the
 * conversion card, anything else the multi-rate grid of popular currencies with
 * a count of the ones left out. Only property names matter to these choices,
 * so the data is modelled by its property names; rate values and their
 * formatting are not modelled.
 */
module CurrencyView {
  import opened Wrappers

  /**
   * The card's data: its own property names, `base` and `target`, and the
   * property names of `rates` (`None` when it has no `rates`).
   */
  datatype CurrencyData = CurrencyData(keys: set<string>, base: string, target: string, rates: Option<set<string>>)

  /** `SAMPLE_SINGLE` (USD to EUR), the default when no data is given. */
  const Sample: CurrencyData := CurrencyData({"base", "target", "rate", "date", "provider"}, "USD", "EUR", None)

  const Popular: seq<string> := ["EUR", "JPY", "GBP", "CNY", "CAD", "AUD"]

  /** The message of the TypeError from reading `rates['EUR']` when there are no rates. */
  const NoRates: string := "TypeError: Cannot read properties of undefined (reading 'EUR')"

  datatype Card =
    | SingleCard(base: string, target: string)
    | MultipleCard(base: string, shown: seq<string>, more: Option<nat>)

  /** `isSingleCurrency`: the data has both a `target` and a `rate` property. */
  predicate IsSingle(d: CurrencyData) {
    "target" in d.keys && "rate" in d.keys
  }

  /** `r` is `xs` with some elements left out, the rest in their order. */
  predicate Sub(r: seq<string>, xs: seq<string>)
    decreases |xs|
  {
    if r == [] then true
    else if xs == [] then false
    else if r[0] == xs[0] then Sub(r[1..], xs[1..])
    else Sub(r, xs[1..])
  }

  predicate Distinct(xs: seq<string>) {
    forall i, j :: 0 <= i < j < |xs| ==> xs[i] != xs[j]
  }

  function ShownFrom(rates: set<string>, k: nat): (r: seq<string>)
    requires k <= |Popular|
    ensures |r| <= |Popular| - k
    ensures forall c :: c in r <==> c in Popular[k..] && c in rates
    ensures Sub(r, Popular[k..])
    decreases |Popular| - k
  {
    if k == |Popular| then []
    else
      var rest := ShownFrom(rates, k + 1);
      assert Popular[k..] == [Popular[k]] + Popular[k + 1..];
      if Popular[k] in rates then [Popular[k]] + rest else rest
  }

  /**
   * `displayCurrencies`: the popular currencies that `rates` has, in the fixed
   * popular order, at most six of them.
   */
  function Shown(rates: set<string>): (r: seq<string>)
    ensures |r| <= 6
    ensures forall c :: c in r <==> c in Popular && c in rates
    ensures Sub(r, Popular)
  {
    assert Popular[0..] == Popular;
    ShownFrom(rates, 0)
  }

  /** The '+N more currencies available' note, when `rates` has more properties than are shown. */
  function More(rates: set<string>): Option<nat> {
    if |rates| > |Shown(rates)| then Some(|rates| - |Shown(rates)|) else None
  }

  /** What the component draws; it throws when multi-rate data has no `rates`. */
  function CardFor(data: Option<CurrencyData>): (r: Result<Card>)
    ensures data == None ==> r == Success(SingleCard("USD", "EUR"))
    ensures data.Some? && IsSingle(data.value) ==> r == Success(SingleCard(data.value.base, data.value.target))
    ensures data.Some? && !IsSingle(data.value) ==> (r.Failure? <==> data.value.rates == None)
    ensures data.Some? && !IsSingle(data.value) && data.value.rates.Some? ==>
      r == Success(MultipleCard(data.value.base, Shown(data.value.rates.value), More(data.value.rates.value)))
  {
    var d := data.GetOr(Sample);
    if IsSingle(d) then Success(SingleCard(d.base, d.target))
    else match d.rates
      case None => Failure(NoRates)
      case Some(rates) => Success(MultipleCard(d.base, Shown(rates), More(rates)))
  }

  lemma {:induction false} SubDistinct(r: seq<string>, xs: seq<string>)
    requires Sub(r, xs) && Distinct(xs)
    ensures Distinct(r) && forall c :: c in r ==> c in xs
    decreases |xs|
  {
    if r != [] {
      if r[0] == xs[0] {
        SubDistinct(r[1..], xs[1..]);
        assert forall c :: c in r[1..] ==> c != xs[0] by {
          forall c | c in xs[1..] ensures c != xs[0] {
            var i :| 0 <= i < |xs[1..]| && xs[1..][i] == c;
            assert xs[i + 1] == c;
          }
        }
        forall i, j | 0 <= i < j < |r| ensures r[i] != r[j] {
          if i == 0 {
            assert r[j] in r[1..];
          } else {
            assert r[i] == r[1..][i - 1] && r[j] == r[1..][j - 1];
          }
        }
        forall c | c in r ensures c in xs {
          if c != r[0] {
            assert c in r[1..];
          }
        }
      } else {
        SubDistinct(r, xs[1..]);
        forall c | c in r ensures c in xs {
          assert c in xs[1..];
        }
      }
    }
  }

  lemma {:induction false} DistinctCard(r: seq<string>)
    requires Distinct(r)
    ensures |set c | c in r| == |r|
    decreases |r|
  {
    if r != [] {
      var rest := r[1..];
      DistinctCard(rest);
      assert (set c | c in r) == {r[0]} + (set c | c in rest);
      assert r[0] !in rest by {
        forall i | 0 <= i < |rest| ensures rest[i] != r[0] {
          assert rest[i] == r[i + 1];
        }
      }
    }
  }

  const PopularSet: set<string> := {"EUR", "JPY", "GBP", "CNY", "CAD", "AUD"}

  /** The shown currencies are as many as the popular currencies among the rates. */
  lemma ShownCard(rates: set<string>)
    ensures |Shown(rates)| == |rates * PopularSet|
  {
    var r := Shown(rates);
    PopularDistinct();
    SubDistinct(r, Popular);
    DistinctCard(r);
    ShownSet(rates);
  }

  lemma ShownSet(rates: set<string>)
    ensures (set c | c in Shown(rates)) == rates * PopularSet
  {
    var r := Shown(rates);
    PopularMembers();
    forall c
      ensures c in (set c | c in r) <==> c in rates * PopularSet
    {
    }
  }

  lemma PopularDistinct()
    ensures Distinct(Popular)
  {
  }

  lemma PopularMembers()
    ensures forall c :: c in PopularSet <==> c in Popular
  {
  }

  /**
   * The note appears exactly when `rates` has a currency outside the popular
   * six, and then N counts those currencies.
   */
  lemma MoreCountsOthers(rates: set<string>)
    ensures More(rates).Some? <==> exists c :: c in rates && c !in PopularSet
    ensures More(rates).Some? ==> More(rates).value == |rates - PopularSet|
  {
    ShownCard(rates);
    assert rates == (rates * PopularSet) + (rates - PopularSet);
    assert |rates| == |rates * PopularSet| + |rates - PopularSet|;
    if exists c :: c in rates && c !in PopularSet {
      var c :| c in rates && c !in PopularSet;
      assert c in rates - PopularSet;
    } else {
      assert rates - PopularSet == {};
    }
  }
}

/** What the dashboard computes from the cleaned records (app.py lines 49-57, 90
    and 97-98): the municipality selection, the two headline indicators, the
    municipality ranking and the zero-cattle anomalies. */
module Dashboard {
  import opened Wrappers
  import opened Sequences
  import opened Holdings

  /** The ranking shows this many municipalities (`head(15)`). */
  const TopCount: nat := 15

  // ---------------------------------------------------------------------------
  // Municipality selection (lines 49-52)

  /** `df['MUNICIPIO'].isin(selection)` as a predicate on records. */
  function InSelection(selection: seq<Municipality>): Holding -> bool
  {
    (h: Holding) => h.municipality in selection
  }

  /** The active records: those of the selected municipalities, in order, or
      all records when nothing is selected. */
  function SelectMunicipalities(hs: seq<Holding>, selection: seq<Municipality>): (r: seq<Holding>)
    ensures selection == [] ==> r == hs
    ensures selection != [] ==> forall h :: h in r <==> h in hs && h.municipality in selection
    ensures selection != [] ==> forall h ::
      multiset(r)[h] == if h.municipality in selection then multiset(hs)[h] else 0
    ensures IsSubsequence(r, hs)
  {
    if selection != [] then
      FilterSubsequence(hs, InSelection(selection));
      Filter(hs, InSelection(selection))
    else
      SubsequenceReflexive(hs);
      hs
  }

  // ---------------------------------------------------------------------------
  // Headline indicators (lines 56-57)

  /** The sum of TOTAL_BOVINOS over the records; never negative when no
      record's total is. */
  function Population(hs: seq<Holding>): (r: int)
    ensures (forall h :: h in hs ==> h.total >= 0) ==> r >= 0
  {
    assert (forall h :: h in hs ==> h.total >= 0) ==> Sum(hs, TotalOf) >= 0 by {
      if forall h :: h in hs ==> h.total >= 0 {
        SumNonNegative(hs, TotalOf);
      }
    }
    Sum(hs, TotalOf)
  }

  /** "Total Predios Filtrados" and "Poblacion Bovina". */
  datatype Indicators = Indicators(holdings: nat, population: int)

  /** The two indicators of the active records. With no records there is
      no population, and the population is never negative when no record's
      total is. */
  function KeyIndicators(fs: seq<Holding>): (k: Indicators)
    ensures k.holdings == 0 ==> k.population == 0
    ensures (forall h :: h in fs ==> h.total >= 0) ==> k.population >= 0
  {
    Indicators(|fs|, Population(fs))
  }

  /** The indicators of two consecutive parts of the records add up to those of
      the whole: both are sums over the records. */
  lemma KeyIndicatorsAdditive(a: seq<Holding>, b: seq<Holding>)
    ensures KeyIndicators(a + b).holdings == KeyIndicators(a).holdings + KeyIndicators(b).holdings
    ensures KeyIndicators(a + b).population == KeyIndicators(a).population + KeyIndicators(b).population
  {
    SumAppend(a, b, TotalOf);
  }

  // ---------------------------------------------------------------------------
  // Municipality ranking (line 90)

  /** One row of `groupby('MUNICIPIO')['TOTAL_BOVINOS'].sum()`. */
  datatype MunicipalityTotal = MunicipalityTotal(municipality: string, total: int)

  /** The records of municipality `m`. */
  function InMunicipality(m: string): Holding -> bool
  {
    (h: Holding) => h.municipality == Some(m)
  }

  /** The record has a municipality (groupby drops NaN keys). */
  predicate HasMunicipality(h: Holding)
  {
    h.municipality.Some?
  }

  /** The summed TOTAL_BOVINOS of municipality `m`'s records. */
  function MunicipalityPopulation(hs: seq<Holding>, m: string): int
  {
    Population(Filter(hs, InMunicipality(m)))
  }

  /** No element occurs twice. */
  ghost predicate Distinct<T>(s: seq<T>)
  {
    forall i, j :: 0 <= i < j < |s| ==> s[i] != s[j]
  }

  /** The municipalities named in the records, each once. */
  function MunicipalitiesOf(hs: seq<Holding>): (ms: seq<string>)
    ensures Distinct(ms)
    ensures forall m :: m in ms <==> Some(m) in Names(hs)
  {
    if hs == [] then []
    else
      var rest := MunicipalitiesOf(hs[1..]);
      assert Names(hs) == [hs[0].municipality] + Names(hs[1..]);
      match hs[0].municipality
      case Some(m) => if m in rest then rest else [m] + rest
      case None => rest
  }

  /** The MUNICIPIO column of the records. */
  function Names(hs: seq<Holding>): (r: seq<Municipality>)
    ensures |r| == |hs| && forall i :: 0 <= i < |hs| ==> r[i] == hs[i].municipality
  {
    if hs == [] then [] else [hs[0].municipality] + Names(hs[1..])
  }

  /** One group row per municipality in `ms`, in that order. */
  function GroupTotals(ms: seq<string>, hs: seq<Holding>): (r: seq<MunicipalityTotal>)
    ensures |r| == |ms|
    ensures forall i :: 0 <= i < |ms| ==> r[i] == MunicipalityTotal(ms[i], MunicipalityPopulation(hs, ms[i]))
  {
    if ms == [] then []
    else [MunicipalityTotal(ms[0], MunicipalityPopulation(hs, ms[0]))] + GroupTotals(ms[1..], hs)
  }

  /** The total of a group row. */
  function GroupTotalOf(g: MunicipalityTotal): int
  {
    g.total
  }

  /** Municipalities are listed at most once. */
  ghost predicate DistinctMunicipalities(gs: seq<MunicipalityTotal>)
  {
    forall i, j :: 0 <= i < j < |gs| ==> gs[i].municipality != gs[j].municipality
  }

  /** `groupby('MUNICIPIO')['TOTAL_BOVINOS'].sum()`: one row per named
      municipality of the records, holding the summed totals of its records. */
  function GroupByMunicipality(hs: seq<Holding>): (r: seq<MunicipalityTotal>)
    ensures DistinctMunicipalities(r)
    ensures forall g :: g in r ==> g.total == MunicipalityPopulation(hs, g.municipality)
    ensures forall g :: g in r ==> Some(g.municipality) in Names(hs)
    ensures forall m :: Some(m) in Names(hs) ==> MunicipalityTotal(m, MunicipalityPopulation(hs, m)) in r
  {
    var ms := MunicipalitiesOf(hs);
    var r := GroupTotals(ms, hs);
    assert forall m :: m in ms ==> MunicipalityTotal(m, MunicipalityPopulation(hs, m)) in r by {
      forall m | m in ms ensures MunicipalityTotal(m, MunicipalityPopulation(hs, m)) in r {
        var i :| 0 <= i < |ms| && ms[i] == m;
        assert r[i] == MunicipalityTotal(m, MunicipalityPopulation(hs, m));
      }
    }
    r
  }

  /** The population of a municipality over one more record. */
  lemma MunicipalityPopulationCons(h: Holding, rest: seq<Holding>, m: string)
    ensures MunicipalityPopulation([h] + rest, m)
      == (if h.municipality == Some(m) then h.total else 0) + MunicipalityPopulation(rest, m)
  {
  }

  /** Over no records every group is empty. */
  lemma {:induction false} GroupTotalsOfNothing(ms: seq<string>)
    ensures Sum(GroupTotals(ms, []), GroupTotalOf) == 0
  {
    if ms != [] {
      GroupTotalsOfNothing(ms[1..]);
    }
  }

  /** One more record adds its total to the group of its municipality, if that
      municipality is listed. */
  lemma {:induction false} GroupTotalsCons(ms: seq<string>, h: Holding, rest: seq<Holding>)
    requires Distinct(ms)
    ensures Sum(GroupTotals(ms, [h] + rest), GroupTotalOf)
      == (if h.municipality.Some? && h.municipality.value in ms then h.total else 0)
         + Sum(GroupTotals(ms, rest), GroupTotalOf)
  {
    if ms != [] {
      MunicipalityPopulationCons(h, rest, ms[0]);
      GroupTotalsCons(ms[1..], h, rest);
      assert ms[0] !in ms[1..] by {
        forall j | 0 <= j < |ms[1..]| ensures ms[1..][j] != ms[0] {
          assert ms[1..][j] == ms[j + 1];
        }
      }
    }
  }

  /** Summing the groups of a list of distinct municipalities that covers every
      named record gives the population of the named records. */
  lemma {:induction false} GroupTotalsCover(ms: seq<string>, hs: seq<Holding>)
    requires Distinct(ms)
    requires forall h :: h in hs && h.municipality.Some? ==> h.municipality.value in ms
    ensures Sum(GroupTotals(ms, hs), GroupTotalOf) == Population(Filter(hs, HasMunicipality))
  {
    if hs == [] {
      GroupTotalsOfNothing(ms);
    } else {
      assert hs == [hs[0]] + hs[1..];
      GroupTotalsCons(ms, hs[0], hs[1..]);
      GroupTotalsCover(ms, hs[1..]);
      var f := Filter(hs[1..], HasMunicipality);
      if HasMunicipality(hs[0]) {
        assert Filter(hs, HasMunicipality) == [hs[0]] + f;
        assert ([hs[0]] + f)[1..] == f;
      }
    }
  }

  /** The group totals add up to the population of the records that name a
      municipality: the population indicator less that of the records whose
      MUNICIPIO is empty. */
  lemma GroupTotalsAddUp(hs: seq<Holding>)
    ensures Sum(GroupByMunicipality(hs), GroupTotalOf)
      == Population(hs) - Population(Filter(hs, Not(HasMunicipality)))
  {
    var ms := MunicipalitiesOf(hs);
    forall h | h in hs && h.municipality.Some? ensures h.municipality.value in ms {
      var i :| 0 <= i < |hs| && hs[i] == h;
      assert Names(hs)[i] == h.municipality;
    }
    GroupTotalsCover(ms, hs);
    SumSplit(hs, HasMunicipality, TotalOf);
  }

  /** When every record names its municipality, the group totals add up to
      the population indicator. */
  lemma GroupTotalsAddUpToPopulation(hs: seq<Holding>)
    requires forall h :: h in hs ==> h.municipality.Some?
    ensures Sum(GroupByMunicipality(hs), GroupTotalOf) == KeyIndicators(hs).population
  {
    GroupTotalsAddUp(hs);
    FilterNone(hs, Not(HasMunicipality));
  }

  /** Ordered by total, largest first. */
  ghost predicate NonIncreasing(gs: seq<MunicipalityTotal>)
  {
    forall i, j :: 0 <= i < j < |gs| ==> gs[i].total >= gs[j].total
  }

  /** `g` inserted into a list ordered by total, before the first smaller total. */
  function InsertByTotal(g: MunicipalityTotal, gs: seq<MunicipalityTotal>): (r: seq<MunicipalityTotal>)
    ensures |r| == |gs| + 1
    ensures multiset(r) == multiset(gs) + multiset{g}
  {
    if gs == [] || g.total >= gs[0].total then
      [g] + gs
    else
      assert gs == [gs[0]] + gs[1..];
      [gs[0]] + InsertByTotal(g, gs[1..])
  }

  /** Inserting keeps a list ordered by total. */
  lemma {:induction false} InsertKeepsOrder(g: MunicipalityTotal, gs: seq<MunicipalityTotal>)
    requires NonIncreasing(gs)
    ensures NonIncreasing(InsertByTotal(g, gs))
  {
    if gs == [] || g.total >= gs[0].total {
      var r := [g] + gs;
      assert InsertByTotal(g, gs) == r;
      forall i, j | 0 <= i < j < |r| ensures r[i].total >= r[j].total {
        if i == 0 {
          assert r[j] == gs[j - 1];
        } else {
          assert r[i] == gs[i - 1] && r[j] == gs[j - 1];
        }
      }
    } else {
      var rest := InsertByTotal(g, gs[1..]);
      InsertKeepsOrder(g, gs[1..]);
      var r := [gs[0]] + rest;
      assert InsertByTotal(g, gs) == r;
      forall i, j | 0 <= i < j < |r| ensures r[i].total >= r[j].total {
        var y := rest[j - 1];
        assert r[j] == y;
        if i == 0 {
          assert y in multiset(rest);
          assert y == g || y in multiset(gs[1..]);
          if y != g {
            var k :| 0 <= k < |gs[1..]| && gs[1..][k] == y;
            assert gs[k + 1] == y;
          }
        } else {
          assert r[i] == rest[i - 1];
        }
      }
    }
  }

  /** Inserting a municipality not yet listed keeps the municipalities distinct. */
  lemma {:induction false} InsertKeepsDistinct(g: MunicipalityTotal, gs: seq<MunicipalityTotal>)
    requires DistinctMunicipalities(gs)
    requires forall x :: x in gs ==> x.municipality != g.municipality
    ensures DistinctMunicipalities(InsertByTotal(g, gs))
  {
    if gs == [] || g.total >= gs[0].total {
      var r := [g] + gs;
      forall i, j | 0 <= i < j < |r| ensures r[i].municipality != r[j].municipality {
        assert gs[j - 1] in gs;
      }
    } else {
      var rest := InsertByTotal(g, gs[1..]);
      InsertKeepsDistinct(g, gs[1..]);
      forall x | x in rest ensures x.municipality != gs[0].municipality {
        assert x in multiset(rest);
        assert x == g || x in multiset(gs[1..]);
        if x != g {
          var k :| 0 <= k < |gs[1..]| && gs[1..][k] == x;
          assert gs[k + 1] == x;
        }
      }
      var r := [gs[0]] + rest;
      forall i, j | 0 <= i < j < |r| ensures r[i].municipality != r[j].municipality {
        assert rest[j - 1] in rest;
      }
    }
  }

  /** `sort_values(ascending=False)`: the groups reordered by total, largest first. */
  function SortByTotal(gs: seq<MunicipalityTotal>): (r: seq<MunicipalityTotal>)
    ensures |r| == |gs|
    ensures multiset(r) == multiset(gs)
    ensures NonIncreasing(r)
  {
    if gs == [] then []
    else
      assert gs == [gs[0]] + gs[1..];
      InsertKeepsOrder(gs[0], SortByTotal(gs[1..]));
      InsertByTotal(gs[0], SortByTotal(gs[1..]))
  }

  /** Sorting keeps the municipalities distinct. */
  lemma {:induction false} SortKeepsDistinct(gs: seq<MunicipalityTotal>)
    requires DistinctMunicipalities(gs)
    ensures DistinctMunicipalities(SortByTotal(gs))
  {
    if gs != [] {
      var rest := SortByTotal(gs[1..]);
      SortKeepsDistinct(gs[1..]);
      forall x | x in rest ensures x.municipality != gs[0].municipality {
        assert x in multiset(gs[1..]);
        var k :| 0 <= k < |gs[1..]| && gs[1..][k] == x;
        assert gs[k + 1] == x;
      }
      InsertKeepsDistinct(gs[0], rest);
    }
  }

  /** `sort_values(ascending=False).head(15)`: the groups ordered by total,
      largest first, cut to the first fifteen. */
  function Ranking(groups: seq<MunicipalityTotal>): (r: seq<MunicipalityTotal>)
    ensures |r| == if |groups| < TopCount then |groups| else TopCount
    ensures NonIncreasing(r)
    ensures forall g :: g in r ==> g in groups
    ensures DistinctMunicipalities(groups) ==> DistinctMunicipalities(r)
  {
    var sorted := SortByTotal(groups);
    var n := if |sorted| < TopCount then |sorted| else TopCount;
    assert forall g :: g in sorted[..n] ==> g in multiset(groups);
    assert DistinctMunicipalities(groups) ==> DistinctMunicipalities(sorted) by {
      if DistinctMunicipalities(groups) {
        SortKeepsDistinct(groups);
      }
    }
    sorted[..n]
  }

  /** In a list ordered by total, an element outside a prefix is no larger
      than any element of the prefix. */
  lemma PrefixHoldsLargest(sorted: seq<MunicipalityTotal>, n: nat)
    requires NonIncreasing(sorted) && n <= |sorted|
    ensures forall g, t :: g in sorted && g !in sorted[..n] && t in sorted[..n] ==> g.total <= t.total
  {
  }

  /** The ranking holds the largest groups: a group left out has a total no
      larger than any group shown, and every group is shown when there are at
      most fifteen. */
  lemma RankingHoldsLargest(groups: seq<MunicipalityTotal>)
    ensures forall g, t :: g in groups && g !in Ranking(groups) && t in Ranking(groups) ==> g.total <= t.total
    ensures |groups| <= TopCount ==> forall g :: g in groups ==> g in Ranking(groups)
  {
    var sorted := SortByTotal(groups);
    var top := Ranking(groups);
    assert top == sorted[..|top|];
    PrefixHoldsLargest(sorted, |top|);
    forall g | g in groups ensures g in sorted {
      assert g in multiset(sorted);
    }
    if |groups| <= TopCount {
      assert top == sorted;
    }
  }

  /** `top_munis` (line 90): the ranking of the municipality groups of the
      active records. */
  function TopMunicipalities(fs: seq<Holding>): (r: seq<MunicipalityTotal>)
    ensures DistinctMunicipalities(r)
  {
    Ranking(GroupByMunicipality(fs))
  }

  // ---------------------------------------------------------------------------
  // Zero-cattle anomalies (lines 97-98)

  /** `TOTAL_BOVINOS == 0`. */
  predicate HasZeroTotal(h: Holding)
  {
    h.total == 0
  }

  /** `df_error`: the active records with no cattle, in order. */
  function Anomalies(fs: seq<Holding>): (r: seq<Holding>)
    ensures IsSubsequence(r, fs)
    ensures forall h :: h in r <==> h in fs && h.total == 0
    ensures forall h :: multiset(r)[h] == if h.total == 0 then multiset(fs)[h] else 0
  {
    FilterSubsequence(fs, HasZeroTotal);
    Filter(fs, HasZeroTotal)
  }

  /** The anomalies carry no cattle: the active records without them hold the
      whole population, and the two parts together are all the active records. */
  lemma AnomaliesCarryNoPopulation(fs: seq<Holding>)
    ensures Population(Filter(fs, Not(HasZeroTotal))) == KeyIndicators(fs).population
    ensures |Anomalies(fs)| + |Filter(fs, Not(HasZeroTotal))| == KeyIndicators(fs).holdings
  {
    SumSplit(fs, HasZeroTotal, TotalOf);
    var zeros := Anomalies(fs);
    forall h | h in zeros ensures TotalOf(h) == 0 {
    }
    SumFrame(zeros, TotalOf, _ => 0);
    ZeroSum(zeros);
    FilterPartitionLength(fs, HasZeroTotal);
  }

  /** The constant zero sums to zero. */
  lemma {:induction false} ZeroSum(s: seq<Holding>)
    ensures Sum(s, _ => 0) == 0
  {
    if s != [] {
      ZeroSum(s[1..]);
    }
  }

  /** With non-negative totals, every active record that is not an anomaly has
      a positive total. */
  lemma NonAnomaliesArePositive(fs: seq<Holding>)
    requires forall h :: h in fs ==> h.total >= 0
    ensures forall h :: h in fs && h !in Anomalies(fs) ==> h.total > 0
  {
  }

  // ---------------------------------------------------------------------------
  // Everything the dashboard shows for one selection

  datatype View = View(
    indicators: Indicators,
    topMunicipalities: seq<MunicipalityTotal>,
    anomalies: seq<Holding>,
    anomalyCount: nat)

  /** The indicators, the ranking and the anomalies of the selected records. */
  function Show(hs: seq<Holding>, selection: seq<Municipality>): (v: View)
    ensures v.anomalyCount == |v.anomalies| <= v.indicators.holdings <= |hs|
    ensures IsSubsequence(v.anomalies, hs)
    ensures forall h :: h in v.anomalies ==>
      h in hs && h.total == 0 && (selection != [] ==> h.municipality in selection)
  {
    var fs := SelectMunicipalities(hs, selection);
    var errors := Anomalies(fs);
    SubsequenceTransitive(errors, fs, hs);
    View(KeyIndicators(fs), TopMunicipalities(fs), errors, |errors|)
  }

  /** The ranking lists only selected municipalities. */
  lemma RankingWithinSelection(hs: seq<Holding>, selection: seq<Municipality>)
    requires selection != []
    ensures forall g :: g in Show(hs, selection).topMunicipalities ==> Some(g.municipality) in selection
  {
  }
}

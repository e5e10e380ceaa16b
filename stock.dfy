/** Stock-status rules for consumables: the classification the listing shows,
    the client-side `stock_status` filter and the low-stock counter. */
module Stock {
  import opened Records
  import Seqs

  /** Low stock, `stock <= stock_minimo`: the test of the listing, the banner
      counter, the 'bajo' filter and both consumable exports. */
  predicate IsLow(c: Consumable) { c.stock <= c.stockMinimo }

  /** Critical stock, `stock <= stock_minimo * 0.5`, stated over integers. */
  predicate IsCritical(c: Consumable) { 2 * c.stock <= c.stockMinimo }

  /** The 'normal' filter's test, `stock > stock_minimo`. */
  predicate IsNormal(c: Consumable) { c.stock > c.stockMinimo }

  /** For integer fields the halved threshold needs no floating point. */
  lemma CriticalIsHalfThreshold(c: Consumable)
    ensures IsCritical(c) <==> (c.stock as real) <= (c.stockMinimo as real) * 0.5
  {
  }

  datatype Status = Ok | Low | Critical

  /** The listing's classification; the critical test is tried first. */
  function Classify(c: Consumable): Status
  {
    if IsCritical(c) then Critical else if IsLow(c) then Low else Ok
  }

  /** The row colouring of the listing. */
  function RowClass(c: Consumable): (r: string)
    ensures r == "table-danger" <==> IsCritical(c)
    ensures r == "table-warning" <==> IsLow(c) && !IsCritical(c)
    ensures r == "" <==> !IsLow(c) && !IsCritical(c)
  {
    match Classify(c)
    case Critical => "table-danger"
    case Low => "table-warning"
    case Ok => ""
  }

  /** The status badge of the listing: its colour and its text. */
  function Badge(c: Consumable): (b: (string, string))
    ensures b.0 == "danger" <==> IsCritical(c)
    ensures b.0 == "warning" <==> IsLow(c) && !IsCritical(c)
    ensures b.0 == "success" <==> !IsLow(c) && !IsCritical(c)
    ensures b == ("danger", "🔴 CRÍTICO") <==> IsCritical(c)
    ensures b == ("warning", "⚠️ BAJO") <==> IsLow(c) && !IsCritical(c)
    ensures b == ("success", "🟢 OK") <==> !IsLow(c) && !IsCritical(c)
  {
    match Classify(c)
    case Critical => ("danger", "🔴 CRÍTICO")
    case Low => ("warning", "⚠️ BAJO")
    case Ok => ("success", "🟢 OK")
  }

  /** With a non-negative threshold, critical stock is also low stock, and a row
      is OK exactly when its stock is above the threshold. */
  lemma ClassifyWithThreshold(c: Consumable)
    requires c.stockMinimo >= 0
    ensures IsCritical(c) ==> IsLow(c)
    ensures Classify(c) == Ok <==> IsNormal(c)
    ensures Classify(c) != Ok <==> IsLow(c)
  {
  }

  /** With a negative threshold a row can be critical without being low: the
      listing then shows it as critical while the exports label it normal. */
  lemma CriticalNotLowWithNegativeThreshold()
    ensures var c := Consumable(0, "", "", 0, "", -1, -2, "");
            Classify(c) == Critical && !IsLow(c)
  {
  }

  /** The rule at the boundaries: half the threshold is already critical. */
  lemma ClassifyExamples()
    ensures Classify(Consumable(0, "", "", 0, "", 0, 10, "")) == Critical
    ensures Classify(Consumable(0, "", "", 0, "", 5, 10, "")) == Critical
    ensures Classify(Consumable(0, "", "", 0, "", 6, 10, "")) == Low
    ensures Classify(Consumable(0, "", "", 0, "", 10, 10, "")) == Low
    ensures Classify(Consumable(0, "", "", 0, "", 11, 10, "")) == Ok
    ensures Classify(Consumable(0, "", "", 0, "", 0, 0, "")) == Critical
    ensures Classify(Consumable(0, "", "", 0, "", 1, 0, "")) == Ok
  {
  }

  /** The client-side `stock_status` filter applied to a fetched page:
      'bajo', 'critico' and 'normal' filter it, any other value keeps it. */
  function ApplyStockStatus(data: seq<Consumable>, status: string): (r: seq<Consumable>)
    ensures Seqs.IsSubsequence(r, data)
    ensures status != "bajo" && status != "critico" && status != "normal" ==> r == data
    ensures status == "bajo" ==> forall c :: c in r <==> c in data && IsLow(c)
    ensures status == "critico" ==> forall c :: c in r <==> c in data && IsCritical(c)
    ensures status == "normal" ==> forall c :: c in r <==> c in data && IsNormal(c)
  {
    if status == "bajo" then
      Seqs.FilterIsSubsequence(data, IsLow);
      Seqs.Filter(data, IsLow)
    else if status == "critico" then
      Seqs.FilterIsSubsequence(data, IsCritical);
      Seqs.Filter(data, IsCritical)
    else if status == "normal" then
      Seqs.FilterIsSubsequence(data, IsNormal);
      Seqs.Filter(data, IsNormal)
    else
      SubsequenceReflexive(data);
      data
  }

  lemma {:induction false} SubsequenceReflexive(s: seq<Consumable>)
    ensures Seqs.IsSubsequence(s, s)
  {
    if s != [] {
      SubsequenceReflexive(s[1..]);
    }
  }

  /** The 'bajo' and 'normal' results partition the fetched page. */
  lemma BajoNormalPartition(data: seq<Consumable>)
    ensures |ApplyStockStatus(data, "bajo")| + |ApplyStockStatus(data, "normal")| == |data|
    ensures multiset(ApplyStockStatus(data, "bajo")) + multiset(ApplyStockStatus(data, "normal"))
            == multiset(data)
  {
    Seqs.FilterComplement(data, IsLow, IsNormal);
  }

  /** With non-negative thresholds the 'critico' result is a subsequence of the
      'bajo' result. */
  lemma CriticoWithinBajo(data: seq<Consumable>)
    requires forall c | c in data :: c.stockMinimo >= 0
    ensures Seqs.IsSubsequence(ApplyStockStatus(data, "critico"), ApplyStockStatus(data, "bajo"))
  {
    Seqs.FilterStronger(data, IsCritical, IsLow);
  }

  /** `consumibles.filter(c => c.stock <= c.stock_minimo).length`. */
  function LowStockCount(cs: seq<Consumable>): nat
  {
    |Seqs.Filter(cs, IsLow)|
  }

  /** The counter is positive exactly when some row is low, and together with
      the rows above their threshold it accounts for every row. */
  lemma LowStockCountMeaning(cs: seq<Consumable>)
    ensures LowStockCount(cs) > 0 <==> exists k | 0 <= k < |cs| :: IsLow(cs[k])
    ensures LowStockCount(cs) + |Seqs.Filter(cs, IsNormal)| == |cs|
  {
    var f := Seqs.Filter(cs, IsLow);
    if LowStockCount(cs) > 0 {
      assert f[0] in cs;
    }
    Seqs.FilterComplement(cs, IsLow, IsNormal);
  }

  /** The banner counts the rows left by the stock filter: every row under
      'bajo', none under 'normal'. */
  lemma LowStockCountAfterFilter(data: seq<Consumable>)
    ensures LowStockCount(ApplyStockStatus(data, "bajo")) == |ApplyStockStatus(data, "bajo")|
    ensures LowStockCount(ApplyStockStatus(data, "normal")) == 0
  {
    var bajo := ApplyStockStatus(data, "bajo");
    Seqs.FilterKeepsAll(bajo, IsLow);
    Seqs.FilterKeepsNone(ApplyStockStatus(data, "normal"), IsLow);
  }
}

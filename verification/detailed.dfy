/** The detailed-analysis breakdown of src/components/DetailedAnalysis.tsx:
    four debit categories read from `additionalValues`, their total, the
    revenue left after them, their shares of RBR, and the two chart series. */
module Detailed {
  import opened Wrappers
  import opened Types
  import opened Seqs
  import opened Normalize

  const PromocoesKey := "promocoes"
  const TaxasComissoesKey := "taxasComissoes"
  const ServicosLogisticosKey := "servicosLogisticos"
  const OutrosValoresKey := "outrosValores"

  /** One slice of the pie chart or one bar of the bar chart. */
  datatype ChartEntry = ChartEntry(name: string, value: real, color: string)

  datatype Breakdown = Breakdown(
    analysis: DetailedAnalysisData,
    pieData: seq<ChartEntry>,
    barData: seq<ChartEntry>,
    hasRbrError: bool,        // RBR is not positive
    hasDebitosError: bool)    // the debits exceed RBR

  /** A category amount: `normalizeNumber(additionalValues[key] || 0)`. A
      missing category reads as 0 and a present one as itself. */
  function Category(values: map<string, real>, key: string): (r: real)
    ensures key !in values ==> r == 0.0
    ensures key in values ==> r == values[key]
  {
    NormalizeNumber(Num(ValueOrZero(values, key)))
  }

  /** `amount` as a percentage of `rbr`, or 0 when RBR is not positive. */
  function Share(amount: real, rbr: real): (r: real)
    ensures rbr > 0.0 ==> r * rbr == amount * 100.0
    ensures rbr <= 0.0 ==> r == 0.0
  {
    if rbr > 0.0 then (amount / rbr) * 100.0 else 0.0
  }

  predicate IsVisible(e: ChartEntry) {
    e.value > 0.0
  }

  /** The four category slices in display order, before hiding empty ones. */
  function CategorySlices(p: Percentuais): (r: seq<ChartEntry>)
    ensures |r| == 4
  {
    [ChartEntry("Promoções", p.promocoes, "#ef4444"),
     ChartEntry("Taxas/Comissões", p.taxasComissoes, "#f97316"),
     ChartEntry("Serviços Logísticos", p.servicosLogisticos, "#eab308"),
     ChartEntry("Outros Valores", p.outrosValores, "#8b5cf6")]
  }

  /** The bar chart's labels, in display order. */
  const BarNames := ["RBR", "Débitos", "RBR Pós-Débitos", "VRLJ", "Repasse Real"]

  /** The breakdown for a form and its computed KPIs. */
  function ComputeBreakdown(formData: FormData, calculatedData: CalculatedData): (b: Breakdown)
    ensures b.analysis.debitosDetalhados ==
            b.analysis.promocoes + b.analysis.taxasComissoes +
            b.analysis.servicosLogisticos + b.analysis.outrosValores
    ensures b.analysis.rbrPosDebitos + b.analysis.debitosDetalhados == calculatedData.rbr
    ensures b.analysis.repasseLiquidoReal ==
            calculatedData.rbr - b.analysis.debitosDetalhados + formData.vrlj
    ensures b.hasRbrError <==> calculatedData.rbr <= 0.0
    ensures b.hasDebitosError <==> b.analysis.rbrPosDebitos < 0.0
    ensures var a := b.analysis; var rbr := calculatedData.rbr;
            a.percentuais == Percentuais(Share(a.promocoes, rbr), Share(a.taxasComissoes, rbr),
                                         Share(a.servicosLogisticos, rbr), Share(a.outrosValores, rbr),
                                         Share(a.debitosDetalhados, rbr))
    ensures |b.barData| == 5
    ensures forall i :: 0 <= i < 5 ==> b.barData[i].name == BarNames[i]
    ensures b.barData[0].value == calculatedData.rbr
    ensures b.barData[1].value == b.analysis.debitosDetalhados
    ensures b.barData[2].value == b.analysis.rbrPosDebitos
    ensures b.barData[3].value == formData.vrlj
    ensures b.barData[4].value == b.analysis.repasseLiquidoReal
    ensures b.barData[0].value - b.barData[1].value == b.barData[2].value
    ensures b.barData[2].value + b.barData[3].value == b.barData[4].value
  {
    var values := formData.additionalValues;
    var rbr := calculatedData.rbr;
    var promocoes := Category(values, PromocoesKey);
    var taxasComissoes := Category(values, TaxasComissoesKey);
    var servicosLogisticos := Category(values, ServicosLogisticosKey);
    var outrosValores := Category(values, OutrosValoresKey);
    var debitos := promocoes + taxasComissoes + servicosLogisticos + outrosValores;
    var rbrPosDebitos := rbr - debitos;
    var vrlj := NormalizeNumber(Num(formData.vrlj));
    var repasse := rbrPosDebitos + vrlj;
    var percentuais := Percentuais(
      Share(promocoes, rbr),
      Share(taxasComissoes, rbr),
      Share(servicosLogisticos, rbr),
      Share(outrosValores, rbr),
      Share(debitos, rbr));
    var analysis := DetailedAnalysisData(promocoes, taxasComissoes, servicosLogisticos,
                                         outrosValores, debitos, rbrPosDebitos, repasse,
                                         percentuais);
    var bars := [ChartEntry(BarNames[0], rbr, "#10b981"),
                 ChartEntry(BarNames[1], debitos, "#ef4444"),
                 ChartEntry(BarNames[2], rbrPosDebitos, "#3b82f6"),
                 ChartEntry(BarNames[3], vrlj, "#8b5cf6"),
                 ChartEntry(BarNames[4], repasse, "#06b6d4")];
    Breakdown(analysis, Filter(CategorySlices(percentuais), IsVisible), bars,
              rbr <= 0.0, debitos > rbr)
  }

  /** Each category is read from its own key, 0 when the key is missing. */
  lemma CategoriesReadTheirKeys(formData: FormData, calculatedData: CalculatedData)
    ensures var a := ComputeBreakdown(formData, calculatedData).analysis;
            var v := formData.additionalValues;
            a.promocoes == (if PromocoesKey in v then v[PromocoesKey] else 0.0) &&
            a.taxasComissoes == (if TaxasComissoesKey in v then v[TaxasComissoesKey] else 0.0) &&
            a.servicosLogisticos == (if ServicosLogisticosKey in v then v[ServicosLogisticosKey] else 0.0) &&
            a.outrosValores == (if OutrosValoresKey in v then v[OutrosValoresKey] else 0.0)
  {
  }

  /** With positive RBR each of the five shares is its amount as a
      percentage of RBR. */
  lemma SharesArePercentages(formData: FormData, calculatedData: CalculatedData)
    requires calculatedData.rbr > 0.0
    ensures var a := ComputeBreakdown(formData, calculatedData).analysis;
            var p := a.percentuais; var rbr := calculatedData.rbr;
            && p.promocoes * rbr == a.promocoes * 100.0
            && p.taxasComissoes * rbr == a.taxasComissoes * 100.0
            && p.servicosLogisticos * rbr == a.servicosLogisticos * 100.0
            && p.outrosValores * rbr == a.outrosValores * 100.0
            && p.totalDebitos * rbr == a.debitosDetalhados * 100.0
  {
    var a := ComputeBreakdown(formData, calculatedData).analysis;
    var rbr := calculatedData.rbr;
    assert a.percentuais.promocoes == Share(a.promocoes, rbr);
    assert a.percentuais.taxasComissoes == Share(a.taxasComissoes, rbr);
    assert a.percentuais.servicosLogisticos == Share(a.servicosLogisticos, rbr);
    assert a.percentuais.outrosValores == Share(a.outrosValores, rbr);
    assert a.percentuais.totalDebitos == Share(a.debitosDetalhados, rbr);
  }

  /** The total share is the sum of the four category shares, and every
      share is 0 when RBR is not positive. */
  lemma SharesAddUp(formData: FormData, calculatedData: CalculatedData)
    ensures var p := ComputeBreakdown(formData, calculatedData).analysis.percentuais;
            p.totalDebitos == p.promocoes + p.taxasComissoes + p.servicosLogisticos + p.outrosValores
    ensures var p := ComputeBreakdown(formData, calculatedData).analysis.percentuais;
            calculatedData.rbr <= 0.0 ==>
              p.promocoes == 0.0 && p.taxasComissoes == 0.0 && p.servicosLogisticos == 0.0 &&
              p.outrosValores == 0.0 && p.totalDebitos == 0.0
  {
    var a := ComputeBreakdown(formData, calculatedData).analysis;
    var rbr := calculatedData.rbr;
    ShareAdds(a.promocoes, a.taxasComissoes, rbr);
    ShareAdds(a.promocoes + a.taxasComissoes, a.servicosLogisticos, rbr);
    ShareAdds(a.promocoes + a.taxasComissoes + a.servicosLogisticos, a.outrosValores, rbr);
  }

  /** Shares of the same base add like their amounts. */
  lemma ShareAdds(x: real, y: real, rbr: real)
    ensures Share(x + y, rbr) == Share(x, rbr) + Share(y, rbr)
  {
    if rbr > 0.0 {
      assert (x + y) / rbr == x / rbr + y / rbr;
    }
  }

  /** The pie shows a category exactly when its share is positive, in the
      fixed category order, and shows nothing when RBR is not positive. */
  lemma PieShowsPositiveShares(formData: FormData, calculatedData: CalculatedData)
    ensures var b := ComputeBreakdown(formData, calculatedData);
            forall e :: e in b.pieData <==> e in CategorySlices(b.analysis.percentuais) && e.value > 0.0
    ensures var b := ComputeBreakdown(formData, calculatedData);
            IsSubsequence(b.pieData, CategorySlices(b.analysis.percentuais))
    ensures var b := ComputeBreakdown(formData, calculatedData);
            calculatedData.rbr <= 0.0 ==> b.pieData == []
  {
    var b := ComputeBreakdown(formData, calculatedData);
    var slices := CategorySlices(b.analysis.percentuais);
    FilterSpec(slices, IsVisible);
    FilterIsSubsequence(slices, IsVisible);
    if calculatedData.rbr <= 0.0 {
      SharesAddUp(formData, calculatedData);
      assert forall i :: 0 <= i < |slices| ==> !IsVisible(slices[i]);
      FilterNoneKept(slices, IsVisible);
    }
  }

  function SumValues(es: seq<ChartEntry>): real {
    if |es| == 0 then 0.0 else es[0].value + SumValues(es[1..])
  }

  lemma SlicesSum(p: Percentuais)
    ensures SumValues(CategorySlices(p)) ==
            p.promocoes + p.taxasComissoes + p.servicosLogisticos + p.outrosValores
  {
    var es := CategorySlices(p);
    assert es[3..][1..] == [];
    assert SumValues(es[3..]) == p.outrosValores;
    assert es[2..][1..] == es[3..];
    assert SumValues(es[2..]) == p.servicosLogisticos + p.outrosValores;
    assert es[1..][1..] == es[2..];
    assert SumValues(es[1..]) == p.taxasComissoes + p.servicosLogisticos + p.outrosValores;
  }

  /** Hiding entries that are not positive does not change a total of
      non-negative values. */
  lemma {:induction false} HidingZerosKeepsSum(es: seq<ChartEntry>)
    requires forall i :: 0 <= i < |es| ==> es[i].value >= 0.0
    ensures SumValues(Filter(es, IsVisible)) == SumValues(es)
  {
    if |es| > 0 {
      HidingZerosKeepsSum(es[1..]);
    }
  }

  /** With positive RBR and no negative category, the visible pie slices add
      up to the total debit share. */
  lemma PieAddsUpToTotal(formData: FormData, calculatedData: CalculatedData)
    requires calculatedData.rbr > 0.0
    requires forall k :: k in formData.additionalValues ==> formData.additionalValues[k] >= 0.0
    ensures var b := ComputeBreakdown(formData, calculatedData);
            SumValues(b.pieData) == b.analysis.percentuais.totalDebitos
  {
    var b := ComputeBreakdown(formData, calculatedData);
    var p := b.analysis.percentuais;
    var slices := CategorySlices(p);
    CategoriesReadTheirKeys(formData, calculatedData);
    SharesAddUp(formData, calculatedData);
    var rbr := calculatedData.rbr;
    ShareOfNonNegative(b.analysis.promocoes, rbr);
    ShareOfNonNegative(b.analysis.taxasComissoes, rbr);
    ShareOfNonNegative(b.analysis.servicosLogisticos, rbr);
    ShareOfNonNegative(b.analysis.outrosValores, rbr);
    assert forall i :: 0 <= i < |slices| ==> slices[i].value >= 0.0;
    HidingZerosKeepsSum(slices);
    SlicesSum(p);
  }

  lemma ShareOfNonNegative(x: real, rbr: real)
    requires x >= 0.0
    ensures Share(x, rbr) >= 0.0
  {
  }

  /** The demo debits (2500 + 1200 + 800 + 300 on RBR 96000, VRLJ 5000) leave
      91200 of RBR and a real remittance of 96200; the debits are 5% of RBR. */
  lemma BreakdownExample()
    ensures var form := FormData(100000.0, 4000.0, 70000.0, 5000.0,
                                 map[PromocoesKey := 2500.0, TaxasComissoesKey := 1200.0,
                                     ServicosLogisticosKey := 800.0, OutrosValoresKey := 300.0],
                                 "", "demo-tenant");
            var b := ComputeBreakdown(form, CalculatedData(96000.0, 75000.0, 78.125, 21.875, 21000.0, None));
            b.analysis.debitosDetalhados == 4800.0 && b.analysis.rbrPosDebitos == 91200.0 &&
            b.analysis.repasseLiquidoReal == 96200.0 && b.analysis.percentuais.totalDebitos == 5.0 &&
            !b.hasRbrError && !b.hasDebitosError && |b.pieData| == 4
  {
    var form := FormData(100000.0, 4000.0, 70000.0, 5000.0,
                         map[PromocoesKey := 2500.0, TaxasComissoesKey := 1200.0,
                             ServicosLogisticosKey := 800.0, OutrosValoresKey := 300.0],
                         "", "demo-tenant");
    var b := ComputeBreakdown(form, CalculatedData(96000.0, 75000.0, 78.125, 21.875, 21000.0, None));
    CategoriesReadTheirKeys(form, CalculatedData(96000.0, 75000.0, 78.125, 21.875, 21000.0, None));
    var slices := CategorySlices(b.analysis.percentuais);
    assert forall i :: 0 <= i < |slices| ==> IsVisible(slices[i]);
    FilterKeepsAll(slices, IsVisible);
  }
}

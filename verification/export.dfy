/** `handleExport` of src/components/Dashboard.tsx: one 22-column row per
    saved analysis, handed to the CSV writer; and the fact that its eight
    detailed-analysis columns are always 0, because no handler ever stores a
    detailed analysis. */
module Export {
  import opened Wrappers
  import opened Types
  import opened Text
  import opened Csv
  import opened Detailed
  import opened Store
  import opened Dashboard

  /** The column names, in the order the row object lists them. */
  const ExportKeys: seq<string> := [
    "periodo", "vbv", "valoresPagosCliente", "rbr", "vrl", "vrlj", "rol",
    "rentabilidadeLiquida", "retencaoIfoodPercentual", "valorRetidoIfood",
    "promocoes", "taxasComissoes", "servicosLogisticos", "outrosValores",
    "debitosDetalhados", "rbrPosDebitos", "repasseLiquidoReal",
    "percentualPromocoes", "percentualTaxasComissoes", "percentualServicosLogisticos",
    "percentualOutrosValores", "percentualTotalDebitos"]

  /** The first of the four category columns and the keys they read. */
  const FirstCategoryColumn := 10
  const CategoryKeys := [PromocoesKey, TaxasComissoesKey, ServicosLogisticosKey, OutrosValoresKey]

  /** The first of the eight columns read from `detailedAnalysis`. */
  const FirstDetailColumn := 14

  /** `detailedAnalysis?.…  || 0` for the eight detail columns. */
  function DetailCells(c: CalculatedData): (r: seq<real>)
    ensures |r| == 8
    ensures c.detailedAnalysis.None? ==> forall j :: 0 <= j < 8 ==> r[j] == 0.0
  {
    match c.detailedAnalysis
    case None => [0.0, 0.0, 0.0, 0.0, 0.0, 0.0, 0.0, 0.0]
    case Some(d) =>
      [d.debitosDetalhados, d.rbrPosDebitos, d.repasseLiquidoReal,
       d.percentuais.promocoes, d.percentuais.taxasComissoes,
       d.percentuais.servicosLogisticos, d.percentuais.outrosValores,
       d.percentuais.totalDebitos]
  }

  /** The period, the four inputs and the five KPIs of a record. */
  function RecordFields(a: AnalysisData): (fs: seq<Field>)
    ensures |fs| == FirstCategoryColumn
    ensures forall j :: 0 <= j < |fs| ==> fs[j].key == ExportKeys[j]
    ensures fs[0].cell == Txt(a.formData.periodo)
    ensures fs[1].cell == Num(a.formData.vbv) && fs[2].cell == Num(a.formData.valoresPagosCliente)
    ensures fs[3].cell == Num(a.calculatedData.rbr)
    ensures fs[4].cell == Num(a.formData.vrl) && fs[5].cell == Num(a.formData.vrlj)
    ensures fs[6].cell == Num(a.calculatedData.rol)
    ensures fs[7].cell == Num(a.calculatedData.rentabilidadeLiquida)
    ensures fs[8].cell == Num(a.calculatedData.retencaoIfoodPercentual)
    ensures fs[9].cell == Num(a.calculatedData.valorRetidoIfood)
  {
    var f := a.formData;
    var c := a.calculatedData;
    [Field("periodo", Txt(f.periodo)),
     Field("vbv", Num(f.vbv)),
     Field("valoresPagosCliente", Num(f.valoresPagosCliente)),
     Field("rbr", Num(c.rbr)),
     Field("vrl", Num(f.vrl)),
     Field("vrlj", Num(f.vrlj)),
     Field("rol", Num(c.rol)),
     Field("rentabilidadeLiquida", Num(c.rentabilidadeLiquida)),
     Field("retencaoIfoodPercentual", Num(c.retencaoIfoodPercentual)),
     Field("valorRetidoIfood", Num(c.valorRetidoIfood))]
  }

  /** `additionalValues.<category> || 0` for the four categories. */
  function CategoryFields(v: map<string, real>): (fs: seq<Field>)
    ensures |fs| == |CategoryKeys|
    ensures forall k :: 0 <= k < |fs| ==>
              fs[k] == Field(ExportKeys[FirstCategoryColumn + k],
                             Num(if CategoryKeys[k] in v then v[CategoryKeys[k]] else 0.0))
  {
    assert ExportKeys[FirstCategoryColumn..FirstDetailColumn] == CategoryKeys;
    seq(|CategoryKeys|, k requires 0 <= k < |CategoryKeys| =>
      Field(CategoryKeys[k], Num(ValueOrZero(v, CategoryKeys[k]))))
  }

  /** The eight columns read from `detailedAnalysis`. */
  function DetailFields(c: CalculatedData): (fs: seq<Field>)
    ensures |fs| == |ExportKeys| - FirstDetailColumn
    ensures forall j :: 0 <= j < |fs| ==>
              fs[j] == Field(ExportKeys[FirstDetailColumn + j], Num(DetailCells(c)[j]))
  {
    var details := DetailCells(c);
    seq(|ExportKeys| - FirstDetailColumn, j requires 0 <= j < |ExportKeys| - FirstDetailColumn =>
      Field(ExportKeys[FirstDetailColumn + j], Num(details[j])))
  }

  /** The export row of one analysis: every column under its fixed name,
      the record's own values first, a missing category as 0, then the
      detail values. */
  function ExportRow(a: AnalysisData): (row: Row)
    ensures |row| == |ExportKeys|
    ensures forall j :: 0 <= j < |row| ==> row[j].key == ExportKeys[j]
    ensures row[0].cell == Txt(a.formData.periodo)
    ensures row[1].cell == Num(a.formData.vbv) && row[2].cell == Num(a.formData.valoresPagosCliente)
    ensures row[3].cell == Num(a.calculatedData.rbr)
    ensures row[4].cell == Num(a.formData.vrl) && row[5].cell == Num(a.formData.vrlj)
    ensures row[6].cell == Num(a.calculatedData.rol)
    ensures row[7].cell == Num(a.calculatedData.rentabilidadeLiquida)
    ensures row[8].cell == Num(a.calculatedData.retencaoIfoodPercentual)
    ensures row[9].cell == Num(a.calculatedData.valorRetidoIfood)
    ensures forall k :: 0 <= k < |CategoryKeys| ==>
              var v := a.formData.additionalValues;
              row[FirstCategoryColumn + k].cell ==
                Num(if CategoryKeys[k] in v then v[CategoryKeys[k]] else 0.0)
    ensures forall j :: FirstDetailColumn <= j < |row| ==>
              row[j].cell == Num(DetailCells(a.calculatedData)[j - FirstDetailColumn])
  {
    var head := RecordFields(a);
    var categories := CategoryFields(a.formData.additionalValues);
    var details := DetailFields(a.calculatedData);
    var row := head + categories + details;
    assert forall j :: 0 <= j < FirstCategoryColumn ==> row[j] == head[j];
    assert forall j :: FirstCategoryColumn <= j < FirstDetailColumn ==>
             row[j] == categories[j - FirstCategoryColumn];
    assert forall j :: FirstDetailColumn <= j < |row| ==> row[j] == details[j - FirstDetailColumn];
    row
  }

  function ExportRows(saved: seq<AnalysisData>): (rows: seq<Row>)
    ensures |rows| == |saved|
    ensures forall i :: 0 <= i < |saved| ==> rows[i] == ExportRow(saved[i])
  {
    seq(|saved|, i requires 0 <= i < |saved| => ExportRow(saved[i]))
  }

  /** Nothing for an empty list; otherwise the CSV text of the rows, in
      stored order, under the fixed header. */
  function HandleExport(saved: seq<AnalysisData>, show: real -> string): (r: Option<string>)
    ensures r.None? <==> |saved| == 0
  {
    if |saved| == 0 then None else Some(ExportToCsv(ExportRows(saved), show))
  }

  /** The header line is the fixed column list, and there is one line per
      saved analysis after it. */
  lemma ExportLayout(saved: seq<AnalysisData>, show: real -> string)
    requires |saved| > 0
    ensures Headers(ExportRows(saved)) == ExportKeys
    ensures HandleExport(saved, show) == Some(Join(Lines(ExportRows(saved), show), LineSeparator))
    ensures |Lines(ExportRows(saved), show)| == |saved| + 1
    ensures Lines(ExportRows(saved), show)[0] == Join(ExportKeys, FieldSeparator)
  {
    var rows := ExportRows(saved);
    assert Keys(rows[0]) == ExportKeys;
  }

  /** No record carries a detailed analysis. */
  predicate NoDetail(xs: seq<AnalysisData>) {
    forall i :: 0 <= i < |xs| ==> xs[i].calculatedData.detailedAnalysis.None?
  }

  /** Neither the shown results, the shown list nor any stored list carries
      a detailed analysis. */
  predicate NoDetailAnywhere(x: Effect) {
    && (x.state.calculatedData.Some? ==> x.state.calculatedData.value.detailedAnalysis.None?)
    && NoDetail(x.state.savedAnalyses)
    && forall k :: k in x.store && x.store[k].Parsed? ==> NoDetail(x.store[k].items)
  }

  /** Whatever exports a list without detailed analyses shows 0 in all eight
      detail columns. */
  lemma ExportedDetailsAreZero(saved: seq<AnalysisData>)
    requires NoDetail(saved)
    ensures forall i, j :: 0 <= i < |saved| && FirstDetailColumn <= j < |ExportKeys| ==>
              ExportRows(saved)[i][j].cell == Num(0.0)
  {
  }

  /** The user actions the dashboard reacts to. */
  datatype Event =
    | TypeInput(field: NumericField, text: string)
    | TypeCategory(category: string, text: string)
    | SetAdditional(name: string, value: real)
    | Calculate
    | Save(user: User, id: string, timestamp: string)
    | Delete(tenantId: string, analysisId: string)
    | Load(tenantId: string)
    | LoadDemo(user: User, periodo: string)
    | PickStart(date: string)
    | PickEnd(date: string)
    | Clear(user: User, month: string, today: string)

  function Step(x: Effect, e: Event): Effect {
    match e
    case TypeInput(field, text) => x.(state := HandleInputChange(x.state, field, text))
    case TypeCategory(category, text) => x.(state := DetailedInputChange(x.state, category, text))
    case SetAdditional(name, value) => x.(state := HandleAdditionalValueChange(x.state, name, value))
    case Calculate => x.(state := HandleCalculate(x.state))
    case Save(user, id, timestamp) => HandleSave(x.state, user, id, timestamp, x.store)
    case Delete(tenantId, analysisId) => HandleDeleteAnalysis(x.state, tenantId, analysisId, x.store)
    case Load(tenantId) => x.(state := LoadAnalysisData(x.state, tenantId, x.store))
    case LoadDemo(user, periodo) => x.(state := LoadTestData(x.state, user, periodo))
    case PickStart(date) => x.(state := SetStartDate(x.state, date))
    case PickEnd(date) => x.(state := SetEndDate(x.state, date))
    case Clear(user, month, today) => x.(state := HandleClear(x.state, user, month, today))
  }

  function Run(x: Effect, events: seq<Event>): Effect
    decreases |events|
  {
    if |events| == 0 then x else Run(Step(x, events[0]), events[1..])
  }

  /** Every handler keeps the absence of detailed analyses. */
  lemma StepKeepsNoDetail(x: Effect, e: Event)
    requires NoDetailAnywhere(x)
    ensures NoDetailAnywhere(Step(x, e))
  {
    match e
    case Save(user, id, timestamp) =>
      SaveKeepsNoDetail(x, user, id, timestamp);
    case Delete(tenantId, analysisId) =>
      DeleteKeepsNoDetail(x, tenantId, analysisId);
    case _ =>
  }

  lemma SaveKeepsNoDetail(x: Effect, user: User, id: string, timestamp: string)
    requires NoDetailAnywhere(x)
    ensures NoDetailAnywhere(HandleSave(x.state, user, id, timestamp, x.store))
  {
    if CanSave(x.state) {
      var before := TolerantRead(x.store, StorageKey(user.tenantId));
      var r := HandleSave(x.state, user, id, timestamp, x.store);
      assert r.state.savedAnalyses == before + [NewRecord(x.state, user, id, timestamp)];
    }
  }

  lemma DeleteKeepsNoDetail(x: Effect, tenantId: string, analysisId: string)
    requires NoDetailAnywhere(x)
    ensures NoDetailAnywhere(HandleDeleteAnalysis(x.state, tenantId, analysisId, x.store))
  {
    if analysisId != "" {
      DeleteRemovesExactlyTheId(x.state, tenantId, analysisId, x.store);
      var kept := HandleDeleteAnalysis(x.state, tenantId, analysisId, x.store).state.savedAnalyses;
      assert forall i :: 0 <= i < |kept| ==> kept[i] in x.state.savedAnalyses;
    }
  }

  lemma {:induction false} RunKeepsNoDetail(x: Effect, events: seq<Event>)
    requires NoDetailAnywhere(x)
    ensures NoDetailAnywhere(Run(x, events))
    decreases |events|
  {
    if |events| > 0 {
      StepKeepsNoDetail(x, events[0]);
      RunKeepsNoDetail(Step(x, events[0]), events[1..]);
    }
  }

  /** From a fresh dashboard over storage without detailed analyses, after
      any sequence of the modelled user actions (the cases of `Event`), every
      exported row shows 0 in the eight detail columns. */
  lemma ExportedAggregatesAreAlwaysZero(x: Effect, events: seq<Event>)
    requires x.state.calculatedData.None? && x.state.savedAnalyses == []
    requires forall k :: k in x.store && x.store[k].Parsed? ==> NoDetail(x.store[k].items)
    ensures var saved := Run(x, events).state.savedAnalyses;
            forall i, j :: 0 <= i < |saved| && FirstDetailColumn <= j < |ExportKeys| ==>
              ExportRows(saved)[i][j].cell == Num(0.0)
  {
    RunKeepsNoDetail(x, events);
    ExportedDetailsAreZero(Run(x, events).state.savedAnalyses);
  }
}

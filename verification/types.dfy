/** The records the calculator passes around (src/lib/types.ts). Money and
    percentages are `real`; percentages are in 0–100 units. */
module Types {
  import opened Wrappers

  datatype Role = Owner | Manager | Viewer

  /** The signed-in user; only `id` and `tenantId` matter to the core. */
  datatype User = User(id: string, email: string, name: string, tenantId: string,
                       role: Role, createdAt: string)

  /** The four inputs of a period plus context. `additionalValues` holds the
      detailed debit categories keyed by name. */
  datatype FormData = FormData(
    vbv: real,                          // gross sales
    valoresPagosCliente: real,          // paid by the customer, forwarded to the platform
    vrl: real,                          // net remittance from the platform
    vrlj: real,                         // received directly by the store
    additionalValues: map<string, real>,
    periodo: string,
    tenantId: string)

  /** Each debit category and the total, as a share of RBR. */
  datatype Percentuais = Percentuais(
    promocoes: real,
    taxasComissoes: real,
    servicosLogisticos: real,
    outrosValores: real,
    totalDebitos: real)

  datatype DetailedAnalysisData = DetailedAnalysisData(
    promocoes: real,
    taxasComissoes: real,
    servicosLogisticos: real,
    outrosValores: real,
    debitosDetalhados: real,
    rbrPosDebitos: real,
    repasseLiquidoReal: real,
    percentuais: Percentuais)

  /** The five KPIs, and the optional detailed breakdown. */
  datatype CalculatedData = CalculatedData(
    rbr: real,                          // real gross revenue
    rol: real,                          // net operating revenue
    rentabilidadeLiquida: real,
    retencaoIfoodPercentual: real,
    valorRetidoIfood: real,
    detailedAnalysis: Option<DetailedAnalysisData>)

  /** A saved snapshot of one period. */
  datatype AnalysisData = AnalysisData(
    id: string,
    formData: FormData,
    calculatedData: CalculatedData,
    timestamp: string,
    userId: string,
    tenantId: string)

  datatype ValidationError = ValidationError(field: string, message: string)

  datatype ValidationResult = ValidationResult(
    isValid: bool,
    errors: seq<ValidationError>,
    warnings: seq<string>)

  /** `values[key] || 0`: a missing entry reads as 0. */
  function ValueOrZero(values: map<string, real>, key: string): (r: real)
    ensures key in values ==> r == values[key]
    ensures key !in values ==> r == 0.0
  {
    if key in values then values[key] else 0.0
  }
}

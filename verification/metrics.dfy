/** `calculateMetrics`, `validateFormData` and `generateTestData` of
    src/lib/utils.ts. The source coerces each input with `Number(x) || 0`;
    inputs here are already numbers, so the coercion is the identity. */
module Metrics {
  import opened Wrappers
  import opened Types

  /** The five KPIs of a period. The profitability share is guarded: it is 0
      unless RBR is positive, so no division by zero can happen. */
  function CalculateMetrics(data: FormData): (r: CalculatedData)
    ensures r.rbr == data.vbv - data.valoresPagosCliente
    ensures r.rol == data.vrl + data.vrlj
    ensures r.valorRetidoIfood == r.rbr - r.rol
    ensures r.rentabilidadeLiquida + r.retencaoIfoodPercentual == 100.0
    ensures r.rbr <= 0.0 ==> r.rentabilidadeLiquida == 0.0 && r.retencaoIfoodPercentual == 100.0
    ensures r.rbr > 0.0 ==> r.rentabilidadeLiquida * r.rbr == r.rol * 100.0
    ensures r.rbr > 0.0 ==> r.retencaoIfoodPercentual * r.rbr == r.valorRetidoIfood * 100.0
    ensures r.detailedAnalysis == None
  {
    var rbr := data.vbv - data.valoresPagosCliente;
    var rol := data.vrl + data.vrlj;
    var rentabilidadeLiquida := if rbr > 0.0 then (rol / rbr) * 100.0 else 0.0;
    CalculatedData(
      rbr,
      rol,
      rentabilidadeLiquida,
      100.0 - rentabilidadeLiquida,
      rbr - rol,
      None)
  }

  const VbvField := "vbv"
  const PaidByCustomerField := "valoresPagosCliente"
  const BaseField := "base"

  const VbvMessage := "VBV deve ser maior que zero."
  const PaidByCustomerMessage := "Valores pagos pelo cliente não pode ser negativo."
  const BaseMessage := "Receita Bruta Real (VBV - valores pagos) deve ser positiva."
  const RolWarning := "ROL maior do que a Receita Bruta Real. Revise os números."

  /** The position of each error field in the validator's fixed order. */
  function FieldRank(field: string): nat {
    if field == VbvField then 0 else if field == PaidByCustomerField then 1 else 2
  }

  /** The message the validator attaches to an error on `field`. */
  function MessageFor(field: string): string {
    if field == VbvField then VbvMessage
    else if field == PaidByCustomerField then PaidByCustomerMessage
    else BaseMessage
  }

  function ErrorFields(errors: seq<ValidationError>): (fields: seq<string>)
    ensures |fields| == |errors|
    ensures forall i :: 0 <= i < |errors| ==> fields[i] == errors[i].field
  {
    seq(|errors|, i requires 0 <= i < |errors| => errors[i].field)
  }

  function ErrorIf(condition: bool, field: string): seq<ValidationError> {
    if condition then [ValidationError(field, MessageFor(field))] else []
  }

  function FieldIf(condition: bool, field: string): seq<string> {
    if condition then [field] else []
  }

  /** The errors of the three rules, in rule order. */
  function RuleErrors(c0: bool, c1: bool, c2: bool): seq<ValidationError> {
    ErrorIf(c0, VbvField) + ErrorIf(c1, PaidByCustomerField) + ErrorIf(c2, BaseField)
  }

  lemma ErrorFieldsOfRules(c0: bool, c1: bool, c2: bool)
    ensures ErrorFields(RuleErrors(c0, c1, c2))
            == FieldIf(c0, VbvField) + FieldIf(c1, PaidByCustomerField) + FieldIf(c2, BaseField)
  {
  }

  /** Every rule error is on one of the three checked fields and carries that
      field's message. */
  lemma RuleErrorsAreKnown(c0: bool, c1: bool, c2: bool)
    ensures forall i :: 0 <= i < |RuleErrors(c0, c1, c2)| ==>
              RuleErrors(c0, c1, c2)[i].field in [VbvField, PaidByCustomerField, BaseField] &&
              RuleErrors(c0, c1, c2)[i].message == MessageFor(RuleErrors(c0, c1, c2)[i].field)
  {
  }

  /** Rule errors come in rule order. */
  lemma RuleErrorsAreOrdered(c0: bool, c1: bool, c2: bool)
    ensures forall i, j :: 0 <= i < j < |RuleErrors(c0, c1, c2)| ==>
              FieldRank(RuleErrors(c0, c1, c2)[i].field) < FieldRank(RuleErrors(c0, c1, c2)[j].field)
  {
  }

  /** The three error rules and the one warning rule, all evaluated, in
      order. Validity means there is no error; the warning never affects it. */
  function ValidateFormData(data: FormData): (r: ValidationResult)
    ensures r.isValid <==> |r.errors| == 0
    ensures r.isValid <==>
              data.vbv > 0.0 && data.valoresPagosCliente >= 0.0 &&
              data.vbv - data.valoresPagosCliente > 0.0
    ensures forall i :: 0 <= i < |r.errors| ==>
              r.errors[i].field in [VbvField, PaidByCustomerField, BaseField]
    ensures forall i, j :: 0 <= i < j < |r.errors| ==>
              FieldRank(r.errors[i].field) < FieldRank(r.errors[j].field)
    ensures VbvField in ErrorFields(r.errors) <==> data.vbv <= 0.0
    ensures PaidByCustomerField in ErrorFields(r.errors) <==> data.valoresPagosCliente < 0.0
    ensures BaseField in ErrorFields(r.errors) <==> data.vbv - data.valoresPagosCliente <= 0.0
    ensures forall i :: 0 <= i < |r.errors| ==> r.errors[i].message == MessageFor(r.errors[i].field)
    ensures r.warnings == if data.vrl + data.vrlj > data.vbv - data.valoresPagosCliente
                          then [RolWarning] else []
  {
    var vbv := data.vbv;
    var vpc := data.valoresPagosCliente;
    var rbr := vbv - vpc;
    var rol := data.vrl + data.vrlj;
    var errors := RuleErrors(vbv <= 0.0, vpc < 0.0, rbr <= 0.0);
    var warnings := if rol > rbr then [RolWarning] else [];
    ErrorFieldsOfRules(vbv <= 0.0, vpc < 0.0, rbr <= 0.0);
    RuleErrorsAreKnown(vbv <= 0.0, vpc < 0.0, rbr <= 0.0);
    RuleErrorsAreOrdered(vbv <= 0.0, vpc < 0.0, rbr <= 0.0);
    ValidationResult(|errors| == 0, errors, warnings)
  }

  /** Validation looks at the net figures only for the warning: two forms
      that agree on the gross figures get the same verdict and errors. */
  lemma WarningsNeverAffectValidity(a: FormData, b: FormData)
    requires a.vbv == b.vbv && a.valoresPagosCliente == b.valoresPagosCliente
    ensures ValidateFormData(a).isValid == ValidateFormData(b).isValid
    ensures ValidateFormData(a).errors == ValidateFormData(b).errors
  {
  }

  /** On a valid form the profitability share is the plain ratio ROL/RBR. */
  lemma ValidFormHasProfitabilityRatio(data: FormData)
    requires ValidateFormData(data).isValid
    ensures CalculateMetrics(data).rbr > 0.0
    ensures CalculateMetrics(data).rentabilidadeLiquida ==
            CalculateMetrics(data).rol / CalculateMetrics(data).rbr * 100.0
  {
  }

  /** The demo inputs under the demo tenant; the period is the current month,
      taken as a parameter. */
  function GenerateTestData(periodo: string): (r: FormData)
    ensures r.vbv == 100000.0 && r.valoresPagosCliente == 4000.0
    ensures r.vrl == 70000.0 && r.vrlj == 5000.0
    ensures r.periodo == periodo && r.additionalValues == map[]
    ensures r.tenantId == "demo-tenant"
  {
    FormData(100000.0, 4000.0, 70000.0, 5000.0, map[], periodo, "demo-tenant")
  }

  /** The demo inputs give RBR 96000, ROL 75000, 78.125% profitability,
      21.875% retention and 21000 retained, and validate cleanly. */
  lemma TestDataScenario(periodo: string)
    ensures CalculateMetrics(GenerateTestData(periodo)) ==
            CalculatedData(96000.0, 75000.0, 78.125, 21.875, 21000.0, None)
    ensures ValidateFormData(GenerateTestData(periodo)) == ValidationResult(true, [], [])
  {
  }
}

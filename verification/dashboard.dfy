/** The event handlers of src/components/Dashboard.tsx, each a pure
    function from the component state (and, where it touches storage, the
    storage map) to the next state. Ids and timestamps come from the clock in
    the source; here they are parameters. */
module Dashboard {
  import opened Wrappers
  import opened Seqs
  import opened Text
  import opened Types
  import opened Normalize
  import opened Metrics
  import opened Store

  /** The component state that the handlers read and write. */
  datatype State = State(
    formData: FormData,
    calculatedData: Option<CalculatedData>,
    validation: Option<ValidationResult>,
    savedAnalyses: seq<AnalysisData>,
    showResults: bool,
    startDate: string,
    endDate: string)

  /** The state and the storage after a handler that may write storage. */
  datatype Effect = Effect(state: State, store: Storage)

  /** The list read on mount: a parsed array replaces the list, anything else
      stored empties it, and an absent key leaves it as it was. */
  function LoadAnalysisData(st: State, tenantId: string, store: Storage): (r: State)
    ensures r == st.(savedAnalyses := r.savedAnalyses)
    ensures StorageKey(tenantId) !in store ==> r == st
    ensures var key := StorageKey(tenantId);
            key in store ==> r.savedAnalyses == if store[key].Parsed? then store[key].items else []
  {
    var key := StorageKey(tenantId);
    if key !in store then st
    else match store[key]
      case Parsed(items) => st.(savedAnalyses := items)
      case _ => st.(savedAnalyses := [])
  }

  /** The four numeric inputs of the form. */
  datatype NumericField = Vbv | ValoresPagosCliente | Vrl | Vrlj

  function Get(f: FormData, field: NumericField): real {
    match field
    case Vbv => f.vbv
    case ValoresPagosCliente => f.valoresPagosCliente
    case Vrl => f.vrl
    case Vrlj => f.vrlj
  }

  /** The form with one numeric field replaced. */
  function Set(f: FormData, field: NumericField, x: real): (g: FormData)
    ensures Get(g, field) == x
    ensures forall h :: h != field ==> Get(g, h) == Get(f, h)
    ensures g.additionalValues == f.additionalValues
    ensures g.periodo == f.periodo && g.tenantId == f.tenantId
  {
    match field
    case Vbv => f.(vbv := x)
    case ValoresPagosCliente => f.(valoresPagosCliente := x)
    case Vrl => f.(vrl := x)
    case Vrlj => f.(vrlj := x)
  }

  /** The typed text of one numeric input, normalised into that field; the
      rest of the form and of the state is unchanged. */
  function HandleInputChange(st: State, field: NumericField, text: string): (r: State)
    ensures r == st.(formData := r.formData)
  {
    st.(formData := Set(st.formData, field, NormalizeNumber(Str(text))))
  }

  /** The edited field holds the normalised text and every other input keeps
      its value. */
  lemma InputChangeSetsOnlyItsField(st: State, field: NumericField, text: string)
    ensures var f := HandleInputChange(st, field, text).formData;
            && Get(f, field) == NormalizeNumber(Str(text))
            && (forall h :: h != field ==> Get(f, h) == Get(st.formData, h))
            && f.additionalValues == st.formData.additionalValues
            && f.periodo == st.formData.periodo
  {
    var x := NormalizeNumber(Str(text));
    assert HandleInputChange(st, field, text).formData == Set(st.formData, field, x);
  }

  const AdditionalPrefix := "additionalValues."

  /** `field.includes('additionalValues.') ? field.split('.')[1] : field`;
      an absent second segment is JavaScript's `undefined`, which becomes
      the key "undefined". */
  function AdditionalFieldName(field: string): (name: string)
    ensures !Contains(field, AdditionalPrefix) ==> name == field
  {
    if Contains(field, AdditionalPrefix) then
      var parts := Split(field, ".");
      if |parts| > 1 then parts[1] else "undefined"
    else field
  }

  /** A prefixed name `additionalValues.k` names the category `k`. */
  lemma PrefixedFieldName(k: string)
    requires '.' !in k
    ensures AdditionalFieldName(AdditionalPrefix + k) == k
  {
    var field := AdditionalPrefix + k;
    assert field == "additionalValues" + "." + k;
    assert StartsWith(field, AdditionalPrefix);
    assert Contains(field, AdditionalPrefix);
    assert '.' !in "additionalValues";
    SplitJoin(["additionalValues", k], ".");
    assert ["additionalValues", k][1..] == [k];
    assert Join(["additionalValues", k], ".") == field;
  }

  /** Sets one entry of `additionalValues`; nothing else changes. */
  function HandleAdditionalValueChange(st: State, field: string, value: real): (r: State)
    ensures var name := AdditionalFieldName(field);
            name in r.formData.additionalValues && r.formData.additionalValues[name] == value
    ensures forall k :: k != AdditionalFieldName(field) ==>
              (k in r.formData.additionalValues <==> k in st.formData.additionalValues) &&
              (k in st.formData.additionalValues ==>
                 r.formData.additionalValues[k] == st.formData.additionalValues[k])
    ensures r == st.(formData := st.formData.(additionalValues := r.formData.additionalValues))
  {
    var name := AdditionalFieldName(field);
    st.(formData := st.formData.(additionalValues := st.formData.additionalValues[name := value]))
  }

  /** The breakdown's own input handler: the text of category `field` is
      normalised and passed up under `additionalValues.<field>`. */
  function DetailedInputChange(st: State, field: string, text: string): (r: State)
    ensures var name := AdditionalFieldName(AdditionalPrefix + field);
            name in r.formData.additionalValues &&
            r.formData.additionalValues[name] == NormalizeNumber(Str(text))
    ensures forall k :: k != AdditionalFieldName(AdditionalPrefix + field) ==>
              (k in r.formData.additionalValues <==> k in st.formData.additionalValues) &&
              (k in st.formData.additionalValues ==>
                 r.formData.additionalValues[k] == st.formData.additionalValues[k])
    ensures r == st.(formData := st.formData.(additionalValues := r.formData.additionalValues))
  {
    HandleAdditionalValueChange(st, AdditionalPrefix + field, NormalizeNumber(Str(text)))
  }

  /** A category typed in the breakdown lands under its own key. */
  lemma DetailedInputSetsCategory(st: State, field: string, text: string)
    requires '.' !in field
    ensures var values := DetailedInputChange(st, field, text).formData.additionalValues;
            field in values && values[field] == NormalizeNumber(Str(text))
    ensures forall k :: k != field ==>
              var values := DetailedInputChange(st, field, text).formData.additionalValues;
              (k in values <==> k in st.formData.additionalValues) &&
              (k in values ==> values[k] == st.formData.additionalValues[k])
  {
    PrefixedFieldName(field);
  }

  /** The breakdown's own example amount `"2.500,00"` keeps its thousands
      point and is stored as 2.5. */
  lemma TypedThousandsAreShrunk(st: State)
    ensures var values := DetailedInputChange(st, "promocoes", "2.500,00").formData.additionalValues;
            "promocoes" in values && values["promocoes"] == 2.5
  {
    DetailedInputSetsCategory(st, "promocoes", "2.500,00");
    ExampleAmountReadsAsTwoAndAHalf();
  }

  /** Validates the form; on success stores fresh results and shows them. A
      failed validation keeps the previous results but records the failure. */
  function HandleCalculate(st: State): (r: State)
    ensures r.validation == Some(ValidateFormData(st.formData))
    ensures r.validation.value.isValid ==>
              r.calculatedData == Some(CalculateMetrics(st.formData)) && r.showResults
    ensures !r.validation.value.isValid ==>
              r.calculatedData == st.calculatedData && r.showResults == st.showResults
    ensures r.formData == st.formData && r.savedAnalyses == st.savedAnalyses
    ensures r.startDate == st.startDate && r.endDate == st.endDate
  {
    var v := ValidateFormData(st.formData);
    if v.isValid then
      st.(validation := Some(v), calculatedData := Some(CalculateMetrics(st.formData)), showResults := true)
    else
      st.(validation := Some(v))
  }

  const PeriodSeparator := " até "

  /** Saving is allowed once there are results and the last validation passed. */
  predicate CanSave(st: State) {
    st.calculatedData.Some? && st.validation.Some? && st.validation.value.isValid
  }

  /** The record a save appends: the current form with the chosen date range
      as its period, the current results, and the user's ids. */
  function NewRecord(st: State, user: User, id: string, timestamp: string): (a: AnalysisData)
    requires st.calculatedData.Some?
    ensures a.formData == st.formData.(periodo := st.startDate + PeriodSeparator + st.endDate)
    ensures a.calculatedData == st.calculatedData.value
    ensures a.userId == user.id && a.tenantId == user.tenantId
    ensures a.id == id && a.timestamp == timestamp
  {
    AnalysisData(id, st.formData.(periodo := st.startDate + PeriodSeparator + st.endDate),
                 st.calculatedData.value, timestamp, user.id, user.tenantId)
  }

  /** The handler's own read of the stored list: anything that is not a
      parsed array counts as the empty list instead of failing. */
  function TolerantRead(store: Storage, key: string): (r: seq<AnalysisData>)
    ensures ReadList(store, key).Ok? ==> r == ReadList(store, key).value
    ensures ReadList(store, key).Err? ==> r == []
  {
    if key in store && store[key].Parsed? then store[key].items else []
  }

  /** Appends the new record to the tenant's stored list, writes the list
      back and shows it. Without results or with a failed validation nothing
      happens. */
  function HandleSave(st: State, user: User, id: string, timestamp: string, store: Storage): (r: Effect)
    ensures !CanSave(st) ==> r == Effect(st, store)
    ensures CanSave(st) ==>
              var key := StorageKey(user.tenantId);
              && r.state == st.(savedAnalyses := TolerantRead(store, key) + [NewRecord(st, user, id, timestamp)])
              && key in r.store && r.store[key] == Parsed(r.state.savedAnalyses)
              && forall k :: k != key ==>
                   (k in r.store <==> k in store) && (k in store ==> r.store[k] == store[k])
  {
    if !CanSave(st) then Effect(st, store)
    else
      var key := StorageKey(user.tenantId);
      var analyses := TolerantRead(store, key) + [NewRecord(st, user, id, timestamp)];
      Effect(st.(savedAnalyses := analyses), store[key := Parsed(analyses)])
  }

  /** On readable storage the handler writes what the library's append
      writes; on a corrupt blob the library throws while the handler
      replaces the blob by a one-record list. */
  lemma HandleSaveAgreesWithLibrary(st: State, user: User, id: string, timestamp: string, store: Storage)
    requires CanSave(st)
    ensures var a := NewRecord(st, user, id, timestamp);
            var lib := SaveAnalysisData(store, a);
            var r := HandleSave(st, user, id, timestamp, store);
            && (lib.Ok? ==> r.store == lib.value)
            && (lib.Err? ==> r.store == store[StorageKey(user.tenantId) := Parsed([a])])
  {
    var a := NewRecord(st, user, id, timestamp);
    var r := HandleSave(st, user, id, timestamp, store);
    var lib := SaveAnalysisData(store, a);
    if lib.Ok? {
      assert r.store == store[StorageKey(user.tenantId) := Parsed(ReadList(store, StorageKey(user.tenantId)).value + [a])];
    } else {
      assert [] + [a] == [a];
    }
  }

  /** Saving after an edit stores the edited form next to the results of the
      earlier calculation: nothing ties the saved results to the saved form. */
  lemma SaveAfterEditKeepsOldResults(user: User)
    ensures var st0 := State(GenerateTestData(""), None, None, [], false, "2024-01-01", "2024-01-31");
            var st1 := HandleCalculate(st0);
            var st2 := st1.(formData := st1.formData.(vbv := 200000.0));
            var saved := HandleSave(st2, user, "1", "t", map[]).state.savedAnalyses;
            |saved| == 1 &&
            saved[0].formData.vbv == 200000.0 &&
            saved[0].calculatedData.rbr == 96000.0 &&
            CalculateMetrics(saved[0].formData).rbr == 196000.0
  {
    TestDataScenario("");
  }

  function NotId(analysisId: string): AnalysisData -> bool {
    (a: AnalysisData) => a.id != analysisId
  }

  /** Removes every record with the given id from the shown list and writes
      the shown list over the tenant's stored one. An empty id does nothing. */
  function HandleDeleteAnalysis(st: State, tenantId: string, analysisId: string, store: Storage): (r: Effect)
    ensures analysisId == "" ==> r == Effect(st, store)
    ensures analysisId != "" ==>
              && r.state == st.(savedAnalyses := r.state.savedAnalyses)
              && |r.state.savedAnalyses| <= |st.savedAnalyses|
              && r.store == store[StorageKey(tenantId) := Parsed(r.state.savedAnalyses)]
  {
    if analysisId == "" then Effect(st, store)
    else
      var updated := Filter(st.savedAnalyses, NotId(analysisId));
      Effect(st.(savedAnalyses := updated), store[StorageKey(tenantId) := Parsed(updated)])
  }

  /** Exactly the records with another id stay, each as often as before and
      in the same relative order. */
  lemma DeleteRemovesExactlyTheId(st: State, tenantId: string, analysisId: string, store: Storage)
    requires analysisId != ""
    ensures var kept := HandleDeleteAnalysis(st, tenantId, analysisId, store).state.savedAnalyses;
            && (forall a :: a in kept <==> a in st.savedAnalyses && a.id != analysisId)
            && (forall a :: multiset(kept)[a] == if a.id != analysisId then multiset(st.savedAnalyses)[a] else 0)
            && IsSubsequence(kept, st.savedAnalyses)
  {
    FilterSpec(st.savedAnalyses, NotId(analysisId));
    FilterIsSubsequence(st.savedAnalyses, NotId(analysisId));
    forall a: AnalysisData
      ensures multiset(Filter(st.savedAnalyses, NotId(analysisId)))[a] ==
              if a.id != analysisId then multiset(st.savedAnalyses)[a] else 0
    {
      FilterCounts(st.savedAnalyses, NotId(analysisId), a);
    }
  }

  /** Deleting an id no shown record carries leaves the list as it was. */
  lemma DeleteAbsentIdKeepsList(st: State, tenantId: string, analysisId: string, store: Storage)
    requires forall i :: 0 <= i < |st.savedAnalyses| ==> st.savedAnalyses[i].id != analysisId
    ensures HandleDeleteAnalysis(st, tenantId, analysisId, store).state == st
  {
    if analysisId != "" {
      FilterKeepsAll(st.savedAnalyses, NotId(analysisId));
    }
  }

  /** The `onClickCapture`, `onPointerDown` and `onKeyDown` handlers may all
      fire for one press: a repeated delete changes nothing further. */
  lemma DeleteIsIdempotent(st: State, tenantId: string, analysisId: string, store: Storage)
    ensures var once := HandleDeleteAnalysis(st, tenantId, analysisId, store);
            HandleDeleteAnalysis(once.state, tenantId, analysisId, once.store) == once
  {
    if analysisId != "" {
      FilterIdempotent(st.savedAnalyses, NotId(analysisId));
    }
  }

  /** A save appends to the tenant's stored list and shows the result. */
  lemma SaveOnto(st: State, user: User, id: string, timestamp: string, store: Storage, xs: seq<AnalysisData>)
    requires CanSave(st)
    requires var key := StorageKey(user.tenantId); (key !in store && xs == []) || (key in store && store[key] == Parsed(xs))
    ensures var r := HandleSave(st, user, id, timestamp, store);
            && r.state.savedAnalyses == xs + [NewRecord(st, user, id, timestamp)]
            && r.store[StorageKey(user.tenantId)] == Parsed(r.state.savedAnalyses)
            && CanSave(r.state)
            && NewRecord(r.state, user, id, timestamp) == NewRecord(st, user, id, timestamp)
  {
  }

  /** Two saves under different ids, then deleting the first, leave exactly
      the second record, both shown and stored. */
  lemma SaveTwiceThenDeleteFirst(st: State, user: User, id1: string, id2: string, t1: string, t2: string, store: Storage)
    requires CanSave(st) && id1 != "" && id1 != id2
    requires StorageKey(user.tenantId) !in store
    ensures var s1 := HandleSave(st, user, id1, t1, store);
            var s2 := HandleSave(s1.state, user, id2, t2, s1.store);
            var s3 := HandleDeleteAnalysis(s2.state, user.tenantId, id1, s2.store);
            && s2.state.savedAnalyses == [NewRecord(st, user, id1, t1), NewRecord(st, user, id2, t2)]
            && s3.state.savedAnalyses == [NewRecord(st, user, id2, t2)]
            && s3.store[StorageKey(user.tenantId)] == Parsed([NewRecord(st, user, id2, t2)])
  {
    var a := NewRecord(st, user, id1, t1);
    var b := NewRecord(st, user, id2, t2);
    var s1 := HandleSave(st, user, id1, t1, store);
    SaveOnto(st, user, id1, t1, store, []);
    assert s1.state.savedAnalyses == [a];
    SaveOnto(s1.state, user, id2, t2, s1.store, [a]);
    var s2 := HandleSave(s1.state, user, id2, t2, s1.store);
    assert s2.state.savedAnalyses == [a, b];
    DeleteFirstOfTwo(a, b, id1);
  }

  lemma DeleteFirstOfTwo(a: AnalysisData, b: AnalysisData, id: string)
    requires a.id == id && b.id != id
    ensures Filter([a, b], NotId(id)) == [b]
  {
    assert [a, b][1..] == [b];
    assert [b][1..] == [];
  }

  /** The start-date input: only the range's start changes. */
  function SetStartDate(st: State, date: string): (r: State)
    ensures r.startDate == date
    ensures r.(startDate := st.startDate) == st
  {
    st.(startDate := date)
  }

  /** The end-date input: only the range's end changes. */
  function SetEndDate(st: State, date: string): (r: State)
    ensures r.endDate == date
    ensures r.(endDate := st.endDate) == st
  {
    st.(endDate := date)
  }

  /** The clear button: an all-zero form for the current month under the
      user's tenant, no results, no validation, nothing shown, and both dates
      set to today. The saved list is kept. */
  function HandleClear(st: State, user: User, month: string, today: string): (r: State)
    ensures forall field :: Get(r.formData, field) == 0.0
    ensures r.formData.additionalValues == map[]
    ensures r.formData.periodo == month && r.formData.tenantId == user.tenantId
    ensures r.calculatedData.None? && r.validation.None? && !r.showResults
    ensures r.startDate == today && r.endDate == today
    ensures r.savedAnalyses == st.savedAnalyses
  {
    State(FormData(0.0, 0.0, 0.0, 0.0, map[], month, user.tenantId),
          None, None, st.savedAnalyses, false, today, today)
  }

  /** After clearing, saving does nothing until the form is calculated again. */
  lemma ClearedFormCannotBeSaved(st: State, user: User, month: string, today: string,
                                 saver: User, id: string, timestamp: string, store: Storage)
    ensures var cleared := HandleClear(st, user, month, today);
            HandleSave(cleared, saver, id, timestamp, store) == Effect(cleared, store)
  {
  }

  /** The demo button: the demo inputs under the user's own tenant. */
  function LoadTestData(st: State, user: User, periodo: string): (r: State)
    ensures r.formData.tenantId == user.tenantId
    ensures r.formData == GenerateTestData(periodo).(tenantId := user.tenantId)
    ensures r == st.(formData := r.formData)
  {
    st.(formData := GenerateTestData(periodo).(tenantId := user.tenantId))
  }

  /** Demo inputs, then calculate, then save into empty storage: the tenant's
      list holds one record with the demo results. */
  lemma DemoFlow(st: State, user: User, periodo: string, id: string, timestamp: string)
    ensures var st1 := HandleCalculate(LoadTestData(st, user, periodo));
            var r := HandleSave(st1, user, id, timestamp, map[]);
            && CanSave(st1)
            && StorageKey(user.tenantId) in r.store
            && r.store[StorageKey(user.tenantId)].Parsed?
            && |r.store[StorageKey(user.tenantId)].items| == 1
            && r.store[StorageKey(user.tenantId)].items[0].calculatedData ==
               CalculatedData(96000.0, 75000.0, 78.125, 21.875, 21000.0, None)
  {
    TestDataScenario(periodo);
  }
}

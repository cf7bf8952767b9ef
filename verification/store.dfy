/** The per-tenant analysis list kept in browser storage
    (`saveAnalysisData` and `getAnalysisDataByPeriod` of src/lib/utils.ts).
    Storage is a map from key to an already-decoded blob: a parsed array, a
    parsed value that is not an array, or text that is not JSON. A key
    holding the empty text reads as absent, so it is not a separate case. */
module Store {
  import opened Wrappers
  import opened Seqs
  import opened Text
  import opened Types

  datatype Blob = Parsed(items: seq<AnalysisData>) | NotArray | Unparseable

  type Storage = map<string, Blob>

  /** The exception a reader throws: `JSON.parse` on non-JSON text, or a
      list method called on a value that is not an array. */
  datatype StoreError = SyntaxError | TypeError

  const KeyPrefix := "ifood-analyses-"

  /** The storage key of a tenant's list. */
  function StorageKey(tenantId: string): (k: string)
    ensures StartsWith(k, KeyPrefix)
    ensures k[|KeyPrefix|..] == tenantId
  {
    KeyPrefix + tenantId
  }

  /** Different tenants never share a key. */
  lemma StorageKeyInjective(a: string, b: string)
    requires StorageKey(a) == StorageKey(b)
    ensures a == b
  {
    assert StorageKey(a)[|KeyPrefix|..] == a;
  }

  /** `JSON.parse(getItem(key) || "[]")` followed by an array method: an
      absent key is the empty list; a blob that is not an array throws. */
  function ReadList(store: Storage, key: string): (r: Result<seq<AnalysisData>, StoreError>)
    ensures key !in store ==> r == Ok([])
    ensures r.Ok? <==> key !in store || store[key].Parsed?
    ensures key in store && store[key].Parsed? ==> r == Ok(store[key].items)
  {
    if key !in store then Ok([])
    else match store[key]
      case Parsed(items) => Ok(items)
      case NotArray => Err(TypeError)
      case Unparseable => Err(SyntaxError)
  }

  /** Appends `analysis` to the list of its own tenant. Every other key is
      left as it was; a corrupt blob makes the call throw and write nothing. */
  function SaveAnalysisData(store: Storage, analysis: AnalysisData): (r: Result<Storage, StoreError>)
    ensures var key := StorageKey(analysis.tenantId);
            r.Ok? <==> key !in store || store[key].Parsed?
    ensures var key := StorageKey(analysis.tenantId);
            r.Ok? ==> key in r.value && r.value[key] == Parsed(ReadList(store, key).value + [analysis])
    ensures r.Ok? ==> forall k :: k != StorageKey(analysis.tenantId) ==>
              (k in r.value <==> k in store) && (k in store ==> r.value[k] == store[k])
  {
    var key := StorageKey(analysis.tenantId);
    match ReadList(store, key)
    case Ok(items) => Ok(store[key := Parsed(items + [analysis])])
    case Err(e) => Err(e)
  }

  /** `(a.formData?.periodo || "").includes(contains)`. */
  predicate PeriodContains(contains: string, a: AnalysisData) {
    Contains(a.formData.periodo, contains)
  }

  function Matcher(contains: string): AnalysisData -> bool {
    a => PeriodContains(contains, a)
  }

  /** The records of a tenant whose period contains `contains`, in stored
      order; a corrupt blob makes the call throw. */
  function GetAnalysisDataByPeriod(store: Storage, tenantId: string, contains: string)
    : (r: Result<seq<AnalysisData>, StoreError>)
    ensures r.Ok? <==> ReadList(store, StorageKey(tenantId)).Ok?
    ensures r.Ok? ==> |r.value| <= |ReadList(store, StorageKey(tenantId)).value|
  {
    match ReadList(store, StorageKey(tenantId))
    case Ok(items) => Ok(Filter(items, Matcher(contains)))
    case Err(e) => Err(e)
  }

  /** A query returns exactly the stored records whose period contains it,
      each as often as it is stored. */
  lemma QueryReturnsMatches(store: Storage, tenantId: string, contains: string)
    requires ReadList(store, StorageKey(tenantId)).Ok?
    ensures var items := ReadList(store, StorageKey(tenantId)).value;
            var r := GetAnalysisDataByPeriod(store, tenantId, contains).value;
            (forall a :: a in r <==> a in items && Contains(a.formData.periodo, contains)) &&
            (forall a :: multiset(r)[a] == if Contains(a.formData.periodo, contains)
                                            then multiset(items)[a] else 0) &&
            IsSubsequence(r, items)
  {
    var items := ReadList(store, StorageKey(tenantId)).value;
    var p := Matcher(contains);
    FilterSpec(items, p);
    FilterIsSubsequence(items, p);
    forall a: AnalysisData
      ensures multiset(Filter(items, p))[a] == if Contains(a.formData.periodo, contains)
                                               then multiset(items)[a] else 0
    {
      FilterCounts(items, p, a);
    }
  }

  lemma {:induction false} ContainsEmpty(s: string)
    ensures Contains(s, "")
  {
  }

  /** The empty query matches every record, so it returns the whole list. */
  lemma EmptyQueryReturnsAll(store: Storage, tenantId: string)
    ensures GetAnalysisDataByPeriod(store, tenantId, "") == ReadList(store, StorageKey(tenantId))
  {
    match ReadList(store, StorageKey(tenantId))
    case Ok(items) =>
      forall i | 0 <= i < |items|
        ensures PeriodContains("", items[i])
      {
        ContainsEmpty(items[i].formData.periodo);
      }
      FilterKeepsAll(items, Matcher(""));
    case Err(_) =>
  }

  /** A query after a save sees what it saw before, followed by the new
      record when its period matches. */
  lemma SaveThenQuery(store: Storage, analysis: AnalysisData, contains: string)
    requires SaveAnalysisData(store, analysis).Ok?
    ensures var after := SaveAnalysisData(store, analysis).value;
            GetAnalysisDataByPeriod(after, analysis.tenantId, contains) ==
            Ok(GetAnalysisDataByPeriod(store, analysis.tenantId, contains).value +
               (if Contains(analysis.formData.periodo, contains) then [analysis] else []))
  {
    var key := StorageKey(analysis.tenantId);
    var items := ReadList(store, key).value;
    var p := Matcher(contains);
    var after := SaveAnalysisData(store, analysis).value;
    assert ReadList(after, key) == Ok(items + [analysis]);
    FilterConcat(items, [analysis], p);
    assert [analysis][1..] == [];
    assert Filter([analysis], p) == if p(analysis) then [analysis] else [];
  }

  /** Saving for one tenant does not change what another tenant reads. */
  lemma SaveIsolatesTenants(store: Storage, analysis: AnalysisData, tenantId: string, contains: string)
    requires SaveAnalysisData(store, analysis).Ok?
    requires tenantId != analysis.tenantId
    ensures GetAnalysisDataByPeriod(SaveAnalysisData(store, analysis).value, tenantId, contains) ==
            GetAnalysisDataByPeriod(store, tenantId, contains)
  {
    if StorageKey(tenantId) == StorageKey(analysis.tenantId) {
      StorageKeyInjective(tenantId, analysis.tenantId);
    }
  }
}

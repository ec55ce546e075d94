/**
 * The backend's risk selection (api/index.py): the catalog lookup behind
 * `POST /api/project-risks` and `GET /api/risks`.
 *
 * The database is the JSON object `base_riscos_cea`, loaded once at start-up and
 * read-only afterwards; here it is a parameter. HTTP plumbing is reduced to a
 * tagged response carrying the status code and the JSON fields the handler sets.
 */
module RiskApi {
  import opened Options

  /** The value of an entry's "id" key; None when the key is missing. */
  type RiskId = Option<int>

  /** One entry of the catalog list "riscos" (the fields the frontend reads). */
  datatype Risk = Risk(id: RiskId, evento: string, nivelRisco: int, classificacao: Option<string>)

  /** One value of the "tipos_obra" object: a category of works. */
  datatype TipoObra = TipoObra(riscosEspecificos: Option<seq<RiskId>>)

  /**
   * The loaded database object. `otherKeys` are its keys other than "riscos" and
   * "tipos_obra" (metadata, scales, ...); a field is None when its key is missing.
   */
  datatype Database = Database(
    otherKeys: set<string>,
    riscos: Option<seq<Risk>>,
    tiposObra: Option<map<string, TipoObra>>)

  /** `not RISK_DATABASE`: the object has no key at all (also what a failed load yields). */
  predicate IsEmptyDatabase(db: Database) {
    db.otherKeys == {} && db.riscos.None? && db.tiposObra.None?
  }

  /** `RISK_DATABASE.get('riscos', [])` */
  function Catalog(db: Database): seq<Risk> {
    db.riscos.GetOr([])
  }

  /** `RISK_DATABASE.get('tipos_obra', {})` */
  function Categories(db: Database): map<string, TipoObra> {
    db.tiposObra.GetOr(map[])
  }

  /** `tipo.get("riscos_especificos", [])` */
  function SpecificIds(t: TipoObra): seq<RiskId> {
    t.riscosEspecificos.GetOr([])
  }

  /** The "tipo_obra_chave" member of a request body: missing, JSON null, or a string. */
  datatype KeyField = Absent | Null | Str(s: string)

  /** A JSON request body; `otherFields` names its members other than "tipo_obra_chave". */
  datatype Payload = Payload(otherFields: set<string>, tipoObraChave: KeyField)

  /** `not project_data`: the body is the empty object. */
  predicate IsEmptyPayload(p: Payload) {
    p.otherFields == {} && p.tipoObraChave.Absent?
  }

  /** Python truthiness of the key: present, not null and not the empty string. */
  predicate IsTruthyKey(k: KeyField) {
    k.Str? && k.s != ""
  }

  /** What `get_project_risks` answers. */
  datatype ProjectRisksResponse =
    | ErrorReply(status: nat, message: string)
    | WarningReply(message: string, selectedRisks: seq<Risk>)
    | SelectionReply(message: string, selectedRisks: seq<Risk>, projectDataReceived: Payload)
  {
    /** The HTTP status of the reply (jsonify without a status is 200). */
    function Status(): nat {
      if ErrorReply? then status else 200
    }
  }

  /** What `get_all_risks` answers. */
  datatype AllRisksResponse =
    | AllRisksError(status: nat, message: string)
    | AllRisksWarning(message: string, risks: seq<Risk>)
    | AllRisksList(risks: seq<Risk>)

  const DatabaseUnavailable := "A base de dados de riscos não pôde ser carregada."
  const NoProjectData := "Nenhum dado do projeto foi recebido no corpo da requisição."
  const NoRisksFound := "Nenhum risco encontrado na base de dados."

  /** `str(tipo_obra_chave)` inside the f-strings: None prints as "None". */
  function KeyText(k: KeyField): string {
    if k.Str? then k.s else "None"
  }

  function WarningMessage(k: KeyField): string {
    "A chave 'tipo_obra_chave' ('" + KeyText(k) +
    "') não foi fornecida ou é inválida. Nenhum risco específico foi selecionado."
  }

  function SelectionMessage(key: string): string {
    "Riscos selecionados com base no tipo de obra: '" + key + "'."
  }

  // ---------------------------------------------------------------------------
  // Filter: the list comprehension over the catalog

  /**
   * The catalog entries whose id is among `ids`, in catalog order
   * (`[risco for risco in riscos if risco.get("id") in ids]`).
   * Each entry keeps its multiplicity: nothing is added, dropped or deduplicated.
   */
  function FilterByIds(catalog: seq<Risk>, ids: seq<RiskId>): (r: seq<Risk>)
    ensures forall x :: multiset(r)[x] == if x.id in ids then multiset(catalog)[x] else 0
    decreases |catalog|
  {
    if catalog == [] then []
    else
      var rest := FilterByIds(catalog[1..], ids);
      assert catalog == [catalog[0]] + catalog[1..];
      if catalog[0].id in ids then [catalog[0]] + rest else rest
  }

  /** The entries of `s` whose id is `k`, in the order they appear in `s`. */
  function SameId(s: seq<Risk>, k: RiskId): seq<Risk>
    decreases |s|
  {
    if s == [] then []
    else (if s[0].id == k then [s[0]] else []) + SameId(s[1..], k)
  }

  lemma {:induction false} SameIdAppend(s: seq<Risk>, t: seq<Risk>, k: RiskId)
    ensures SameId(s + t, k) == SameId(s, k) + SameId(t, k)
    decreases |s|
  {
    if s == [] {
      assert s + t == t;
    } else {
      var u := s + t;
      assert u[0] == s[0] && u[1..] == s[1..] + t;
      SameIdAppend(s[1..], t, k);
      var h := if s[0].id == k then [s[0]] else [];
      calc {
        SameId(u, k);
        h + SameId(s[1..] + t, k);
        h + (SameId(s[1..], k) + SameId(t, k));
        (h + SameId(s[1..], k)) + SameId(t, k);
      }
    }
  }

  /** Filtering keeps, for each id, exactly the catalog's entries with that id, in order. */
  lemma {:induction false} FilterByIdsPerId(catalog: seq<Risk>, ids: seq<RiskId>, k: RiskId)
    ensures SameId(FilterByIds(catalog, ids), k) == if k in ids then SameId(catalog, k) else []
    decreases |catalog|
  {
    if catalog != [] {
      var c, tail := catalog[0], catalog[1..];
      FilterByIdsPerId(tail, ids, k);
      var rest := FilterByIds(tail, ids);
      var h := if c.id == k then [c] else [];
      assert SameId(catalog, k) == h + SameId(tail, k);
      if c.id in ids {
        assert FilterByIds(catalog, ids) == [c] + rest;
        SameIdAppend([c], rest, k);
        assert SameId([c], k) == h + SameId([], k);
      } else {
        assert FilterByIds(catalog, ids) == rest;
      }
    }
  }

  // ---------------------------------------------------------------------------
  // Sort: `list.sort(key=lambda r: r.get('id', float('inf')))`, a stable sort

  /** The order of sort keys: integers ascending, a missing id (infinity) after all of them. */
  predicate KeyLe(a: RiskId, b: RiskId) {
    b.None? || (a.Some? && a.value <= b.value)
  }

  predicate SortedById(s: seq<Risk>) {
    forall i, j :: 0 <= i < j < |s| ==> KeyLe(s[i].id, s[j].id)
  }

  /**
   * Inserts `x` into `t` after every entry whose key is not greater than x's:
   * one step of a stable insertion sort.
   */
  function InsertById(t: seq<Risk>, x: Risk): seq<Risk>
    decreases |t|
  {
    if t == [] || KeyLe(t[|t| - 1].id, x.id) then t + [x]
    else InsertById(t[..|t| - 1], x) + [t[|t| - 1]]
  }

  /** Inserting adds `x` and nothing else. */
  lemma {:induction false} InsertByIdPermutes(t: seq<Risk>, x: Risk)
    ensures multiset(InsertById(t, x)) == multiset(t) + multiset{x}
    decreases |t|
  {
    if !(t == [] || KeyLe(t[|t| - 1].id, x.id)) {
      var n := |t| - 1;
      assert t == t[..n] + [t[n]];
      InsertByIdPermutes(t[..n], x);
    }
  }

  /** Inserting into a sorted list keeps it sorted. */
  lemma {:induction false} InsertByIdSorted(t: seq<Risk>, x: Risk)
    requires SortedById(t)
    ensures SortedById(InsertById(t, x))
    decreases |t|
  {
    if t == [] || KeyLe(t[|t| - 1].id, x.id) {
      var r := t + [x];
      forall i, j | 0 <= i < j < |r| ensures KeyLe(r[i].id, r[j].id) {
        if j == |t| && i < |t| - 1 {
          assert KeyLe(t[i].id, t[|t| - 1].id);
        }
      }
    } else {
      var n := |t| - 1;
      var r' := InsertById(t[..n], x);
      InsertByIdSorted(t[..n], x);
      InsertByIdPermutes(t[..n], x);
      forall i | 0 <= i < |r'| ensures KeyLe(r'[i].id, t[n].id) {
        assert r'[i] in multiset(r');
        if r'[i] != x {
          assert r'[i] in t[..n];
        }
      }
    }
  }

  /** The spec of the stable sort by id. */
  function SortById(s: seq<Risk>): (r: seq<Risk>)
    ensures multiset(r) == multiset(s)
    ensures SortedById(r)
    decreases |s|
  {
    if s == [] then []
    else
      var n := |s| - 1;
      assert s == s[..n] + [s[n]];
      var r := InsertById(SortById(s[..n]), s[n]);
      InsertByIdSorted(SortById(s[..n]), s[n]);
      InsertByIdPermutes(SortById(s[..n]), s[n]);
      r
  }

  lemma {:induction false} InsertByIdPerId(t: seq<Risk>, x: Risk, k: RiskId)
    ensures SameId(InsertById(t, x), k) == SameId(t, k) + (if x.id == k then [x] else [])
    decreases |t|
  {
    if t == [] || KeyLe(t[|t| - 1].id, x.id) {
      SameIdAppend(t, [x], k);
    } else {
      var n := |t| - 1;
      assert t == t[..n] + [t[n]];
      InsertByIdPerId(t[..n], x, k);
      SameIdAppend(InsertById(t[..n], x), [t[n]], k);
      SameIdAppend(t[..n], [t[n]], k);
    }
  }

  /** Stability: entries with equal ids keep their relative order. */
  lemma {:induction false} SortByIdPerId(s: seq<Risk>, k: RiskId)
    ensures SameId(SortById(s), k) == SameId(s, k)
    decreases |s|
  {
    if s != [] {
      var n := |s| - 1;
      assert s == s[..n] + [s[n]];
      SortByIdPerId(s[..n], k);
      InsertByIdPerId(SortById(s[..n]), s[n], k);
      SameIdAppend(s[..n], [s[n]], k);
    }
  }

  /** The in-place sort of line 124, as an insertion sort over the array. */
  method SortInPlace(a: array<Risk>)
    modifies a
    ensures a[..] == SortById(old(a[..]))
  {
    ghost var s := a[..];
    var i := 0;
    while i < a.Length
      invariant 0 <= i <= a.Length
      invariant a[..i] == SortById(s[..i])
      invariant forall k :: i <= k < a.Length ==> a[k] == s[k]
    {
      InsertLast(a, i);
      SortByIdSnoc(s, i);
      i := i + 1;
    }
    assert a[..] == a[..a.Length] && s == s[..a.Length];
  }

  /** Sorting one more element inserts it into the sorted prefix. */
  lemma SortByIdSnoc(s: seq<Risk>, i: int)
    requires 0 <= i < |s|
    ensures SortById(s[..i + 1]) == InsertById(SortById(s[..i]), s[i])
  {
    assert s[..i + 1][..i] == s[..i];
  }

  /** Shifts the larger entries of the sorted prefix `a[..i]` right and drops `a[i]` into the gap. */
  method InsertLast(a: array<Risk>, i: int)
    requires 0 <= i < a.Length
    modifies a
    ensures a[..i + 1] == InsertById(old(a[..i]), old(a[i]))
    ensures forall k :: i < k < a.Length ==> a[k] == old(a[k])
  {
    ghost var done := a[..i];
    var x := a[i];
    var j := i;
    while j > 0 && !KeyLe(a[j - 1].id, x.id)
      invariant 0 <= j <= i
      invariant forall k :: 0 <= k < j ==> a[k] == done[k]
      invariant forall k :: j < k <= i ==> a[k] == done[k - 1]
      invariant forall k :: i < k < a.Length ==> a[k] == old(a[k])
      invariant forall k :: j <= k < i ==> !KeyLe(done[k].id, x.id)
    {
      a[j] := a[j - 1];
      j := j - 1;
    }
    a[j] := x;
    InsertAt(done, x, j);
    Assemble(a[..], done, x, j, i);
  }

  /**
   * Where insertion puts `x`: right after the last entry whose key is not greater,
   * when every entry from `j` on has a greater key.
   */
  lemma {:induction false} InsertAt(done: seq<Risk>, x: Risk, j: int)
    requires 0 <= j <= |done|
    requires j == 0 || KeyLe(done[j - 1].id, x.id)
    requires forall k :: j <= k < |done| ==> !KeyLe(done[k].id, x.id)
    ensures InsertById(done, x) == done[..j] + [x] + done[j..]
    decreases |done|
  {
    if j < |done| {
      var n := |done| - 1;
      InsertAt(done[..n], x, j);
      assert done[..n][..j] == done[..j];
      assert done[j..] == done[..n][j..] + [done[n]];
    } else {
      assert done[..j] == done;
    }
  }

  /** The array after the shifts: the prefix before `j`, then `x`, then the shifted part. */
  lemma Assemble(b: seq<Risk>, done: seq<Risk>, x: Risk, j: int, i: int)
    requires 0 <= j <= i == |done| < |b|
    requires forall k :: 0 <= k < j ==> b[k] == done[k]
    requires b[j] == x
    requires forall k :: j < k <= i ==> b[k] == done[k - 1]
    ensures b[..i + 1] == done[..j] + [x] + done[j..]
  {
  }

  // ---------------------------------------------------------------------------
  // The endpoints

  /** The risks chosen for a category: its specific ids filtered from the catalog, sorted by id. */
  function SelectedRisks(catalog: seq<Risk>, ids: seq<RiskId>): (r: seq<Risk>)
    ensures SortedById(r)
    ensures forall x :: multiset(r)[x] == if x.id in ids then multiset(catalog)[x] else 0
  {
    SortById(FilterByIds(catalog, ids))
  }

  /** `get_project_risks`: guards, filter, sort. */
  function ProjectRisks(db: Database, body: Option<Payload>): (r: ProjectRisksResponse)
    ensures r.ErrorReply? ==> r.status == 500 || r.status == 400
    ensures r.ErrorReply? && r.status == 500 <==> IsEmptyDatabase(db)
    ensures r.ErrorReply? && r.status == 400 <==>
              !IsEmptyDatabase(db) && (body.None? || IsEmptyPayload(body.value))
    ensures r.WarningReply? <==>
              !IsEmptyDatabase(db) && body.Some? && !IsEmptyPayload(body.value) &&
              !(IsTruthyKey(body.value.tipoObraChave) && body.value.tipoObraChave.s in Categories(db))
    ensures r.WarningReply? ==> r.selectedRisks == []
    ensures r.SelectionReply? <==>
              !r.ErrorReply? && IsTruthyKey(body.value.tipoObraChave) &&
              body.value.tipoObraChave.s in Categories(db)
  {
    if IsEmptyDatabase(db) then ErrorReply(500, DatabaseUnavailable)
    else if body.None? || IsEmptyPayload(body.value) then ErrorReply(400, NoProjectData)
    else
      var key := body.value.tipoObraChave;
      if IsTruthyKey(key) && key.s in Categories(db) then
        var ids := SpecificIds(Categories(db)[key.s]);
        SelectionReply(SelectionMessage(key.s), SelectedRisks(Catalog(db), ids), body.value)
      else
        WarningReply(WarningMessage(key), [])
  }

  /** The handler as it runs: early returns, the comprehension, then the in-place sort. */
  method GetProjectRisks(db: Database, body: Option<Payload>) returns (resp: ProjectRisksResponse)
    ensures resp == ProjectRisks(db, body)
  {
    if IsEmptyDatabase(db) {
      return ErrorReply(500, DatabaseUnavailable);
    }
    if body.None? || IsEmptyPayload(body.value) {
      return ErrorReply(400, NoProjectData);
    }
    var key := body.value.tipoObraChave;
    var categories := Categories(db);
    if !(IsTruthyKey(key) && key.s in categories) {
      return WarningReply(WarningMessage(key), []);
    }
    var filtered := FilterByIds(Catalog(db), SpecificIds(categories[key.s]));
    var a := new Risk[|filtered|](k requires 0 <= k < |filtered| => filtered[k]);
    assert a[..] == filtered;
    SortInPlace(a);
    resp := SelectionReply(SelectionMessage(key.s), a[..], body.value);
  }

  /** `get_all_risks` */
  function AllRisks(db: Database): (r: AllRisksResponse)
    ensures r.AllRisksError? <==> IsEmptyDatabase(db)
    ensures r.AllRisksError? ==> r.status == 500
    ensures r.AllRisksWarning? <==> !IsEmptyDatabase(db) && Catalog(db) == []
    ensures r.AllRisksWarning? ==> r.risks == []
    ensures r.AllRisksList? ==> r.risks == Catalog(db)
  {
    if IsEmptyDatabase(db) then AllRisksError(500, DatabaseUnavailable)
    else if Catalog(db) == [] then AllRisksWarning(NoRisksFound, [])
    else AllRisksList(Catalog(db))
  }

  // ---------------------------------------------------------------------------
  // Properties of the selection

  /** Soundness and completeness: an entry is selected iff it is in the catalog with a listed id. */
  lemma SelectionMembership(catalog: seq<Risk>, ids: seq<RiskId>, x: Risk)
    ensures x in SelectedRisks(catalog, ids) <==> x in catalog && x.id in ids
  {
    var r := SelectedRisks(catalog, ids);
    assert x in r <==> multiset(r)[x] > 0;
    assert x in catalog <==> multiset(catalog)[x] > 0;
  }

  /** The selection restricted to one id is the catalog's entries with that id, in catalog order. */
  lemma {:induction false} SelectionPerId(catalog: seq<Risk>, ids: seq<RiskId>, k: RiskId)
    ensures SameId(SelectedRisks(catalog, ids), k) == if k in ids then SameId(catalog, k) else []
  {
    SortByIdPerId(FilterByIds(catalog, ids), k);
    FilterByIdsPerId(catalog, ids, k);
  }

  /** Entries without an id come after every entry with one. */
  lemma MissingIdsLast(catalog: seq<Risk>, ids: seq<RiskId>, i: int, j: int)
    requires 0 <= i < |SelectedRisks(catalog, ids)| && 0 <= j < |SelectedRisks(catalog, ids)|
    requires SelectedRisks(catalog, ids)[i].id.None? && SelectedRisks(catalog, ids)[j].id.Some?
    ensures j < i
  {
  }

  /** A category without "riscos_especificos" selects nothing, whatever the catalog. */
  lemma NoSpecificIdsSelectsNothing(db: Database, body: Option<Payload>)
    requires ProjectRisks(db, body).SelectionReply?
    requires Categories(db)[body.value.tipoObraChave.s].riscosEspecificos.None?
    ensures ProjectRisks(db, body).selectedRisks == []
  {
  }

  /** In a successful reply, the selected risks are exactly the category's selection. */
  lemma SelectionReplyContents(db: Database, body: Option<Payload>)
    requires ProjectRisks(db, body).SelectionReply?
    ensures ProjectRisks(db, body).selectedRisks ==
              SelectedRisks(Catalog(db), SpecificIds(Categories(db)[body.value.tipoObraChave.s]))
    ensures ProjectRisks(db, body).projectDataReceived == body.value
  {
  }
}

# Risk-matrix wizard: a Dafny model

The system is a three-step wizard for the engineering centre of Paraná's public-security
secretariat (SESP/PR). The user describes a construction project: force, unit type,
intervention, value band, lead time, complexity and special characteristics. The frontend
maps the force and unit type to a works category ("presidios", "delegacias", "quarteis",
"centrais_operacionais"). It posts the form to a small Flask backend. The backend picks
that category's specific risks from a JSON catalog and returns them sorted by id. The user
reviews them (step 2) and asks for a PDF (step 3).

The model has four modules:

- `Options` (options.dfy): the optional value used for missing JSON keys and nulls.
- `RiskApi` (risk_api.dfy): the backend's selection logic. The database is a parameter.
  The filter is a function. The sort is a stable insertion sort on an array, proved equal
  to a functional specification `SortById`. That specification is proved sorted, a
  permutation, and stable.
- `RiskRules` (risk_rules.dfy): the pure rules of the frontend. These are the static
  tables, the form updaters, the category key, the risk-level bands and colours, and
  form validity.
- `Wizard` (wizard.dfy): the component's state hooks as a class. Each click handler is a
  method. The network is a parameter (`SubmitOutcome`). `ReplyOf` and the lemmas beside it
  connect that parameter to the backend model.

The selection depends only on the category: the frontend sends the form and its category
key, and the backend reads only the key. There is no rule evaluator adding or excluding
risk ids, no size metadata and no execution regime. The PDF request does not check the
content type, and the wizard reaches step 3 whatever the reply.

One consequence of the code as written is proved in `Wizard.ErrorsArriveAsFailures`. The
backend sends every error with status 500 or 400. `generateRisks` throws on any status
outside 200-299. So backend errors always show the generic "Falha ao comunicar com o
servidor" message. The `data.error` branch ("Erro do servidor: ...") never fires against
this backend.

## Model

| member | source | states |
|---|---|---|
| `RiskApi.FilterByIds` | api/index.py:99-105 | The comprehension keeps every catalog entry whose id is in `riscos_especificos`, with its multiplicity, and drops every other entry. |
| `RiskApi.FilterByIdsPerId` | api/index.py:103-105 | For each id, the filtered list holds that id's catalog entries in catalog order, or none if the id is not listed. |
| `RiskApi.InsertByIdPermutes` | api/index.py:124 | One insertion step adds exactly the inserted entry. |
| `RiskApi.InsertByIdSorted` | api/index.py:124 | Inserting into a list sorted by id keeps it sorted. |
| `RiskApi.InsertByIdPerId` | api/index.py:124 | Insertion places the new entry after all entries with the same id. |
| `RiskApi.SortById` | api/index.py:124 | The sort by `r.get('id', inf)` returns a permutation of its input, sorted by id, with missing ids last. |
| `RiskApi.SortByIdPerId` | api/index.py:124 | The sort is stable: entries with equal ids keep their relative order. |
| `RiskApi.SortInPlace` | api/index.py:124 | The in-place sort of the array leaves exactly `SortById` of its old contents. |
| `RiskApi.InsertLast` | api/index.py:124 | One pass of the in-place sort inserts `a[i]` into the sorted prefix and leaves the rest of the array alone. |
| `RiskApi.InsertAt` | api/index.py:124 | An inserted entry goes right after the last entry whose id is not greater. |
| `RiskApi.SelectedRisks` | api/index.py:99-124 | The selection is sorted by id. Each entry occurs as often as in the catalog when its id is listed, and otherwise not at all. |
| `RiskApi.SelectionMembership` | api/index.py:103-105 | Soundness and completeness: an entry is selected iff it is in the catalog and its id is listed. |
| `RiskApi.SelectionPerId` | api/index.py:103-124 | For each id, the selection holds exactly the catalog's entries with that id, in catalog order, when the id is listed. |
| `RiskApi.MissingIdsLast` | api/index.py:124 | In the selection, every entry without an id comes after every entry with one. |
| `RiskApi.NoSpecificIdsSelectsNothing` | api/index.py:99 | A category without `riscos_especificos` selects nothing. |
| `RiskApi.ProjectRisks` | api/index.py:82-113 | An empty database gives 500 before anything else is checked. A missing or empty body gives 400. A falsy or unknown key gives a warning with no risks. A known key, and only that, gives a selection. |
| `RiskApi.SelectionReplyContents` | api/index.py:98-130 | A selection reply carries the category's `SelectedRisks` and echoes the body it received. |
| `RiskApi.GetProjectRisks` | api/index.py:77-130 | The handler's early returns, its filter and its in-place sort give exactly `ProjectRisks`. |
| `RiskApi.AllRisks` | api/index.py:66-74 | An empty database gives a 500 error. An empty or missing catalog gives a warning with `risks: []`. Otherwise the whole catalog is returned unchanged. |
| `RiskRules.TablesAgree` | frontend/src/RiskMatrixApp.js:5-19 | The forces offered are exactly the keys of the unit-type table. |
| `RiskRules.ApplyInputChange` | frontend/src/RiskMatrixApp.js:55-63 | Setting `forca` stores it and clears `tipoUnidade`, whatever its value was. Setting any other field changes only that field. |
| `RiskRules.Without` | frontend/src/RiskMatrixApp.js:69 | The filter removes every occurrence of the item and keeps every other item with its multiplicity. |
| `RiskRules.WithoutAppend` | frontend/src/RiskMatrixApp.js:69 | The filter works piecewise over concatenation, so kept items stay in order. |
| `RiskRules.WithoutAbsent` | frontend/src/RiskMatrixApp.js:69 | Filtering out an absent item leaves the list unchanged. |
| `RiskRules.ToggleCaracteristica` | frontend/src/RiskMatrixApp.js:65-72 | The toggle flips the item's membership, appends an absent item at the end, and leaves other items' counts alone. |
| `RiskRules.ToggleTwice` | frontend/src/RiskMatrixApp.js:65-72 | Toggling an absent item twice restores the original list. |
| `RiskRules.ToggleChecked` | frontend/src/RiskMatrixApp.js:65-72 | Toggling a present item removes all its occurrences and keeps the items before and after it in order. |
| `RiskRules.TipoObraChave` | frontend/src/RiskMatrixApp.js:74-92 | The decision table, one iff per key: Penal with a jail or state penitentiary; Civil with a "Delegacia…" unit; CBMPR or PMPR with one of the five barracks types; Científica with UETC. Anything else gives null. |
| `RiskRules.TableCoverage` | frontend/src/RiskMatrixApp.js:13-92 | Every (force, unit type) pair of the static table gets a key except (Polícia Científica, Posto Avançado). |
| `RiskRules.BandOf` | frontend/src/RiskMatrixApp.js:147-156 | The level bands as intervals: ≥15 Extremo, 8-14 Alto, 3-7 Moderado, 1-2 Baixo, <1 Desconhecido. |
| `RiskRules.BandMonotone` | frontend/src/RiskMatrixApp.js:147-156 | A higher level never falls in a lower band. |
| `RiskRules.RiskColor` | frontend/src/RiskMatrixApp.js:140-145 | The colour thresholds agree with the bands: red, orange, yellow, and blue for both Baixo and Desconhecido. |
| `RiskRules.RiskLevelText` | frontend/src/RiskMatrixApp.js:147-156 | A string classification is shown unchanged. Otherwise the band's name is shown. Either is followed by the number in parentheses. |
| `RiskRules.LegendAgrees` | frontend/src/RiskMatrixApp.js:427 | For probability and impact on the 1-5 scales, the band of their product matches the legend's ranges. The products 7, 13 and 14 cannot occur. |
| `RiskRules.IsFormValid` | frontend/src/RiskMatrixApp.js:178-184 | The form is valid iff forca, tipoUnidade, tipoIntervencao, valor and prazo are all non-empty. |
| `RiskRules.ValidityIgnoresOptionalFields` | frontend/src/RiskMatrixApp.js:178-184 | Complexity and characteristics never affect validity. |
| `RiskRules.ForceChangeInvalidates` | frontend/src/RiskMatrixApp.js:55-63 | After a change of force, the form is invalid until a unit type is chosen again. |
| `RiskRules.InputKeepsUnitConsistent` | frontend/src/RiskMatrixApp.js:264-279 | Input from the selects keeps the unit type empty or one of the force's options. |
| `RiskRules.ValidFormHasKey` | frontend/src/RiskMatrixApp.js:74-92 | A valid form whose unit type was offered for its force has a category key, except for (Científica, Posto Avançado). |
| `Wizard.PayloadOf` | frontend/src/RiskMatrixApp.js:99-104 | The payload is never empty. It carries the category key, or null when there is none. |
| `Wizard.ReplyOf` | frontend/src/RiskMatrixApp.js:114-130 | A reply takes the failed-fetch path iff its status is outside 200-299, and `jsonify` replies without a status are 200 (api/index.py:110-113,126-130). A parsed error body carries only its `error`. Any other parsed body carries no `error`, carries its `selected_risks`, and carries `warning` iff it is a warning. |
| `Wizard.ErrorsArriveAsFailures` | frontend/src/RiskMatrixApp.js:114-131 | Every backend error arrives as a failed fetch, and a parsed reply never carries `error`. |
| `Wizard.SubmissionReply` | frontend/src/RiskMatrixApp.js:94-130 | Submitting a form fails only when the database is empty. Otherwise it is accepted with the category's selection, or with no risks when the key is unknown. |
| `Wizard.RiskMatrixWizard.constructor` | frontend/src/RiskMatrixApp.js:41-53 | Step 1, the initial form, no risks, no error, nothing in flight. |
| `Wizard.RiskMatrixWizard.InputChange` | frontend/src/RiskMatrixApp.js:55-63 | The form becomes `ApplyInputChange` of the old form. Step, risks and error are unchanged. |
| `Wizard.RiskMatrixWizard.ToggleCharacteristic` | frontend/src/RiskMatrixApp.js:65-72 | Only the characteristics list changes, by `ToggleCaracteristica`. |
| `Wizard.RiskMatrixWizard.GenerateRisks` | frontend/src/RiskMatrixApp.js:94-138 | A failure or an error body clears the risks, sets the matching error and stays on step 1. A warning or success takes `selected_risks` (or `[]`), clears the error and goes to step 2. Nothing stays in flight. |
| `Wizard.RiskMatrixWizard.GenerateRisksWith` | frontend/src/RiskMatrixApp.js:94-138 | Against the backend model, the wizard ends up holding exactly the backend's selection for the form's category. A form without a key, or with one the database does not know, ends on step 2 with no risks. An empty database leaves it on step 1 with the communication error. |
| `Wizard.RiskMatrixWizard.GeneratePdf` | frontend/src/RiskMatrixApp.js:158-176 | Whatever the PDF reply, the wizard ends on step 3 with nothing else changed. |
| `Wizard.RiskMatrixWizard.BackToForm` | frontend/src/RiskMatrixApp.js:505-511 | "Voltar" returns to step 1 and keeps the form and the risks. |
| `Wizard.RiskMatrixWizard.ReviewRisks` | frontend/src/RiskMatrixApp.js:534-539 | "Revisar Riscos" returns to step 2 and keeps the form and the risks. |
| `Wizard.RiskMatrixWizard.NewProject` | frontend/src/RiskMatrixApp.js:540-553 | "Novo Projeto" restores step 1, an empty risk list and exactly the initial form. No error remains. |

## Left out

- Rendering: the JSX, CSS classes, icons, the progress bar and the step-2 list. Colours are modelled as an enum.
- `fetch`, `getApiUrl` and `process.env`: the network and the environment. A submission receives a `SubmitOutcome` instead.
- `alert` and `console.*`: user messages and logging with no effect on state.
- Flask routing, CORS, `request.get_json` and `jsonify`: replies are tagged datatypes with their status code.
- `carregar_dados_riscos`: file and JSON-decode I/O. The database is a parameter, and a failed load is the empty database.
- `health_check` and `get_risk_metadata`: they return fixed or looked-up metadata and play no part in risk selection.
- `generate_pdf_endpoint`: a placeholder that returns a constant message.
- Request bodies that are JSON but not objects: the body is modelled as an object or nothing.
- A non-string `tipo_obra_chave`: the key is modelled as missing, null or a string.
- Catalog ids present but not integers: a null id, or a string id mixed with integer or missing ids, makes Python's sort raise, and this is not modelled. An id is an integer or absent, and `float('inf')` becomes "absent sorts last".
- A `riscos_especificos` key holding null: it would raise in the `in` test.
- Risk fields other than id, event, level and classification: they are only displayed.
- `RiskRules.RiskColor`: levels are integers. A missing or non-numeric level is not modelled.
- `RiskRules.RiskLevelText`: levels are integers. The text of a missing or non-numeric level is not modelled.
- The `isGenerating` flag while a request is in flight: each handler is one atomic method, so the flag is only seen as false between handlers. This also excludes interleavings the source allows: a `generatePDF` reply that arrives after "Voltar" sets step 3 from step 1 (frontend/src/RiskMatrixApp.js:175), in a state that may hold an error or an invalid form. The part of `Valid()` that says "past step 1, no error and a valid form", on which `NewProject`'s absent error rests, holds only under this atomicity.
- The step-2 rule that disables "Gerar Matriz em PDF" for an empty list: the other PDF button on that step is always enabled, so `GeneratePdf` needs only step 2.
- `frontend/src/index.js` and `frontend/src/App.js`: bootstrap and wrapper only.

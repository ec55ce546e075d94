/**
 * The state of the RiskMatrixApp component (frontend/src/RiskMatrixApp.js) and its
 * transitions: form edits, the submission that fetches the project's risks, the PDF
 * request, the back buttons and "Novo Projeto".
 *
 * Each `useState` hook is a field; each handler is a method that performs the
 * handler's setter calls in order. The network is abstracted: a submission receives
 * the way its fetch ended, and `ReplyOf` says how the backend's replies arrive.
 */
module Wizard {
  import opened Options
  import opened RiskRules
  import RiskApi

  /** The JSON body of a /api/project-risks reply, as `generateRisks` reads it. */
  datatype ReplyBody = ReplyBody(
    error: Option<string>,
    warning: Option<string>,
    selectedRisks: Option<seq<RiskApi.Risk>>)

  /**
   * How the fetch of `generateRisks` ends: it throws (transport failure, a status
   * outside 200-299, a body that is not JSON), or it yields a parsed body.
   */
  datatype SubmitOutcome = Failed | Replied(body: ReplyBody)

  /** JavaScript truthiness of an optional string field. */
  predicate Truthy(s: Option<string>) {
    s.Some? && s.value != ""
  }

  /** `data.selected_risks || []` */
  function RisksOrEmpty(body: ReplyBody): seq<RiskApi.Risk> {
    body.selectedRisks.GetOr([])
  }

  /** Whether a submission moves on to step 2: a body without an error. */
  predicate Accepted(outcome: SubmitOutcome) {
    outcome.Replied? && !Truthy(outcome.body.error)
  }

  const CommunicationFailure := "Falha ao comunicar com o servidor. Tente novamente."
  const ServerErrorPrefix := "Erro do servidor: "

  /** The field names of `projectData`, all sent with every submission. */
  const ProjectDataFields: set<string> :=
    {"forca", "tipoUnidade", "tipoIntervencao", "valor", "prazo", "complexidade", "caracteristicas"}

  /** The payload `{...projectData, tipo_obra_chave}` as the backend receives it. */
  function PayloadOf(p: ProjectData): (r: RiskApi.Payload)
    ensures !RiskApi.IsEmptyPayload(r)
    ensures TipoObraChave(p.forca, p.tipoUnidade).Some? ==>
              r.tipoObraChave == RiskApi.Str(TipoObraChave(p.forca, p.tipoUnidade).value)
    ensures TipoObraChave(p.forca, p.tipoUnidade).None? ==> r.tipoObraChave == RiskApi.Null
  {
    var key := TipoObraChave(p.forca, p.tipoUnidade);
    RiskApi.Payload(ProjectDataFields, if key.Some? then RiskApi.Str(key.value) else RiskApi.Null)
  }

  /**
   * How a backend reply reaches `generateRisks`: a status outside 200-299 makes it
   * throw; otherwise it reads the JSON fields of the body.
   */
  function ReplyOf(resp: RiskApi.ProjectRisksResponse): (r: SubmitOutcome)
    ensures r.Failed? <==> !(200 <= resp.Status() < 300)
    ensures r.Replied? && resp.ErrorReply? ==>
              r.body.error == Some(resp.message) && r.body.selectedRisks.None?
    ensures r.Replied? && !resp.ErrorReply? ==>
              r.body.error.None? && r.body.selectedRisks == Some(resp.selectedRisks)
    ensures r.Replied? ==> (r.body.warning.Some? <==> resp.WarningReply?)
  {
    if !(200 <= resp.Status() < 300) then Failed
    else
      match resp
      case ErrorReply(_, message) => Replied(ReplyBody(Some(message), None, None))
      case WarningReply(message, risks) => Replied(ReplyBody(None, Some(message), Some(risks)))
      case SelectionReply(_, risks, _) => Replied(ReplyBody(None, None, Some(risks)))
  }

  /**
   * The backend reports every error with status 500 or 400, so the frontend sees
   * each of them as a failed fetch and never through the body's `error` field.
   */
  lemma ErrorsArriveAsFailures(db: RiskApi.Database, body: Option<RiskApi.Payload>)
    ensures ReplyOf(RiskApi.ProjectRisks(db, body)).Failed? <==>
              RiskApi.ProjectRisks(db, body).ErrorReply?
    ensures ReplyOf(RiskApi.ProjectRisks(db, body)).Replied? ==>
              ReplyOf(RiskApi.ProjectRisks(db, body)).body.error.None?
  {
  }

  /**
   * A submission of form state `p` to the backend over database `db`: it fails only
   * when the database is empty; otherwise it is accepted with the category's
   * selection, or with no risks when the form has no key the database knows.
   */
  lemma SubmissionReply(db: RiskApi.Database, p: ProjectData)
    ensures var out := ReplyOf(RiskApi.ProjectRisks(db, Some(PayloadOf(p))));
      && (out.Failed? <==> RiskApi.IsEmptyDatabase(db))
      && (!RiskApi.IsEmptyDatabase(db) ==> Accepted(out))
      && (!RiskApi.IsEmptyDatabase(db) ==>
            var key := TipoObraChave(p.forca, p.tipoUnidade);
            RisksOrEmpty(out.body) ==
              if key.Some? && key.value in RiskApi.Categories(db) then
                RiskApi.SelectedRisks(RiskApi.Catalog(db),
                                      RiskApi.SpecificIds(RiskApi.Categories(db)[key.value]))
              else [])
  {
    var key := TipoObraChave(p.forca, p.tipoUnidade);
    assert key.Some? ==> key.value != "";
  }

  /** The component's state hooks. */
  class RiskMatrixWizard {
    var currentStep: int
    var projectData: ProjectData
    var selectedRisks: seq<RiskApi.Risk>
    var isGenerating: bool
    var error: Option<string>

    /**
     * Between handlers the wizard is on one of its three steps with nothing in flight;
     * past step 1 it shows no error and holds the valid form that was submitted.
     */
    ghost predicate Valid()
      reads this
    {
      && 1 <= currentStep <= 3
      && !isGenerating
      && (currentStep != 1 ==> error == None && IsFormValid(projectData))
    }

    /** The initial values of the hooks. */
    constructor ()
      ensures Valid()
      ensures currentStep == 1 && projectData == InitialProjectData
      ensures selectedRisks == [] && error == None
    {
      currentStep := 1;
      projectData := InitialProjectData;
      selectedRisks := [];
      isGenerating := false;
      error := None;
    }

    /** `handleInputChange(field, value)`, from the inputs of step 1. */
    method InputChange(change: InputChange)
      requires Valid() && currentStep == 1
      modifies this
      ensures Valid()
      ensures projectData == ApplyInputChange(old(projectData), change)
      ensures currentStep == old(currentStep) && selectedRisks == old(selectedRisks)
      ensures error == old(error)
    {
      projectData := ApplyInputChange(projectData, change);
    }

    /** `handleCaracteristicaToggle(caracteristica)`, from the checkboxes of step 1. */
    method ToggleCharacteristic(item: string)
      requires Valid() && currentStep == 1
      modifies this
      ensures Valid()
      ensures projectData == old(projectData).(
                caracteristicas := ToggleCaracteristica(old(projectData.caracteristicas), item))
      ensures currentStep == old(currentStep) && selectedRisks == old(selectedRisks)
      ensures error == old(error)
    {
      projectData := projectData.(
        caracteristicas := ToggleCaracteristica(projectData.caracteristicas, item));
    }

    /**
     * `generateRisks`: a failed fetch or an error body clears the risks and sets the
     * error, staying on the same step; a warning or a success takes the returned
     * risks (none if absent) and moves to step 2. Its button is on step 1 and is
     * enabled only while the form is valid and no submission is in flight.
     */
    method GenerateRisks(outcome: SubmitOutcome)
      requires Valid() && currentStep == 1 && IsFormValid(projectData)
      modifies this
      ensures Valid()
      ensures outcome.Failed? ==> error == Some(CommunicationFailure)
      ensures outcome.Replied? && Truthy(outcome.body.error) ==>
                error == Some(ServerErrorPrefix + outcome.body.error.value)
      ensures Accepted(outcome) ==> error == None
      ensures selectedRisks == if Accepted(outcome) then RisksOrEmpty(outcome.body) else []
      ensures currentStep == if Accepted(outcome) then 2 else 1
      ensures projectData == old(projectData)
    {
      isGenerating := true;
      error := None;
      match outcome {
        case Failed =>
          error := Some(CommunicationFailure);
          selectedRisks := [];
        case Replied(body) =>
          if Truthy(body.error) {
            error := Some(ServerErrorPrefix + body.error.value);
            selectedRisks := [];
          } else if Truthy(body.warning) {
            selectedRisks := RisksOrEmpty(body);
            currentStep := 2;
          } else {
            selectedRisks := RisksOrEmpty(body);
            currentStep := 2;
          }
      }
      isGenerating := false;
    }

    /**
     * `generateRisks` with its fetch answered by the backend over `db`: the wizard
     * ends up holding exactly the backend's selection for the form's category.
     */
    method GenerateRisksWith(db: RiskApi.Database)
      requires Valid() && currentStep == 1 && IsFormValid(projectData)
      modifies this
      ensures Valid()
      ensures RiskApi.IsEmptyDatabase(db) ==>
                error == Some(CommunicationFailure) && selectedRisks == [] && currentStep == 1
      ensures !RiskApi.IsEmptyDatabase(db) ==> error == None && currentStep == 2
      ensures var key := TipoObraChave(old(projectData).forca, old(projectData).tipoUnidade);
              !RiskApi.IsEmptyDatabase(db) && key.Some? && key.value in RiskApi.Categories(db) ==>
                selectedRisks ==
                  RiskApi.SelectedRisks(RiskApi.Catalog(db),
                                        RiskApi.SpecificIds(RiskApi.Categories(db)[key.value]))
      ensures var key := TipoObraChave(old(projectData).forca, old(projectData).tipoUnidade);
              !RiskApi.IsEmptyDatabase(db) && !(key.Some? && key.value in RiskApi.Categories(db)) ==>
                selectedRisks == []
      ensures projectData == old(projectData)
    {
      var resp := RiskApi.GetProjectRisks(db, Some(PayloadOf(projectData)));
      SubmissionReply(db, projectData);
      GenerateRisks(ReplyOf(resp));
    }

    /** `generatePDF`, from the buttons of step 2: whatever the reply, it ends on step 3. */
    method GeneratePdf()
      requires Valid() && currentStep == 2
      modifies this
      ensures Valid()
      ensures currentStep == 3
      ensures projectData == old(projectData) && selectedRisks == old(selectedRisks)
      ensures error == old(error)
    {
      currentStep := 3;
    }

    /** The "Voltar" button of step 2. */
    method BackToForm()
      requires Valid() && currentStep == 2
      modifies this
      ensures Valid()
      ensures currentStep == 1
      ensures projectData == old(projectData) && selectedRisks == old(selectedRisks)
      ensures error == old(error)
    {
      currentStep := 1;
    }

    /** The "Revisar Riscos" button of step 3. */
    method ReviewRisks()
      requires Valid() && currentStep == 3
      modifies this
      ensures Valid()
      ensures currentStep == 2
      ensures projectData == old(projectData) && selectedRisks == old(selectedRisks)
      ensures error == old(error)
    {
      currentStep := 2;
    }

    /**
     * The "Novo Projeto" button of step 3: step 1, no risks, the initial form. The
     * error hook is not reset, but no error is shown past step 1, so the whole state
     * is the initial one.
     */
    method NewProject()
      requires Valid() && currentStep == 3
      modifies this
      ensures Valid()
      ensures currentStep == 1 && selectedRisks == [] && projectData == InitialProjectData
      ensures error == None && !isGenerating
    {
      currentStep := 1;
      selectedRisks := [];
      projectData := InitialProjectData;
    }
  }
}

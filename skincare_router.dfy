/** The skincare pipeline routes (app/routers/skincare.py): the checks each
    phase makes before it calls its service, what it saves, and the session
    status report. The services of phases 2 and 3 are oracles; phase 4 calls
    the routine-creation model. */
module SkincareRouter {
  import opened Wrappers
  import opened Text
  import opened Json
  import opened SessionStore
  import Forms
  import FormProcessing
  import Fences
  import RoutineCreation

  // ------------------------------------------------------------ status

  /** `phase_status.get(phase, False)` */
  function FlagOf(status: seq<(string, bool)>, phase: string): bool
  {
    if status == [] then false
    else if status[0].0 == phase then status[0].1
    else FlagOf(status[1..], phase)
  }

  const PipelineComplete: string := "Pipeline complete!"

  const NextPhaseTexts: seq<string> := [
    "Phase 1: Submit form data",
    "Phase 2: Upload facial image",
    "Phase 3: Generate product recommendations",
    "Phase 4: Create skincare routine"]

  /** The if/elif chain choosing `next_phase`. */
  function NextPhase(status: seq<(string, bool)>): string
  {
    if !FlagOf(status, "phase1") then NextPhaseTexts[0]
    else if !FlagOf(status, "phase2") then NextPhaseTexts[1]
    else if !FlagOf(status, "phase3") then NextPhaseTexts[2]
    else if !FlagOf(status, "phase4") then NextPhaseTexts[3]
    else PipelineComplete
  }

  /** The next phase is the first phase not flagged done. */
  lemma NextPhaseFirstMissing(status: seq<(string, bool)>, k: nat)
    requires k < |Phases|
    ensures NextPhase(status) == NextPhaseTexts[k] <==>
              !FlagOf(status, Phases[k]) && forall j :: 0 <= j < k ==> FlagOf(status, Phases[j])
  {
    NextPhaseTextsDistinct();
    if NextPhase(status) == NextPhaseTexts[k] {
      forall j | 0 <= j < k ensures FlagOf(status, Phases[j]) {
        if j == 0 {} else if j == 1 {} else {}
      }
    }
    if k >= 1 && forall j :: 0 <= j < k ==> FlagOf(status, Phases[j]) {
      assert FlagOf(status, Phases[0]);
    }
    if k >= 2 && forall j :: 0 <= j < k ==> FlagOf(status, Phases[j]) {
      assert FlagOf(status, Phases[1]);
    }
    if k >= 3 && forall j :: 0 <= j < k ==> FlagOf(status, Phases[j]) {
      assert FlagOf(status, Phases[2]);
    }
  }

  lemma NextPhaseTextsDistinct()
    ensures forall i, j :: 0 <= i < j < |NextPhaseTexts| ==> NextPhaseTexts[i] != NextPhaseTexts[j]
    ensures PipelineComplete !in NextPhaseTexts
    ensures Phases == ["phase1", "phase2", "phase3", "phase4"]
  {
  }

  /** The pipeline is complete exactly when all four phases are flagged. */
  lemma NextPhaseComplete(status: seq<(string, bool)>)
    ensures NextPhase(status) == PipelineComplete <==> forall j :: 0 <= j < |Phases| ==> FlagOf(status, Phases[j])
  {
    NextPhaseTextsDistinct();
    if forall j :: 0 <= j < |Phases| ==> FlagOf(status, Phases[j]) {
      assert FlagOf(status, Phases[0]) && FlagOf(status, Phases[1]);
      assert FlagOf(status, Phases[2]) && FlagOf(status, Phases[3]);
    }
    if NextPhase(status) == PipelineComplete {
      forall j | 0 <= j < |Phases| ensures FlagOf(status, Phases[j]) {
        if j == 0 {} else if j == 1 {} else if j == 2 {} else {}
      }
    }
  }

  /** `[phase for phase, completed in phase_status.items() if completed]` */
  function CompletedPhases(status: seq<(string, bool)>): (done: seq<string>)
    ensures |done| <= |status|
  {
    if status == [] then []
    else
      var last := status[|status| - 1];
      CompletedPhases(status[..|status| - 1]) + if last.1 then [last.0] else []
  }

  /** The completed phases of a store's status are the phases holding the
      session, and there are as many as the status counts. */
  lemma {:induction false} CompletedAreHeld(db: Database, sessionId: string, ps: seq<string>)
    ensures CompletedPhases(Flags(db, sessionId, ps)) == HeldPhases(db, sessionId, ps)
    ensures |HeldPhases(db, sessionId, ps)| == CountTrue(Flags(db, sessionId, ps))
    decreases |ps|
  {
    if ps != [] {
      var init := ps[..|ps| - 1];
      var flags := Flags(db, sessionId, ps);
      assert flags[..|flags| - 1] == Flags(db, sessionId, init);
      CompletedAreHeld(db, sessionId, init);
    }
  }

  /** With distinct phase names, `get` finds an entry's own flag. */
  lemma {:induction false} FlagOfAt(status: seq<(string, bool)>, i: nat)
    requires i < |status|
    requires forall j :: 0 <= j < i ==> status[j].0 != status[i].0
    ensures FlagOf(status, status[i].0) == status[i].1
    decreases i
  {
    if i > 0 {
      FlagOfAt(status[1..], i - 1);
    }
  }

  /** The store's status flags each phase with whether it holds the session. */
  lemma FlagsOfStore(db: Database, sessionId: string, k: nat)
    requires k < |Phases|
    ensures FlagOf(Flags(db, sessionId, Phases), Phases[k]) == Holds(db, sessionId, Phases[k])
  {
    var flags := Flags(db, sessionId, Phases);
    forall j | 0 <= j <= k ensures flags[j] == (Phases[j], Holds(db, sessionId, Phases[j])) {
      FlagsIndex(db, sessionId, Phases, j);
    }
    PhasesDistinct();
    FlagOfAt(flags, k);
  }

  datatype StatusReply = StatusReply(
    sessionId: string,
    completedPhases: seq<string>,
    totalPhases: nat,
    progress: real,
    nextPhase: string,
    phaseDetails: seq<(string, bool)>,
    pipelineComplete: bool)

  const SessionNotFound: string := "Session not found"

  /** GET /session/{id}/status: 404 for a session no phase holds; otherwise
      the completed phases, the first missing phase, and whether all four
      are done. */
  method GetSessionStatus(store: DataStore, sessionId: string) returns (r: Result<StatusReply, Raised>)
    ensures r.Err? <==> !InSomePhase(store.db, sessionId)
    ensures r.Err? ==> r.error == HttpException(404, SessionNotFound)
    ensures r.Ok? ==>
              var s := r.value;
              && s.completedPhases == HeldPhases(store.db, sessionId, Phases)
              && s.progress == |s.completedPhases| as real * 25.0
              && (s.pipelineComplete <==> s.nextPhase == PipelineComplete)
              && (s.pipelineComplete <==> forall k :: 0 <= k < |Phases| ==> Holds(store.db, sessionId, Phases[k]))
              && forall k :: 0 <= k < |Phases| ==>
                   (s.nextPhase == NextPhaseTexts[k] <==>
                      !Holds(store.db, sessionId, Phases[k])
                      && forall j :: 0 <= j < k ==> Holds(store.db, sessionId, Phases[j]))
  {
    var found := store.SessionExists(sessionId);
    if !found {
      return Err(HttpException(404, SessionNotFound));
    }
    var st := store.GetSessionStatus(sessionId);
    var phaseStatus := st.phases;
    var completed := CompletedPhases(phaseStatus);
    var next := NextPhase(phaseStatus);
    CompletedAreHeld(store.db, sessionId, Phases);
    StatusAgrees(store.db, sessionId);
    forall k | 0 <= k < |Phases|
      ensures FlagOf(phaseStatus, Phases[k]) == Holds(store.db, sessionId, Phases[k])
    {
      FlagsOfStore(store.db, sessionId, k);
    }
    NextPhaseComplete(phaseStatus);
    forall k | 0 <= k < |Phases|
      ensures next == NextPhaseTexts[k] <==>
                !FlagOf(phaseStatus, Phases[k]) && forall j :: 0 <= j < k ==> FlagOf(phaseStatus, Phases[j])
    {
      NextPhaseFirstMissing(phaseStatus, k);
    }
    return Ok(StatusReply(sessionId, completed, 4, st.progress, next, phaseStatus, |completed| == 4));
  }

  // ------------------------------------------------------------ phase routes

  /** `not data` for what load_phase_data returned. */
  predicate Missing(data: Option<Value>)
  {
    data.None? || !Truthy(data.value)
  }

  /** `except HTTPException: raise` then `except Exception as e:` a 500
      whose detail is the prefix and str(e). */
  function Reraise(prefix: string, e: Raised): (r: Raised)
    ensures r.HttpException?
    ensures e.HttpException? ==> r == e
  {
    if e.HttpException? then e else HttpException(500, prefix + ErrorText(e))
  }

  /** The AttributeError message for calling `.name` on a value without it. */
  function NoAttribute(v: Value, name: string): string
  {
    "'" + TypeName(v) + "' object has no attribute '" + name + "'"
  }

  /** The reply of phase 1. */
  function Phase1Reply(sessionId: string, formIndex: nat, formDict: Value): Value
  {
    Obj([("session_id", Str(sessionId)), ("status", Str("success")),
         ("message", Str("Form data processed and saved successfully")),
         ("next_phase", Str("Phase 2: Upload facial image for analysis")),
         ("form_index", Int(formIndex)), ("data", formDict)])
  }

  /** POST /phase1/form-analysis: the form is submitted to the phase 1
      service, then saved under a new session id (given here, as uuid4
      draws it) in the phase 1 collection. `toDict` is Pydantic's .dict(). */
  method Phase1FormAnalysis(service: FormProcessing.Phase1Service, store: DataStore, form: Forms.FormData,
                            sessionId: string, toDict: Forms.FormData -> Value, now: int)
    returns (r: Value)
    modifies service, store
    ensures service.submittedForms == old(service.submittedForms) + [form]
    ensures store.db == Saved(old(store.db), sessionId, "phase1", toDict(form), now)
    ensures r == Phase1Reply(sessionId, |old(service.submittedForms)|, toDict(form))
  {
    var result := service.SubmitForm(form);
    var formDict := toDict(result.storedData);
    var success := store.SavePhaseData(sessionId, "phase1", formDict, now);
    r := Phase1Reply(sessionId, result.formIndex, formDict);
  }

  const SessionNotFoundPhase2: string := "Session not found. Complete Phase 1 first."
  const NotAnImage: string := "File must be an image (JPEG, PNG, etc.)"

  /** The reply of phase 2. */
  function Phase2Reply(sessionId: string, analysis: Value): Value
  {
    Obj([("session_id", Str(sessionId)), ("status", Str("success")),
         ("message", Str("Image analysis completed and saved successfully")),
         ("next_phase", Str("Phase 3: Generate product recommendations")),
         ("analysis", analysis)])
  }

  /** POST /phase2/image-analysis: the session must exist and the upload's
      content type must start with "image/" before the image is analysed;
      the analysis (the service's result, given) is saved for phase 3. */
  method Phase2ImageAnalysis(store: DataStore, sessionId: string, contentType: Option<string>,
                             analysis: Result<Value, Raised>, now: int)
    returns (r: Result<Value, Raised>)
    modifies store
    ensures !InSomePhase(old(store.db), sessionId) ==> r == Err(HttpException(404, SessionNotFoundPhase2))
    ensures InSomePhase(old(store.db), sessionId) && contentType.None? ==>
              r == Err(HttpException(500, "Phase 2 failed: " + NoAttribute(Null, "startswith")))
    ensures InSomePhase(old(store.db), sessionId) && contentType.Some? && !StartsWith(contentType.value, "image/") ==>
              r == Err(HttpException(400, NotAnImage))
    ensures r.Ok? <==> InSomePhase(old(store.db), sessionId) && contentType.Some?
                       && StartsWith(contentType.value, "image/") && analysis.Ok?
    ensures r.Ok? ==> r.value == Phase2Reply(sessionId, analysis.value)
                      && store.db == Saved(old(store.db), sessionId, "phase2", analysis.value, now)
    ensures r.Err? ==> r.error.HttpException? && store.db == old(store.db)
    ensures (analysis.Err? && InSomePhase(old(store.db), sessionId) && contentType.Some?
             && StartsWith(contentType.value, "image/")) ==> r == Err(Reraise("Phase 2 failed: ", analysis.error))
  {
    var found := store.SessionExists(sessionId);
    if !found {
      return Err(HttpException(404, SessionNotFoundPhase2));
    }
    if contentType.None? {
      return Err(Reraise("Phase 2 failed: ", PyException("AttributeError", NoAttribute(Null, "startswith"))));
    }
    if !StartsWith(contentType.value, "image/") {
      return Err(HttpException(400, NotAnImage));
    }
    if analysis.Err? {
      return Err(Reraise("Phase 2 failed: ", analysis.error));
    }
    var success := store.SavePhaseData(sessionId, "phase2", analysis.value, now);
    return Ok(Phase2Reply(sessionId, analysis.value));
  }

  const MissingForm: string := "Missing form data. Complete Phase 1 first."
  const MissingAnalysis: string := "Missing image analysis. Complete Phase 2 first."
  const MissingRecommendations: string := "Missing product recommendations. Complete Phase 3 first."

  /** `{"form_data": form, "skin_analysis": analysis.get("ai_output", analysis)}`;
      a stored analysis that is not a dict has no .get. */
  function Phase3Input(form: Value, analysis: Value): Result<Value, Raised>
  {
    if analysis.Obj? then
      Ok(Obj([("form_data", form), ("skin_analysis", GetOr(analysis.entries, "ai_output", analysis))]))
    else Err(PyException("AttributeError", NoAttribute(analysis, "get")))
  }

  /** The state after the two loads a route makes at time `now`. */
  function LoadedTwice(db: Database, sessionId: string, p: string, q: string, now: int): Database
  {
    AfterLoad(AfterLoad(db, sessionId, p, now), sessionId, q, now)
  }

  /** POST /phase3/product-recommendations: both the form (phase 1) and the
      image analysis (phase 2) must be present before the service runs; the
      service (budget_distribution, given) returns the reply and the
      enriched data, which is saved for phase 4. */
  method Phase3ProductRecommendations(store: DataStore, sessionId: string, now: int,
                                      budgetDistribution: (Value, string) -> Result<(Value, Value), Raised>)
    returns (r: Result<Value, Raised>)
    modifies store
    ensures var form := LoadResult(old(store.db), sessionId, "phase1", now);
            var analysis := LoadResult(old(store.db), sessionId, "phase2", now);
            var loaded := LoadedTwice(old(store.db), sessionId, "phase1", "phase2", now);
            && (Missing(form) ==> r == Err(HttpException(400, MissingForm)))
            && (!Missing(form) && Missing(analysis) ==> r == Err(HttpException(400, MissingAnalysis)))
            && (!Missing(form) && !Missing(analysis) ==>
                  match Phase3Input(form.value, analysis.value)
                  case Err(e) => r == Err(Reraise("Phase 3 failed: ", e))
                  case Ok(input) =>
                    match budgetDistribution(input, sessionId)
                    case Err(e) => r == Err(Reraise("Phase 3 failed: ", e))
                    case Ok(out) => r == Ok(out.0) && store.db == Saved(loaded, sessionId, "phase3", out.1, now))
            && (r.Err? ==> r.error.HttpException? && store.db == loaded)
  {
    var formData := store.LoadPhaseData(sessionId, "phase1", now);
    var analysisData := store.LoadPhaseData(sessionId, "phase2", now);
    LoadAfterLoad(old(store.db), sessionId, "phase1", now, sessionId, "phase2");
    if formData.None? || !Truthy(formData.value) {
      return Err(HttpException(400, MissingForm));
    }
    if analysisData.None? || !Truthy(analysisData.value) {
      return Err(HttpException(400, MissingAnalysis));
    }
    var input := Phase3Input(formData.value, analysisData.value);
    if input.Err? {
      return Err(Reraise("Phase 3 failed: ", input.error));
    }
    var result := budgetDistribution(input.value, sessionId);
    if result.Err? {
      return Err(Reraise("Phase 3 failed: ", result.error));
    }
    var success := store.SavePhaseData(sessionId, "phase3", result.value.1, now);
    return Ok(result.value.0);
  }

  /** `{"form_data": form, "product_recommendations": recs.get("products", {})}`;
      stored recommendations that are not a dict have no .get. */
  function Phase4Input(form: Value, recs: Value): Result<Entries, Raised>
  {
    if recs.Obj? then Ok([("form_data", form), ("product_recommendations", GetOr(recs.entries, "products", Obj([])))])
    else Err(PyException("AttributeError", NoAttribute(recs, "get")))
  }

  /** The service finds the form under "form_data" and the products under
      "product_recommendations". */
  lemma Phase4InputFields(form: Value, recs: Value)
    requires recs.Obj?
    ensures GetOr(Phase4Input(form, recs).value, "form_data", Obj([])) == form
    ensures GetOr(Phase4Input(form, recs).value, "product_recommendations", Obj([]))
            == GetOr(recs.entries, "products", Obj([]))
  {
    var e := Phase4Input(form, recs).value;
    assert e[0].0 != "product_recommendations" by {
      assert |e[0].0| != |"product_recommendations"|;
    }
    var products := GetOr(recs.entries, "products", Obj([]));
    assert e[1..] == [("product_recommendations", products)];
    assert Get(e, "product_recommendations") == Get(e[1..], "product_recommendations");
    assert Get(e[1..], "product_recommendations") == Some(products);
  }

  /** POST /phase4/routine-creation: both the form (phase 1) and the
      recommendations (phase 3) must be present before the routine is
      created; the service receives the recommendations' "products" (an
      empty dict when there are none), and the routine it creates is
      returned and saved as phase 4, its failures re-raised. `validate`
      is the FormData(**...) constructor. */
  method Phase4RoutineCreation(store: DataStore, sessionId: string, now: int,
                               model: Option<Fences.Model>, codec: Codec, iso: int -> string,
                               validate: Value -> Result<Forms.FormData, string>)
    returns (r: Result<Value, Raised>)
    modifies store
    ensures var form := LoadResult(old(store.db), sessionId, "phase1", now);
            var recs := LoadResult(old(store.db), sessionId, "phase3", now);
            var loaded := LoadedTwice(old(store.db), sessionId, "phase1", "phase3", now);
            && (Missing(form) ==> r == Err(HttpException(400, MissingForm)))
            && (!Missing(form) && Missing(recs) ==> r == Err(HttpException(400, MissingRecommendations)))
            && (!Missing(form) && !Missing(recs) && !recs.value.Obj? ==>
                  r == Err(HttpException(500, "Phase 4 failed: " + NoAttribute(recs.value, "get"))))
            && (!Missing(form) && !Missing(recs) && recs.value.Obj? && validate(form.value).Ok?
                && !Truthy(GetOr(recs.value.entries, "products", Obj([]))) ==>
                  r == Err(RoutineCreation.Failure(HttpException(400, NoRecommendations))))
            && (r.Ok? ==> (exists steps :: r.value == RoutineCreation.RoutineResponse(steps))
                          && store.db == Saved(loaded, sessionId, "phase4", r.value, now))
            && (r.Err? ==> r.error.HttpException? && store.db == loaded)
            && (!Missing(form) && !Missing(recs) && recs.value.Obj? ==>
                  var c := RoutineCreation.CreatedRoutine(model, codec, iso, validate(form.value),
                                                          Phase4Input(form.value, recs.value).value);
                  r == if c.Ok? then c else Err(Reraise("Phase 4 failed: ", c.error)))
  {
    var formData := store.LoadPhaseData(sessionId, "phase1", now);
    var recommendations := store.LoadPhaseData(sessionId, "phase3", now);
    LoadAfterLoad(old(store.db), sessionId, "phase1", now, sessionId, "phase3");
    if formData.None? || !Truthy(formData.value) {
      return Err(HttpException(400, MissingForm));
    }
    if recommendations.None? || !Truthy(recommendations.value) {
      return Err(HttpException(400, MissingRecommendations));
    }
    var input := Phase4Input(formData.value, recommendations.value);
    if input.Err? {
      return Err(Reraise("Phase 4 failed: ", input.error));
    }
    Phase4InputFields(formData.value, recommendations.value);
    var routine := CreateRoutineFor(model, codec, iso, validate, input.value);
    if routine.Err? {
      return Err(Reraise("Phase 4 failed: ", routine.error));
    }
    var success := store.SavePhaseData(sessionId, "phase4", routine.value, now);
    return Ok(routine.value);
  }

  const NoRecommendations: string := "No product recommendations provided"

  /** phase4_service.create_routine on the phase 4 input, seen from the
      route: its failures are all 500s, a success is a routine response, and
      a falsy "product_recommendations" of a valid form is refused. */
  method CreateRoutineFor(model: Option<Fences.Model>, codec: Codec, iso: int -> string,
                          validate: Value -> Result<Forms.FormData, string>, input: Entries)
    returns (r: Result<Value, Raised>)
    ensures r.Err? ==> r.error.HttpException? && r.error.status == 500
    ensures r.Ok? ==> exists steps :: r.value == RoutineCreation.RoutineResponse(steps)
    ensures validate(GetOr(input, "form_data", Obj([]))).Ok?
            && !Truthy(GetOr(input, "product_recommendations", Obj([]))) ==>
              r == Err(RoutineCreation.Failure(HttpException(400, NoRecommendations)))
    ensures r == RoutineCreation.CreatedRoutine(model, codec, iso, validate(GetOr(input, "form_data", Obj([]))), input)
  {
    var form := validate(GetOr(input, "form_data", Obj([])));
    r := RoutineCreation.CreateRoutine(model, codec, iso, form, input);
  }
}

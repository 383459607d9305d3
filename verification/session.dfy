/** The screen state of App.tsx and its handlers. An asynchronous handler is
    split at its `await`: `Start...` runs the synchronous part and either
    finishes (`Done`) or hands back the request it sends (`Await`);
    `Finish...` applies the outcome to the state current when the reply
    arrives, as React's functional updates do. The browser's local storage
    entry for the key is the field `storedKey`. */
module Session {
  import opened Wrappers
  import opened Text
  import opened Webtoon
  import Composer
  import Gemini

  /** The key check's status in the settings dialog. */
  datatype Verification = Idle | Loading | Success | Error

  datatype State = State(
    subject: string,
    selectedStyle: ArtStyle,
    isPlanning: bool,
    plan: Option<Plan>,
    error: Option<string>,
    isUpdatingPrompt: bool,
    isGeneratingImage: bool,
    generatedImage: Option<string>,
    imageError: Option<string>,
    isSettingsOpen: bool,
    apiKey: string,
    verification: Verification,
    storedKey: Option<string>)

  /** A handler's synchronous part: finished, or waiting on `request`. */
  datatype Step<Q> = Done(state: State) | Await(state: State, request: Q)

  /** The arguments of `createWebtoonPlan`. */
  datatype PlanRequest = PlanRequest(subject: string, style: ArtStyle, key: string)

  /** The arguments of `rebuildPrompt` and `generateWebtoonPreviewImage`. */
  datatype PlanJob = PlanJob(plan: Plan, key: string)
  datatype ImageJob = ImageJob(prompt: string, key: string)

  const NoKeyMessage := "설정에서 Gemini API 키를 먼저 저장해주세요!"
  const NoSubjectMessage := "주제를 입력해주세요!"
  const PlanFailedMessage := "기획안 생성 중 오류가 발생했습니다. API 키를 확인해주세요."
  const RebuildFailedMessage := "프롬프트 갱신 중 오류가 발생했습니다."
  const ImageFailedMessage := "이미지 생성에 실패했습니다."

  /** `localStorage.getItem(STORAGE_KEY)` is truthy: present and not empty. */
  predicate HasSavedKey(s: State): (b: bool)
    ensures b ==> s.storedKey.Some?
    ensures Valid(s) ==> (b <==> s.storedKey.Some?)
  {
    s.storedKey.Some? && s.storedKey.value != ""
  }

  /** The storage entry, when present, is never empty. */
  predicate Valid(s: State) {
    s.storedKey.Some? ==> s.storedKey.value != ""
  }

  /** The state after mounting, given what local storage holds: a truthy
      saved key is loaded into the key field and taken as verified. */
  function Mount(stored: Option<string>): (s: State)
    ensures s.storedKey == stored && s.plan.None? && s.error.None? && s.subject == ""
    ensures stored.Some? && stored.value != "" ==> s.apiKey == stored.value && s.verification == Success
    ensures stored.None? || stored.value == "" ==> s.apiKey == "" && s.verification == Idle
  {
    var blank := State("", Instatoon, false, None, None, false, false, None, None, false, "", Idle, stored);
    if stored.Some? && stored.value != "" then blank.(apiKey := stored.value, verification := Success)
    else blank
  }

  // ---------------------------------------------------------------------
  // Editing the plan.
  // ---------------------------------------------------------------------

  /** `Partial<WebtoonPlan>`: the fields an update replaces. */
  datatype PlanPatch = PlanPatch(
    subject: Option<string>,
    artStyle: Option<ArtStyle>,
    recommendedCharacter: Option<Character>,
    storySummary: Option<seq<string>>,
    dialogues: Option<seq<string>>,
    infoTextBlock: Option<string>,
    referenceSources: Option<seq<string>>,
    outroDetails: Option<OutroDetails>,
    mainColor: Option<string>,
    englishPrompt: Option<string>)

  const NoChange := PlanPatch(None, None, None, None, None, None, None, None, None, None)

  /** `{ ...plan, ...updates }`. */
  function ApplyPatch(p: Plan, u: PlanPatch): (r: Plan)
    ensures u.subject.Some? ==> r.subject == u.subject.value
    ensures u.subject.None? ==> r.subject == p.subject
    ensures u.artStyle.Some? ==> r.artStyle == u.artStyle.value
    ensures u.artStyle.None? ==> r.artStyle == p.artStyle
    ensures u.recommendedCharacter.Some? ==> r.recommendedCharacter == u.recommendedCharacter.value
    ensures u.recommendedCharacter.None? ==> r.recommendedCharacter == p.recommendedCharacter
    ensures u.storySummary.Some? ==> r.storySummary == u.storySummary.value
    ensures u.storySummary.None? ==> r.storySummary == p.storySummary
    ensures u.dialogues.Some? ==> r.dialogues == u.dialogues.value
    ensures u.dialogues.None? ==> r.dialogues == p.dialogues
    ensures u.infoTextBlock.Some? ==> r.infoTextBlock == u.infoTextBlock.value
    ensures u.infoTextBlock.None? ==> r.infoTextBlock == p.infoTextBlock
    ensures u.referenceSources.Some? ==> r.referenceSources == u.referenceSources.value
    ensures u.referenceSources.None? ==> r.referenceSources == p.referenceSources
    ensures u.outroDetails.Some? ==> r.outroDetails == u.outroDetails.value
    ensures u.outroDetails.None? ==> r.outroDetails == p.outroDetails
    ensures u.mainColor.Some? ==> r.mainColor == u.mainColor.value
    ensures u.mainColor.None? ==> r.mainColor == p.mainColor
    ensures u.englishPrompt.Some? ==> r.englishPrompt == u.englishPrompt.value
    ensures u.englishPrompt.None? ==> r.englishPrompt == p.englishPrompt
  {
    Plan(
      u.subject.GetOr(p.subject),
      u.artStyle.GetOr(p.artStyle),
      u.recommendedCharacter.GetOr(p.recommendedCharacter),
      u.storySummary.GetOr(p.storySummary),
      u.dialogues.GetOr(p.dialogues),
      u.infoTextBlock.GetOr(p.infoTextBlock),
      u.referenceSources.GetOr(p.referenceSources),
      u.outroDetails.GetOr(p.outroDetails),
      u.mainColor.GetOr(p.mainColor),
      u.englishPrompt.GetOr(p.englishPrompt))
  }

  /** A patch naming no field changes nothing, and applying a patch twice is
      applying it once. */
  lemma ApplyPatchLaws(p: Plan, u: PlanPatch)
    ensures ApplyPatch(p, NoChange) == p
    ensures ApplyPatch(ApplyPatch(p, u), u) == ApplyPatch(p, u)
  {
  }

  /** `updatePlan`: patches the plan when there is one; nothing else
      changes, and without a plan nothing changes at all. */
  function UpdatePlan(s: State, u: PlanPatch): (r: State)
    ensures r.plan.Some? <==> s.plan.Some?
    ensures r.plan.Some? ==> r.plan.value == ApplyPatch(s.plan.value, u)
    ensures r.(plan := s.plan) == s
  {
    match s.plan
    case None => s
    case Some(p) => s.(plan := Some(ApplyPatch(p, u)))
  }

  /** The prompt-only patch `rebuildPrompt`'s answer is applied with. */
  function PromptPatch(prompt: string): PlanPatch {
    NoChange.(englishPrompt := Some(prompt))
  }

  /** `updateStoryStep`: sets step `i` of the story; the other steps, the
      number of steps and every other field stay as they were. The screen
      only offers indices of existing steps. */
  function UpdateStoryStep(s: State, i: nat, v: string): (r: State)
    requires s.plan.Some? ==> i < |s.plan.value.storySummary|
    ensures r.plan.Some? <==> s.plan.Some?
    ensures r.plan.Some? ==>
      var before, after := s.plan.value, r.plan.value;
      && |after.storySummary| == |before.storySummary|
      && after.storySummary[i] == v
      && (forall j :: 0 <= j < |before.storySummary| && j != i ==>
            after.storySummary[j] == before.storySummary[j])
      && after.(storySummary := before.storySummary) == before
    ensures r.(plan := s.plan) == s
  {
    match s.plan
    case None => s
    case Some(p) => UpdatePlan(s, NoChange.(storySummary := Some(p.storySummary[i := v])))
  }

  /** `updateDialogueStep`: sets dialogue `i`, appending it when `i` is one
      past the last; the other dialogues and every other field stay. */
  function UpdateDialogueStep(s: State, i: nat, v: string): (r: State)
    requires s.plan.Some? ==> i <= |s.plan.value.dialogues|
    ensures r.plan.Some? <==> s.plan.Some?
    ensures r.plan.Some? ==>
      var before, after := s.plan.value, r.plan.value;
      && |after.dialogues| == (if i < |before.dialogues| then |before.dialogues| else i + 1)
      && after.dialogues[i] == v
      && (forall j :: 0 <= j < |before.dialogues| && j != i ==>
            after.dialogues[j] == before.dialogues[j])
      && after.(dialogues := before.dialogues) == before
    ensures r.(plan := s.plan) == s
  {
    match s.plan
    case None => s
    case Some(p) =>
      var ds := if i < |p.dialogues| then p.dialogues[i := v] else p.dialogues + [v];
      UpdatePlan(s, NoChange.(dialogues := Some(ds)))
  }

  // ---------------------------------------------------------------------
  // Creating a plan.
  // ---------------------------------------------------------------------

  /** `handleCreatePlan` up to its `await`. Without a saved key it opens the
      settings with an error; with a blank subject it reports that; either
      way the plan and the rest stay. Otherwise it clears the plan, the
      error and the image, marks planning, and asks for a plan for the
      subject as typed (untrimmed), the chosen style and the saved key. */
  function StartCreatePlan(s: State): (r: Step<PlanRequest>)
    ensures r.Await? <==> HasSavedKey(s) && !AllSpace(s.subject)
    ensures !HasSavedKey(s) ==>
      r == Done(s.(isSettingsOpen := true, error := Some(NoKeyMessage)))
    ensures HasSavedKey(s) && AllSpace(s.subject) ==>
      r == Done(s.(error := Some(NoSubjectMessage)))
    ensures r.Await? ==>
      && r.request == PlanRequest(s.subject, s.selectedStyle, s.storedKey.value)
      && r.state == s.(isPlanning := true, plan := None, error := None,
                       generatedImage := None, imageError := None)
  {
    if !HasSavedKey(s) then
      Done(s.(isSettingsOpen := true, error := Some(NoKeyMessage)))
    else
      TrimEmptyIff(s.subject);
      if Trim(s.subject) == "" then
        Done(s.(error := Some(NoSubjectMessage)))
      else
        Await(s.(isPlanning := true, plan := None, error := None,
                 generatedImage := None, imageError := None),
              PlanRequest(s.subject, s.selectedStyle, s.storedKey.value))
  }

  /** `handleCreatePlan` after its `await`: planning ends; a plan replaces
      the current one, a failure sets the error and leaves the plan. */
  function FinishCreatePlan(s: State, outcome: Result<Plan, string>): (r: State)
    ensures !r.isPlanning
    ensures outcome.Ok? ==> r.plan == Some(outcome.value) && r.error == s.error
    ensures outcome.Err? ==> r.plan == s.plan && r.error == Some(PlanFailedMessage)
    ensures r.(isPlanning := s.isPlanning, plan := s.plan, error := s.error) == s
  {
    match outcome
    case Ok(p) => s.(isPlanning := false, plan := Some(p))
    case Err(_) => s.(isPlanning := false, error := Some(PlanFailedMessage))
  }

  /** A failed request leaves the screen without a plan or image and with
      the failure message, whatever the remote side answered. */
  lemma CreatePlanFails(s: State, reason: string)
    requires StartCreatePlan(s).Await?
    ensures var r := FinishCreatePlan(StartCreatePlan(s).state, Err(reason));
      && r.plan.None? && r.generatedImage.None? && r.imageError.None?
      && r.error == Some(PlanFailedMessage) && !r.isPlanning
  {
  }

  // ---------------------------------------------------------------------
  // Rebuilding the prompt.
  // ---------------------------------------------------------------------

  /** `handleRebuildPrompt` up to its `await`: nothing happens without a
      plan or a saved key; otherwise it marks the update and sends the plan
      as it is now. */
  function StartRebuildPrompt(s: State): (r: Step<PlanJob>)
    ensures r.Await? <==> s.plan.Some? && HasSavedKey(s)
    ensures r.Done? ==> r.state == s
    ensures r.Await? ==>
      && r.request == PlanJob(s.plan.value, s.storedKey.value)
      && r.state == s.(isUpdatingPrompt := true)
  {
    if s.plan.None? || !HasSavedKey(s) then Done(s)
    else Await(s.(isUpdatingPrompt := true), PlanJob(s.plan.value, s.storedKey.value))
  }

  /** `handleRebuildPrompt` after its `await`: the new prompt replaces the
      prompt of whatever plan is current, or a failure sets the error; the
      update mark is cleared in both cases. */
  function FinishRebuildPrompt(s: State, outcome: Result<string, string>): (r: State)
    ensures !r.isUpdatingPrompt
    ensures r.plan.Some? <==> s.plan.Some?
    ensures outcome.Ok? ==>
      && r.error == s.error
      && (r.plan.Some? ==>
            && r.plan.value.englishPrompt == outcome.value
            && r.plan.value.(englishPrompt := s.plan.value.englishPrompt) == s.plan.value)
    ensures outcome.Err? ==> r.plan == s.plan && r.error == Some(RebuildFailedMessage)
    ensures r.(plan := s.plan, error := s.error, isUpdatingPrompt := s.isUpdatingPrompt) == s
  {
    match outcome
    case Ok(prompt) => UpdatePlan(s, PromptPatch(prompt)).(isUpdatingPrompt := false)
    case Err(_) => s.(isUpdatingPrompt := false, error := Some(RebuildFailedMessage))
  }

  /** A rebuild run to its end with the text model `model` changes only the
      plan's prompt (and the error on failure); the new prompt is the
      trimmed answer, or the old prompt when the answer is blank, so a
      non-empty prompt never becomes empty. */
  lemma RebuildKeepsPlan(s: State, model: string -> Composer.TextReply)
    requires StartRebuildPrompt(s).Await?
    ensures var r := FinishRebuildPrompt(StartRebuildPrompt(s).state,
                                         Composer.RebuildPrompt(s.plan.value, model));
      && r.plan.Some?
      && r.plan.value.(englishPrompt := s.plan.value.englishPrompt) == s.plan.value
      && (s.plan.value.englishPrompt != "" ==> r.plan.value.englishPrompt != "")
      && !r.isUpdatingPrompt
      && r.(plan := s.plan, error := s.error, isUpdatingPrompt := s.isUpdatingPrompt) == s
  {
    var m := StartRebuildPrompt(s).state;
    var outcome := Composer.RebuildPrompt(s.plan.value, model);
    var r := FinishRebuildPrompt(m, outcome);
    if outcome.Ok? {
      assert r.plan.value == ApplyPatch(s.plan.value, PromptPatch(outcome.value));
    }
  }

  // ---------------------------------------------------------------------
  // Generating the preview image.
  // ---------------------------------------------------------------------

  /** `handleGenerateImage` up to its `await`: nothing happens without a
      plan with a non-empty prompt or without a saved key; otherwise it
      clears the image and its error, marks generation, and sends the
      prompt. */
  function StartGenerateImage(s: State): (r: Step<ImageJob>)
    ensures r.Await? <==> s.plan.Some? && s.plan.value.englishPrompt != "" && HasSavedKey(s)
    ensures r.Done? ==> r.state == s
    ensures r.Await? ==>
      && r.request == ImageJob(s.plan.value.englishPrompt, s.storedKey.value)
      && r.state == s.(isGeneratingImage := true, imageError := None, generatedImage := None)
  {
    if s.plan.None? || s.plan.value.englishPrompt == "" || !HasSavedKey(s) then Done(s)
    else Await(s.(isGeneratingImage := true, imageError := None, generatedImage := None),
               ImageJob(s.plan.value.englishPrompt, s.storedKey.value))
  }

  /** `handleGenerateImage` after its `await`: the image (possibly none)
      is shown, or the error's message, falling back to a fixed message
      when it is empty; generation ends in both cases. */
  function FinishGenerateImage(s: State, outcome: Result<Option<string>, string>): (r: State)
    ensures !r.isGeneratingImage
    ensures outcome.Ok? ==> r.generatedImage == outcome.value && r.imageError == s.imageError
    ensures outcome.Err? ==>
      && r.generatedImage == s.generatedImage
      && r.imageError.Some? && r.imageError.value != ""
      && (outcome.error != "" ==> r.imageError == Some(outcome.error))
    ensures r.(isGeneratingImage := s.isGeneratingImage, generatedImage := s.generatedImage,
               imageError := s.imageError) == s
  {
    match outcome
    case Ok(url) => s.(isGeneratingImage := false, generatedImage := url)
    case Err(message) =>
      s.(isGeneratingImage := false,
         imageError := Some(if message != "" then message else ImageFailedMessage))
  }

  /** A generation run to its end with the image model `model`: a thrown
      error shows the service's classified message, which is never empty,
      so the screen's own fallback is not used, and no image; a response shows its
      first inline image as a data URI, or none. */
  lemma GenerateImageOutcome(s: State, model: Gemini.ImageRequest -> Gemini.ImageReply)
    requires StartGenerateImage(s).Await?
    ensures var prompt := s.plan.value.englishPrompt;
      var reply := model(Gemini.ImageRequestFor(prompt));
      var r := FinishGenerateImage(StartGenerateImage(s).state, Gemini.GenerateImage(prompt, model));
      && !r.isGeneratingImage
      && (reply.Threw? ==>
            && r.generatedImage.None?
            && r.imageError == Some(Gemini.ClassifyImageError(reply.message)))
      && (reply.Responded? ==>
            && r.imageError.None?
            && r.generatedImage == Gemini.ImageUri(reply.response))
  {
    var prompt := s.plan.value.englishPrompt;
    var reply := model(Gemini.ImageRequestFor(prompt));
    if reply.Threw? {
      Gemini.ClassifyStable(reply.message);
    }
  }

  // ---------------------------------------------------------------------
  // The key.
  // ---------------------------------------------------------------------

  /** `handleVerifyAndSave` up to its `await`: an empty key field does
      nothing; otherwise the status turns to loading and the field's key is
      probed. */
  function StartVerifyAndSave(s: State): (r: Step<string>)
    ensures r.Await? <==> s.apiKey != ""
    ensures r.Done? ==> r.state == s
    ensures r.Await? ==> r.request == s.apiKey && r.state == s.(verification := Loading)
  {
    if s.apiKey == "" then Done(s) else Await(s.(verification := Loading), s.apiKey)
  }

  /** `handleVerifyAndSave` after its `await`: a valid key is stored (the
      key probed, even if the field was edited meanwhile) and marked
      verified; an invalid one marks the check failed and stores nothing. */
  function FinishVerifyAndSave(s: State, probed: string, valid: bool): (r: State)
    ensures valid ==> r.verification == Success && r.storedKey == Some(probed)
    ensures !valid ==> r.verification == Error && r.storedKey == s.storedKey
    ensures r.(verification := s.verification, storedKey := s.storedKey) == s
  {
    if valid then s.(verification := Success, storedKey := Some(probed))
    else s.(verification := Error)
  }

  /** `handleResetKey`: when the user confirms, the key field is emptied,
      the stored key removed and the status reset; otherwise nothing. */
  function ResetKey(s: State, confirmed: bool): (r: State)
    ensures confirmed ==> r.apiKey == "" && r.storedKey.None? && r.verification == Idle && !HasSavedKey(r)
    ensures !confirmed ==> r == s
    ensures r.(apiKey := s.apiKey, storedKey := s.storedKey, verification := s.verification) == s
  {
    if confirmed then s.(apiKey := "", storedKey := None, verification := Idle) else s
  }

  /** Typing in the key field: the field takes the text and any status
      returns to idle. */
  function EditKey(s: State, text: string): (r: State)
    ensures r.apiKey == text && r.verification == Idle
    ensures r.(apiKey := s.apiKey, verification := s.verification) == s
  {
    var typed := s.(apiKey := text);
    if s.verification != Idle then typed.(verification := Idle) else typed
  }

  /** The settings button: the status shows success exactly when the key
      field is not empty, and the dialog opens. */
  function OpenSettings(s: State): (r: State)
    ensures r.isSettingsOpen
    ensures r.verification == Success <==> s.apiKey != ""
    ensures r.verification == Idle <==> s.apiKey == ""
    ensures r.(isSettingsOpen := s.isSettingsOpen, verification := s.verification) == s
  {
    s.(verification := if s.apiKey != "" then Success else Idle, isSettingsOpen := true)
  }

  /** The key handlers keep the stored key non-empty: only the key probe
      stores one, and only after an empty field was turned away. */
  lemma KeyHandlersKeepValid(s: State, valid: bool, text: string, confirmed: bool)
    requires Valid(s)
    ensures StartVerifyAndSave(s).Await? ==>
      Valid(FinishVerifyAndSave(StartVerifyAndSave(s).state, StartVerifyAndSave(s).request, valid))
    ensures Valid(ResetKey(s, confirmed)) && Valid(EditKey(s, text)) && Valid(OpenSettings(s))
  {
  }

  /** The key handler end to end, with the probe as the remote call: the
      key in the field is stored and marked verified exactly when the probe
      sent with it is accepted; a rejected key leaves the stored key as it
      was. A stored key is what the next mount loads, verified. */
  lemma VerifyAndSaveOutcome(s: State, send: (string, Gemini.ProbeRequest) -> Gemini.ProbeReply)
    requires s.apiKey != ""
    ensures var r := FinishVerifyAndSave(StartVerifyAndSave(s).state, StartVerifyAndSave(s).request,
                                         Gemini.VerifyApiKey(s.apiKey, send));
      && ((r.storedKey == Some(s.apiKey) && r.verification == Success)
          <==> send(s.apiKey, Gemini.KeyProbe).Accepted?)
      && (send(s.apiKey, Gemini.KeyProbe).Rejected? ==>
            r.storedKey == s.storedKey && r.verification == Error)
      && (send(s.apiKey, Gemini.KeyProbe).Accepted? ==>
            HasSavedKey(r) && Mount(r.storedKey).apiKey == s.apiKey
            && Mount(r.storedKey).verification == Success)
  {
  }

  /** Mounting from any storage content: the state is valid exactly when the
      entry is not the empty string, a key counts as saved exactly when it
      is shown verified, and opening the settings right away shows the
      status the mount chose. */
  lemma MountLaws(stored: Option<string>)
    ensures Valid(Mount(stored)) <==> stored != Some("")
    ensures HasSavedKey(Mount(stored)) <==> Mount(stored).verification == Success
    ensures OpenSettings(Mount(stored)).verification == Mount(stored).verification
    ensures Mount(stored).apiKey != "" ==> Mount(stored).storedKey == Some(Mount(stored).apiKey)
  {
  }
}

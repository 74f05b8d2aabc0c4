/**
  * The logic of the project detail page, as the `ProjectDetailLogic` class of
  * `src/views/__tests__/ProjectDetailLogic.test.ts` states it: a view/edit/create
  * mode machine over a five-field form, the unsaved-changes test, the save
  * payload and the two status cards with their toggles.
  *
  * The store calls a save or toggle makes are returned as requests, and their
  * outcomes are parameters; the messages to the error display are returned
  * as notices.
  */
module ProjectDetailLogic {
  import opened Wrappers
  import opened Api
  import opened Strings
  import opened Reference
  import opened Projects
  import opened Contexts
  import opened Languages
  import opened ErrorDisplay

  datatype Mode = View | Edit | Create

  datatype ProjectForm = ProjectForm(
    internalName: string,
    backwardCompatibility: string,
    launchDate: string,
    contextId: string,
    languageId: string)

  datatype FormField = InternalName | BackwardCompatibility | LaunchDate | ContextId | LanguageId

  function FieldOf(form: ProjectForm, f: FormField): string
  {
    match f
    case InternalName => form.internalName
    case BackwardCompatibility => form.backwardCompatibility
    case LaunchDate => form.launchDate
    case ContextId => form.contextId
    case LanguageId => form.languageId
  }

  /** The five `!==` comparisons of `hasUnsavedChanges` say exactly that the
    * two forms differ. */
  lemma {:induction false} FormsDifferIffAFieldDiffers(form: ProjectForm, baseline: ProjectForm)
    ensures form != baseline <==> exists f :: FieldOf(form, f) != FieldOf(baseline, f)
  {
    if form != baseline {
      if form.internalName != baseline.internalName {
        assert FieldOf(form, InternalName) != FieldOf(baseline, InternalName);
      } else if form.backwardCompatibility != baseline.backwardCompatibility {
        assert FieldOf(form, BackwardCompatibility) != FieldOf(baseline, BackwardCompatibility);
      } else if form.launchDate != baseline.launchDate {
        assert FieldOf(form, LaunchDate) != FieldOf(baseline, LaunchDate);
      } else if form.contextId != baseline.contextId {
        assert FieldOf(form, ContextId) != FieldOf(baseline, ContextId);
      } else {
        assert FieldOf(form, LanguageId) != FieldOf(baseline, LanguageId);
      }
    }
  }

  /** `value || ''` */
  function OrEmpty(v: Option<string>): string
  {
    if v.Some? then v.value else ""
  }

  /** The `YYYY-MM-DD` value of a date input: the launch date up to its first
    * `T`; a missing or empty date gives `''`. */
  function DateInputValue(launchDate: Option<string>): (r: string)
    ensures 'T' !in r
  {
    if launchDate.Some? && launchDate.value != "" then Split(launchDate.value, 'T')[0] else ""
  }

  lemma {:induction false} DateInputValueOfTimestamp(day: string, time: string)
    requires 'T' !in day
    ensures DateInputValue(Some(day + "T" + time)) == day
    ensures DateInputValue(Some(day)) == day
  {
    SplitField(day, 'T', time);
    SplitWhole(day, 'T');
  }

  function IdOf(r: Option<ReferenceRecord>): string
  {
    if r.Some? then r.value.id else ""
  }

  /** The form a new project starts from: empty texts, and the default
    * context and language when there are ones. */
  function DefaultForm(defaultContext: Option<Context>, defaultLanguage: Option<Language>): ProjectForm
  {
    ProjectForm("", "", "", IdOf(defaultContext), IdOf(defaultLanguage))
  }

  /** The form an existing project is edited from. The context and language
    * come from the embedded relations, not from the foreign-key fields. */
  function FormFromProject(p: Project): (r: ProjectForm)
    ensures p.fields.backwardCompatibility.Some? ==> r.backwardCompatibility == p.fields.backwardCompatibility.value
    ensures p.fields.backwardCompatibility.None? ==> r.backwardCompatibility == ""
    ensures p.fields.contextRelation.Some? ==> r.contextId == p.fields.contextRelation.value
    ensures p.fields.contextRelation.None? ==> r.contextId == ""
    ensures p.fields.languageRelation.Some? ==> r.languageId == p.fields.languageRelation.value
    ensures p.fields.languageRelation.None? ==> r.languageId == ""
    ensures 'T' !in r.launchDate
  {
    ProjectForm(OrEmpty(p.fields.internalName), OrEmpty(p.fields.backwardCompatibility),
      DateInputValue(p.fields.launchDate), OrEmpty(p.fields.contextRelation), OrEmpty(p.fields.languageRelation))
  }

  /** The body of a create or update call. */
  datatype ProjectPayload = ProjectPayload(
    internalName: string,
    backwardCompatibility: Option<string>,
    launchDate: Option<string>,
    contextId: Option<string>,
    languageId: Option<string>)

  /** `value || null` */
  function NullIfEmpty(s: string): (r: Option<string>)
    ensures r == None <==> s == ""
  {
    if s == "" then None else Some(s)
  }

  function Payload(form: ProjectForm): ProjectPayload
  {
    ProjectPayload(form.internalName, NullIfEmpty(form.backwardCompatibility), NullIfEmpty(form.launchDate),
      NullIfEmpty(form.contextId), NullIfEmpty(form.languageId))
  }

  function FormOfPayload(payload: ProjectPayload): ProjectForm
  {
    ProjectForm(payload.internalName, OrEmpty(payload.backwardCompatibility), OrEmpty(payload.launchDate),
      OrEmpty(payload.contextId), OrEmpty(payload.languageId))
  }

  /** The payload loses nothing: reading each null back as `''` gives the form
    * again, and no field of the payload is an empty string. */
  lemma {:induction false} PayloadRoundTrip(form: ProjectForm)
    ensures FormOfPayload(Payload(form)) == form
    ensures Payload(form).internalName == form.internalName
    ensures Payload(form).backwardCompatibility != Some("") && Payload(form).launchDate != Some("")
    ensures Payload(form).contextId != Some("") && Payload(form).languageId != Some("")
  {
  }

  datatype SaveRequest = CreateRequest(payload: ProjectPayload) | UpdateRequest(id: string, payload: ProjectPayload)

  datatype SaveResult = SaveResult(success: bool, projectId: Option<string>)

  datatype StatusRequest = SetEnabled(id: string, enabled: bool) | SetLaunched(id: string, launched: bool)

  datatype StatusCard = StatusCard(title: string, statusText: string, isActive: bool, disabled: bool)

  /** The two status cards of a loaded project; none without one. */
  function StatusCards(p: Option<Project>): (r: seq<StatusCard>)
    ensures p.None? <==> r == []
    ensures p.Some? ==> |r| == 2 && r[0].isActive == p.value.fields.isEnabled && !r[0].disabled
    ensures p.Some? ==> r[1].isActive == p.value.fields.isLaunched
    ensures p.Some? ==> (r[1].disabled <==> !p.value.fields.isEnabled)
  {
    if p.None? then []
    else
      var f := p.value.fields;
      [StatusCard("Status", if f.isEnabled then "Enabled" else "Disabled", f.isEnabled, false),
       StatusCard("Launch Status", if f.isLaunched then "Launched" else "Not Launched", f.isLaunched, !f.isEnabled)]
  }

  /** The store call a click on status card `index` makes: the opposite of the
    * card's current flag. */
  function ToggleRequest(p: Option<Project>, index: int): (r: Option<StatusRequest>)
    ensures r.Some? <==> p.Some? && (index == 0 || index == 1)
    ensures r.Some? ==> r.value.id == p.value.id
    ensures r.Some? && index == 0 ==> r.value == SetEnabled(p.value.id, !p.value.fields.isEnabled)
    ensures r.Some? && index == 1 ==> r.value == SetLaunched(p.value.id, !p.value.fields.isLaunched)
  {
    if p.None? then None
    else if index == 0 then Some(SetEnabled(p.value.id, !p.value.fields.isEnabled))
    else if index == 1 then Some(SetLaunched(p.value.id, !p.value.fields.isLaunched))
    else None
  }

  /** The project as the server returns it after a status request. */
  function ApplyStatus(p: Project, request: StatusRequest): Project
  {
    match request
    case SetEnabled(_, enabled) => p.(fields := p.fields.(isEnabled := enabled))
    case SetLaunched(_, launched) => p.(fields := p.fields.(isLaunched := launched))
  }

  /** A toggle changes only its card's flag, and toggling the same card twice
    * restores the project. */
  lemma {:induction false} ToggleTwiceRestores(p: Project, index: int)
    requires index == 0 || index == 1
    ensures var once := ApplyStatus(p, ToggleRequest(Some(p), index).value);
            once.id == p.id
            && (index == 0 ==> once.fields.isEnabled != p.fields.isEnabled && once.fields.isLaunched == p.fields.isLaunched)
            && (index == 1 ==> once.fields.isLaunched != p.fields.isLaunched && once.fields.isEnabled == p.fields.isEnabled)
            && ApplyStatus(once, ToggleRequest(Some(once), index).value) == p
  {
  }

  const SaveFailed := "Failed to save project. Please check your input and try again."
  const Created := "Project created successfully."
  const Updated := "Project updated successfully."
  const StatusFailed := "Failed to update project status. Please try again."
  const LaunchStatusFailed := "Failed to update project launch status. Please try again."

  function StatusNotice(request: StatusRequest): string
  {
    match request
    case SetEnabled(_, enabled) => "Project " + (if enabled then "enabled" else "disabled") + " successfully."
    case SetLaunched(_, launched) => "Project " + (if launched then "launched" else "unlaunched") + " successfully."
  }

  class ProjectDetail {
    const projectStore: ProjectStore
    const contextStore: ContextStore
    const languageStore: LanguageStore
    var mode: Mode
    var editForm: ProjectForm

    constructor(projectStore: ProjectStore, contextStore: ContextStore, languageStore: LanguageStore)
      ensures this.projectStore == projectStore && this.contextStore == contextStore && this.languageStore == languageStore
      ensures mode == View && editForm == ProjectForm("", "", "", "", "")
    {
      this.projectStore := projectStore;
      this.contextStore := contextStore;
      this.languageStore := languageStore;
      mode := View;
      editForm := ProjectForm("", "", "", "", "");
    }

    function CurrentProject(): Option<Project>
      reads projectStore
    {
      projectStore.currentProject
    }

    function DefaultFormValues(): ProjectForm
      reads contextStore, languageStore
    {
      DefaultForm(contextStore.DefaultContext(), languageStore.DefaultLanguage())
    }

    /** The form the current mode is compared against; view mode, and edit
      * mode without a project, have none. */
    function Baseline(): (r: Option<ProjectForm>)
      reads this, projectStore, contextStore, languageStore
      ensures r.Some? <==> mode == Create || (mode == Edit && CurrentProject().Some?)
    {
      if mode == Create then Some(DefaultFormValues())
      else if mode == Edit && CurrentProject().Some? then Some(FormFromProject(CurrentProject().value))
      else None
    }

    /** `hasUnsavedChanges`: some field differs from the baseline. */
    predicate HasUnsavedChanges()
      reads this, projectStore, contextStore, languageStore
      ensures HasUnsavedChanges() ==> mode != View
      ensures HasUnsavedChanges() <==>
                Baseline().Some? && exists f :: FieldOf(editForm, f) != FieldOf(Baseline().value, f)
    {
      FormsDifferIffAFieldDiffers(editForm, if Baseline().Some? then Baseline().value else editForm);
      Baseline().Some? && editForm != Baseline().value
    }

    function StatusCardsConfig(): (r: seq<StatusCard>)
      reads projectStore
      ensures r == StatusCards(CurrentProject())
      ensures |r| == 0 || |r| == 2
    {
      StatusCards(projectStore.currentProject)
    }

    method EnterCreateMode()
      modifies this
      ensures mode == Create && editForm == DefaultFormValues()
      ensures !HasUnsavedChanges()
    {
      mode := Create;
      editForm := DefaultFormValues();
    }

    /** Without a loaded project this does nothing. */
    method EnterEditMode()
      modifies this
      ensures old(CurrentProject()).None? ==> mode == old(mode) && editForm == old(editForm)
      ensures old(CurrentProject()).Some? ==> mode == Edit && editForm == FormFromProject(CurrentProject().value)
      ensures old(CurrentProject()).Some? ==> !HasUnsavedChanges()
    {
      if projectStore.currentProject.None? {
        return;
      }
      mode := Edit;
      editForm := FormFromProject(projectStore.currentProject.value);
    }

    method EnterViewMode()
      modifies this
      ensures mode == View && editForm == DefaultFormValues()
      ensures !HasUnsavedChanges()
    {
      mode := View;
      editForm := DefaultFormValues();
    }

    /** `saveProject`: the store call the mode calls for, made with the edited
      * form's payload. `reply` is that call's outcome (the new project's id on
      * create) and `reload` the outcome of re-fetching a created project.
      * `notices` are the messages posted, in order: a create announces its
      * success before the reload, so a failing reload posts both. A success ends
      * in view mode; a failure keeps the mode and form and rethrows; edit mode
      * without a project makes no call. */
    method SaveProject(reply: Call<string>, reload: Call<()>)
      returns (request: Option<SaveRequest>, r: Call<SaveResult>, notices: seq<(MessageType, string)>)
      modifies this
      ensures old(mode) == Create ==> request == Some(CreateRequest(Payload(old(editForm))))
      ensures old(mode) == Edit && old(CurrentProject()).Some? ==>
                request == Some(UpdateRequest(old(CurrentProject()).value.id, Payload(old(editForm))))
      ensures request.None? <==> old(mode) == View || (old(mode) == Edit && old(CurrentProject()).None?)
      ensures request.None? ==> r == Returned(SaveResult(false, None)) && notices == []
                                && mode == old(mode) && editForm == old(editForm)
      ensures r.Threw? ==> request.Some? && mode == old(mode) && editForm == old(editForm)
                           && |notices| > 0 && notices[|notices| - 1] == (Error, SaveFailed)
      ensures request.Some? && r.Returned? ==> r.value.success && mode == View && editForm == DefaultFormValues()
      ensures old(mode) == Create && reply.Threw? ==>
                r == Threw(reply.message) && notices == [(Error, SaveFailed)]
      ensures old(mode) == Create && reply.Returned? && reload.Threw? ==>
                r == Threw(reload.message) && notices == [(Info, Created), (Error, SaveFailed)]
      ensures old(mode) == Create && reply.Returned? && reload.Returned? ==>
                r == Returned(SaveResult(true, Some(reply.value))) && notices == [(Info, Created)]
      ensures old(mode) == Edit && old(CurrentProject()).Some? && reply.Threw? ==>
                r == Threw(reply.message) && notices == [(Error, SaveFailed)]
      ensures old(mode) == Edit && old(CurrentProject()).Some? && reply.Returned? ==>
                r == Returned(SaveResult(true, Some(old(CurrentProject()).value.id))) && notices == [(Info, Updated)]
    {
      var payload := Payload(editForm);
      if mode == Create {
        request := Some(CreateRequest(payload));
        if reply.Threw? {
          return request, Threw(reply.message), [(Error, SaveFailed)];
        }
        notices := [(Info, Created)];
        if reload.Threw? {
          return request, Threw(reload.message), notices + [(Error, SaveFailed)];
        }
        EnterViewMode();
        return request, Returned(SaveResult(true, Some(reply.value))), notices;
      } else if mode == Edit && projectStore.currentProject.Some? {
        var id := projectStore.currentProject.value.id;
        request := Some(UpdateRequest(id, payload));
        if reply.Threw? {
          return request, Threw(reply.message), [(Error, SaveFailed)];
        }
        EnterViewMode();
        return request, Returned(SaveResult(true, Some(id))), [(Info, Updated)];
      }
      return None, Returned(SaveResult(false, None)), [];
    }

    /** `handleStatusToggle(index)`: card 0 flips the enabled flag, card 1 the
      * launched flag; `reply` is the store call's outcome. Nothing changes here. */
    method HandleStatusToggle(index: int, reply: Call<()>)
      returns (request: Option<StatusRequest>, r: Call<()>, notice: Option<(MessageType, string)>)
      ensures request == ToggleRequest(CurrentProject(), index)
      ensures request.None? ==> r == Returned(()) && notice.None?
      ensures request.Some? && reply.Returned? ==> r == Returned(()) && notice == Some((Info, StatusNotice(request.value)))
      ensures request.Some? && reply.Threw? ==>
                r == reply && notice == Some((Error, if index == 0 then StatusFailed else LaunchStatusFailed))
    {
      request := ToggleRequest(projectStore.currentProject, index);
      if request.None? {
        return request, Returned(()), None;
      }
      if reply.Threw? {
        return request, reply, Some((Error, if index == 0 then StatusFailed else LaunchStatusFailed));
      }
      return request, Returned(()), Some((Info, StatusNotice(request.value)));
    }
  }
}

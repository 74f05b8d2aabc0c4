/**
  * The project store (`src/stores/project.ts`): all projects, the enabled
  * ("visible") projects fetched separately, the current project, and the list
  * updates of each action.
  */
module Projects {
  import opened Wrappers
  import opened Api
  import opened Lists

  /** A project as the API returns it. `contextRelation` and `languageRelation`
    * are the ids of the embedded `context` and `language` resources, absent when
    * the answer does not embed them; `contextId` and `languageId` are the plain
    * foreign-key fields. */
  datatype ProjectFields = ProjectFields(
    internalName: Option<string>,
    backwardCompatibility: Option<string>,
    launchDate: Option<string>,
    isEnabled: bool,
    isLaunched: bool,
    contextId: Option<string>,
    languageId: Option<string>,
    contextRelation: Option<string>,
    languageRelation: Option<string>,
    createdAt: Option<string>,
    updatedAt: Option<string>)

  type Project = Resource<ProjectFields>

  predicate IsEnabled(p: Project)
  {
    p.fields.isEnabled
  }

  predicate IsLaunched(p: Project)
  {
    p.fields.isLaunched
  }

  const FetchAllFailed := "Failed to fetch projects"
  const FetchEnabledFailed := "Failed to fetch enabled projects"
  const FetchFailed := "Failed to fetch project"
  const CreateFailed := "Failed to create project"
  const UpdateFailed := "Failed to update project"
  const DeleteFailed := "Failed to delete project"
  const SetEnabledFailed := "Failed to set project enabled status"
  const SetLaunchedFailed := "Failed to set project launched status"

  class ProjectStore {
    var projects: seq<Project>
    var visibleProjects: seq<Project>
    var currentProject: Option<Project>
    var loading: bool
    var error: Option<string>

    constructor()
      ensures projects == [] && visibleProjects == [] && currentProject == None && !loading && error == None
    {
      projects := [];
      visibleProjects := [];
      currentProject := None;
      loading := false;
      error := None;
    }

    /** `enabledProjects`: the enabled projects, in list order. */
    function EnabledProjects(): (r: seq<Project>)
      reads this
      ensures forall p :: p in r <==> p in projects && IsEnabled(p)
      ensures SubsequenceOf(r, projects)
    {
      Filter(projects, IsEnabled)
    }

    /** `launchedProjects`: the launched projects, in list order. */
    function LaunchedProjects(): (r: seq<Project>)
      reads this
      ensures forall p :: p in r <==> p in projects && IsLaunched(p)
      ensures SubsequenceOf(r, projects)
    {
      Filter(projects, IsLaunched)
    }

    /** `getProjectById(id)`: the first project with the id, or undefined. */
    function GetProjectById(id: string): (r: Option<Project>)
      reads this
      ensures r == None <==> forall j :: 0 <= j < |projects| ==> projects[j].id != id
      ensures r.Some? ==> r.value.id == id && r.value == projects[IndexOf(projects, id)]
    {
      Find(projects, id)
    }

    /** `fetchProjects` */
    method FetchProjects(reply: Call<Option<seq<Project>>>) returns (r: Call<()>)
      modifies this
      ensures !loading && visibleProjects == old(visibleProjects) && currentProject == old(currentProject)
      ensures reply.Returned? ==> projects == DataOrEmpty(reply.value) && error == None && r == Returned(())
      ensures reply.Threw? ==> projects == old(projects) && error == Some(FetchAllFailed) && r == Threw(reply.message)
    {
      loading := true;
      error := None;
      if reply.Threw? {
        error := Some(FetchAllFailed);
        r := Threw(reply.message);
      } else {
        projects := DataOrEmpty(reply.value);
        r := Returned(());
      }
      loading := false;
    }

    /** `fetchEnabledProjects`: fills `visibleProjects`. */
    method FetchEnabledProjects(reply: Call<Option<seq<Project>>>) returns (r: Call<()>)
      modifies this
      ensures !loading && projects == old(projects) && currentProject == old(currentProject)
      ensures reply.Returned? ==> visibleProjects == DataOrEmpty(reply.value) && error == None && r == Returned(())
      ensures reply.Threw? ==>
                visibleProjects == old(visibleProjects) && error == Some(FetchEnabledFailed) && r == Threw(reply.message)
    {
      loading := true;
      error := None;
      if reply.Threw? {
        error := Some(FetchEnabledFailed);
        r := Threw(reply.message);
      } else {
        visibleProjects := DataOrEmpty(reply.value);
        r := Returned(());
      }
      loading := false;
    }

    /** `fetchProject(id)`: the answer becomes the current project. */
    method FetchProject(id: string, reply: Call<Project>) returns (r: Call<Project>)
      modifies this
      ensures r == reply && !loading && projects == old(projects) && visibleProjects == old(visibleProjects)
      ensures reply.Returned? ==> currentProject == Some(reply.value) && error == None
      ensures reply.Threw? ==> currentProject == old(currentProject) && error == Some(FetchFailed)
    {
      loading := true;
      error := None;
      if reply.Threw? {
        error := Some(FetchFailed);
      } else {
        currentProject := Some(reply.value);
      }
      loading := false;
      r := reply;
    }

    /** `createProject`: appends the new project and makes it current. */
    method CreateProject(reply: Call<Project>) returns (r: Call<Project>)
      modifies this
      ensures r == reply && !loading && visibleProjects == old(visibleProjects)
      ensures reply.Returned? ==>
                projects == old(projects) + [reply.value] && currentProject == Some(reply.value) && error == None
      ensures reply.Threw? ==>
                projects == old(projects) && currentProject == old(currentProject) && error == Some(CreateFailed)
    {
      loading := true;
      error := None;
      if reply.Threw? {
        error := Some(CreateFailed);
      } else {
        projects := projects + [reply.value];
        currentProject := Some(reply.value);
      }
      loading := false;
      r := reply;
    }

    /** The shared tail of `updateProject`, `setProjectEnabled` and
      * `setProjectLaunched`: replace the first id match and a matching current project. */
    method Replace(id: string, updated: Project)
      modifies this
      ensures projects == ReplaceFirst(old(projects), id, updated)
      ensures currentProject == (if old(currentProject).Some? && old(currentProject).value.id == id
                                 then Some(updated) else old(currentProject))
      ensures visibleProjects == old(visibleProjects) && loading == old(loading) && error == old(error)
    {
      var index := IndexOf(projects, id);
      if index != -1 {
        projects := projects[index := updated];
      }
      if currentProject.Some? && currentProject.value.id == id {
        currentProject := Some(updated);
      }
    }

    /** `updateProject(id, …)` */
    method UpdateProject(id: string, reply: Call<Project>) returns (r: Call<Project>)
      modifies this
      ensures r == reply && !loading && visibleProjects == old(visibleProjects)
      ensures reply.Returned? ==>
                projects == ReplaceFirst(old(projects), id, reply.value) && error == None
                && currentProject == (if old(currentProject).Some? && old(currentProject).value.id == id
                                      then Some(reply.value) else old(currentProject))
      ensures reply.Threw? ==>
                projects == old(projects) && currentProject == old(currentProject) && error == Some(UpdateFailed)
    {
      loading := true;
      error := None;
      if reply.Threw? {
        error := Some(UpdateFailed);
      } else {
        Replace(id, reply.value);
      }
      loading := false;
      r := reply;
    }

    /** `deleteProject(id)` */
    method DeleteProject(id: string, reply: Call<()>) returns (r: Call<()>)
      modifies this
      ensures r == reply && !loading && visibleProjects == old(visibleProjects)
      ensures reply.Returned? ==>
                projects == RemoveId(old(projects), id) && error == None
                && currentProject == (if old(currentProject).Some? && old(currentProject).value.id == id
                                      then None else old(currentProject))
      ensures reply.Threw? ==>
                projects == old(projects) && currentProject == old(currentProject) && error == Some(DeleteFailed)
    {
      loading := true;
      error := None;
      if reply.Threw? {
        error := Some(DeleteFailed);
      } else {
        projects := RemoveId(projects, id);
        if currentProject.Some? && currentProject.value.id == id {
          currentProject := None;
        }
      }
      loading := false;
      r := reply;
    }

    /** `setProjectEnabled(id, isEnabled)`: the server's answer replaces the project;
      * `loading` is left alone. */
    method SetProjectEnabled(id: string, isEnabled: bool, reply: Call<Project>) returns (r: Call<Project>)
      modifies this
      ensures r == reply && loading == old(loading) && visibleProjects == old(visibleProjects)
      ensures reply.Returned? ==>
                projects == ReplaceFirst(old(projects), id, reply.value) && error == None
                && currentProject == (if old(currentProject).Some? && old(currentProject).value.id == id
                                      then Some(reply.value) else old(currentProject))
      ensures reply.Threw? ==>
                projects == old(projects) && currentProject == old(currentProject) && error == Some(SetEnabledFailed)
    {
      error := None;
      if reply.Threw? {
        error := Some(SetEnabledFailed);
      } else {
        Replace(id, reply.value);
      }
      r := reply;
    }

    /** `setProjectLaunched(id, isLaunched)`: as `setProjectEnabled`. */
    method SetProjectLaunched(id: string, isLaunched: bool, reply: Call<Project>) returns (r: Call<Project>)
      modifies this
      ensures r == reply && loading == old(loading) && visibleProjects == old(visibleProjects)
      ensures reply.Returned? ==>
                projects == ReplaceFirst(old(projects), id, reply.value) && error == None
                && currentProject == (if old(currentProject).Some? && old(currentProject).value.id == id
                                      then Some(reply.value) else old(currentProject))
      ensures reply.Threw? ==>
                projects == old(projects) && currentProject == old(currentProject) && error == Some(SetLaunchedFailed)
    {
      error := None;
      if reply.Threw? {
        error := Some(SetLaunchedFailed);
      } else {
        Replace(id, reply.value);
      }
      r := reply;
    }

    /** `enableProject`, `disableProject`, `launchProject` and `unlaunchProject`
      * call the two setters with a fixed flag. */
    method EnableProject(id: string, reply: Call<Project>) returns (r: Call<Project>)
      modifies this
      ensures r == reply && loading == old(loading) && visibleProjects == old(visibleProjects)
      ensures reply.Returned? ==>
                projects == ReplaceFirst(old(projects), id, reply.value) && error == None
                && currentProject == (if old(currentProject).Some? && old(currentProject).value.id == id
                                      then Some(reply.value) else old(currentProject))
      ensures reply.Threw? ==>
                projects == old(projects) && currentProject == old(currentProject) && error == Some(SetEnabledFailed)
    {
      r := SetProjectEnabled(id, true, reply);
    }

    method DisableProject(id: string, reply: Call<Project>) returns (r: Call<Project>)
      modifies this
      ensures r == reply && loading == old(loading) && visibleProjects == old(visibleProjects)
      ensures reply.Returned? ==>
                projects == ReplaceFirst(old(projects), id, reply.value) && error == None
                && currentProject == (if old(currentProject).Some? && old(currentProject).value.id == id
                                      then Some(reply.value) else old(currentProject))
      ensures reply.Threw? ==>
                projects == old(projects) && currentProject == old(currentProject) && error == Some(SetEnabledFailed)
    {
      r := SetProjectEnabled(id, false, reply);
    }

    method LaunchProject(id: string, reply: Call<Project>) returns (r: Call<Project>)
      modifies this
      ensures r == reply && loading == old(loading) && visibleProjects == old(visibleProjects)
      ensures reply.Returned? ==>
                projects == ReplaceFirst(old(projects), id, reply.value) && error == None
                && currentProject == (if old(currentProject).Some? && old(currentProject).value.id == id
                                      then Some(reply.value) else old(currentProject))
      ensures reply.Threw? ==>
                projects == old(projects) && currentProject == old(currentProject) && error == Some(SetLaunchedFailed)
    {
      r := SetProjectLaunched(id, true, reply);
    }

    method UnlaunchProject(id: string, reply: Call<Project>) returns (r: Call<Project>)
      modifies this
      ensures r == reply && loading == old(loading) && visibleProjects == old(visibleProjects)
      ensures reply.Returned? ==>
                projects == ReplaceFirst(old(projects), id, reply.value) && error == None
                && currentProject == (if old(currentProject).Some? && old(currentProject).value.id == id
                                      then Some(reply.value) else old(currentProject))
      ensures reply.Threw? ==>
                projects == old(projects) && currentProject == old(currentProject) && error == Some(SetLaunchedFailed)
    {
      r := SetProjectLaunched(id, false, reply);
    }

    method ClearCurrentProject()
      modifies this
      ensures currentProject == None
      ensures projects == old(projects) && visibleProjects == old(visibleProjects)
      ensures loading == old(loading) && error == old(error)
    {
      currentProject := None;
    }

    /** `clearProjects`: forget every project. */
    method ClearProjects()
      modifies this
      ensures projects == [] && visibleProjects == [] && currentProject == None
      ensures loading == old(loading) && error == old(error)
    {
      projects := [];
      visibleProjects := [];
      currentProject := None;
    }

    method ClearError()
      modifies this
      ensures error == None
      ensures projects == old(projects) && visibleProjects == old(visibleProjects)
      ensures currentProject == old(currentProject) && loading == old(loading)
    {
      error := None;
    }
  }
}

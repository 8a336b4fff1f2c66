/** The application shell: the working session (leads, business description,
    step, active campaign), the campaign history, and their persistence in
    browser storage under two keys.

    Storage is a map from key to the value last written there; a value is what
    `JSON.parse` would make of the stored text: a list of projects, a session
    object, or text it rejects. Each handler is one atomic step followed by the
    save effects whose dependencies changed. */
module App {
  import opened Options
  import opened Types
  import opened Text
  import opened Formats

  const ProjectsKey := "autoprospec_projects"
  const SessionKey := "autoprospec_session"

  /** The session object as stored; an absent or null field is None. */
  datatype SessionRecord = SessionRecord(
    leads: Option<seq<Lead>>,
    businessDescription: Option<string>,
    currentStep: Option<AppStep>,
    currentProjectId: Option<string>)

  datatype Blob =
    | ProjectList(projects: seq<Project>)
    | SessionObject(record: SessionRecord)
    | Unparsable

  /** The four fields the session blob holds. */
  datatype Session = Session(leads: seq<Lead>, businessDescription: string, currentStep: AppStep, currentProjectId: Option<string>)

  const DefaultSession := Session([], "", ModeSelect, None)

  function Record(s: Session): SessionRecord {
    SessionRecord(Some(s.leads), Some(s.businessDescription), Some(s.currentStep), s.currentProjectId)
  }

  /** The load effect for the session: starting from the defaults, each
      stored field replaces its default only when it is truthy (a list always
      is, an empty string is not; every step name is a non-empty string). A
      missing, unparsable or non-object blob leaves every default. */
  function RestoreSession(blob: Option<Blob>): (s: Session)
    ensures blob.None? || !blob.value.SessionObject? ==> s == DefaultSession
    ensures blob.Some? && blob.value.SessionObject? ==>
              var rec := blob.value.record;
              && s.leads == rec.leads.GetOr([])
              && s.businessDescription == (if Truthy(rec.businessDescription) then rec.businessDescription.value else "")
              && s.currentStep == rec.currentStep.GetOr(ModeSelect)
              && s.currentProjectId == (if Truthy(rec.currentProjectId) then rec.currentProjectId else None)
  {
    match blob
    case Some(SessionObject(rec)) =>
      var s0 := DefaultSession;
      var s1 := if rec.leads.Some? then s0.(leads := rec.leads.value) else s0;
      var s2 := if Truthy(rec.businessDescription) then s1.(businessDescription := rec.businessDescription.value) else s1;
      var s3 := if rec.currentStep.Some? then s2.(currentStep := rec.currentStep.value) else s2;
      if Truthy(rec.currentProjectId) then s3.(currentProjectId := rec.currentProjectId) else s3
    case _ => DefaultSession
  }

  /** Saving a session and restoring it gives it back, provided the active
      campaign id, when there is one, is not empty (ids are clock numerals). */
  lemma ResumeAfterReload(s: Session)
    requires s.currentProjectId != Some("")
    ensures RestoreSession(Some(SessionObject(Record(s)))) == s
  {
  }

  /** An empty active id is the one thing a reload loses. */
  lemma EmptyIdLost(s: Session)
    requires s.currentProjectId == Some("")
    ensures RestoreSession(Some(SessionObject(Record(s)))) == s.(currentProjectId := None)
  {
  }

  /** The load effect for the campaign history: none stored keeps the empty
      list; the parse is not guarded, so a value that is not a project list
      makes start-up fail (None). */
  function RestoreProjects(blob: Option<Blob>): (r: Option<seq<Project>>)
    ensures blob.None? ==> r == Some([])
    ensures blob.Some? ==> (r.Some? <==> blob.value.ProjectList?)
    ensures blob.Some? && blob.value.ProjectList? ==> r == Some(blob.value.projects)
  {
    match blob
    case None => Some([])
    case Some(ProjectList(ps)) => Some(ps)
    case Some(_) => None
  }

  function Lookup(storage: map<string, Blob>, key: string): Option<Blob> {
    if key in storage then Some(storage[key]) else None
  }

  /** `prev.map(p => p.id === id ? { ...p, leads } : p)`. */
  function SetProjectLeads(projects: seq<Project>, id: string, leads: seq<Lead>): (r: seq<Project>)
    ensures |r| == |projects|
    ensures forall i :: 0 <= i < |r| && projects[i].id == id ==> r[i] == projects[i].(leads := leads)
    ensures forall i :: 0 <= i < |r| && projects[i].id != id ==> r[i] == projects[i]
    decreases |projects|
  {
    if projects == [] then []
    else [if projects[0].id == id then projects[0].(leads := leads) else projects[0]] + SetProjectLeads(projects[1..], id, leads)
  }

  /** A fresh campaign: id and date from the clock `now`, the given name or
      "Campaign <date>" when it is empty, and the current description as its
      business context. */
  function NewProject(name: string, initialLeads: seq<Lead>, businessDescription: string, now: nat, dateText: string): (p: Project)
    ensures p.name != ""
    ensures name != "" ==> p.name == name
    ensures name == "" ==> p.name == "Campaign " + dateText
    ensures p.id == Decimal(now) && p.date == now && p.leads == initialLeads && p.businessContext == businessDescription
  {
    Project(Decimal(now), if name != "" then name else "Campaign " + dateText, now, initialLeads, businessDescription)
  }

  class Workspace {
    var leads: seq<Lead>
    var businessDescription: string
    var currentStep: AppStep
    var currentProjectId: Option<string>
    var projects: seq<Project>
    var isAssistantOpen: bool
    var startupFiles: seq<FileInput>
    var storage: map<string, Blob>

    function CurrentSession(): Session
      reads this
    {
      Session(leads, businessDescription, currentStep, currentProjectId)
    }

    /** Storage holds exactly what the save effects last wrote: the current
        projects and the current session. */
    predicate Valid()
      reads this
    {
      && Lookup(storage, ProjectsKey) == Some(ProjectList(projects))
      && Lookup(storage, SessionKey) == Some(SessionObject(Record(CurrentSession())))
    }

    constructor Restored(storage: map<string, Blob>, projects: seq<Project>, s: Session)
      ensures this.storage == storage && this.projects == projects && CurrentSession() == s
      ensures !isAssistantOpen && startupFiles == []
    {
      this.storage := storage;
      this.projects := projects;
      leads := s.leads;
      businessDescription := s.businessDescription;
      currentStep := s.currentStep;
      currentProjectId := s.currentProjectId;
      isAssistantOpen := false;
      startupFiles := [];
    }

    /** Mounting the application: the two load effects, then the save effects.
        Null when the stored campaign history cannot be parsed. */
    static method Mount(storage: map<string, Blob>) returns (w: Workspace?)
      ensures RestoreProjects(Lookup(storage, ProjectsKey)).None? <==> w == null
      ensures w != null ==>
                && fresh(w) && w.Valid()
                && w.projects == RestoreProjects(Lookup(storage, ProjectsKey)).value
                && w.CurrentSession() == RestoreSession(Lookup(storage, SessionKey))
                && !w.isAssistantOpen && w.startupFiles == []
    {
      var projects := RestoreProjects(Lookup(storage, ProjectsKey));
      if projects.None? {
        return null;
      }
      w := new Workspace.Restored(storage, projects.value, RestoreSession(Lookup(storage, SessionKey)));
      w.storage := w.storage[ProjectsKey := ProjectList(w.projects)];
      w.storage := w.storage[SessionKey := SessionObject(Record(w.CurrentSession()))];
    }

    /** The save effects after a step that started from `before` and
        `beforeProjects`: each blob is rewritten when one of its dependencies
        changed. */
    method Persist(beforeProjects: seq<Project>, before: Session)
      requires Lookup(storage, ProjectsKey) == Some(ProjectList(beforeProjects))
      requires Lookup(storage, SessionKey) == Some(SessionObject(Record(before)))
      modifies this
      ensures Valid()
      ensures CurrentSession() == old(CurrentSession()) && projects == old(projects)
      ensures isAssistantOpen == old(isAssistantOpen) && startupFiles == old(startupFiles)
      ensures forall k :: k != ProjectsKey && k != SessionKey ==> Lookup(storage, k) == Lookup(old(storage), k)
    {
      if projects != beforeProjects {
        storage := storage[ProjectsKey := ProjectList(projects)];
      }
      if CurrentSession() != before {
        storage := storage[SessionKey := SessionObject(Record(CurrentSession()))];
      }
    }

    /** `createNewProject(name, initialLeads)`, without the save effects. */
    method CreateProject(name: string, initialLeads: seq<Lead>, now: nat, dateText: string)
      modifies this
      ensures projects == [NewProject(name, initialLeads, old(businessDescription), now, dateText)] + old(projects)
      ensures currentProjectId == Some(Decimal(now)) && leads == initialLeads
      ensures businessDescription == old(businessDescription) && currentStep == old(currentStep)
      ensures storage == old(storage) && isAssistantOpen == old(isAssistantOpen) && startupFiles == old(startupFiles)
    {
      var p := NewProject(name, initialLeads, businessDescription, now, dateText);
      projects := [p] + projects;
      currentProjectId := Some(p.id);
      leads := initialLeads;
    }

    /** `createNewProject(name, initialLeads)`: the new campaign is prepended
        and becomes the active one. */
    method CreateNewProject(name: string, initialLeads: seq<Lead>, now: nat, dateText: string)
      requires Valid()
      modifies this
      ensures Valid()
      ensures projects == [NewProject(name, initialLeads, old(businessDescription), now, dateText)] + old(projects)
      ensures currentProjectId == Some(Decimal(now)) && leads == initialLeads
      ensures businessDescription == old(businessDescription) && currentStep == old(currentStep)
      ensures isAssistantOpen == old(isAssistantOpen) && startupFiles == old(startupFiles)
      ensures forall k :: k != ProjectsKey && k != SessionKey ==> Lookup(storage, k) == Lookup(old(storage), k)
    {
      var beforeProjects, before := projects, CurrentSession();
      CreateProject(name, initialLeads, now, dateText);
      Persist(beforeProjects, before);
    }

    /** `loadProject(project)`. */
    method LoadProject(project: Project)
      requires Valid()
      modifies this
      ensures Valid()
      ensures CurrentSession() == Session(project.leads, project.businessContext, Outreach, Some(project.id))
      ensures projects == old(projects)
      ensures isAssistantOpen == old(isAssistantOpen) && startupFiles == old(startupFiles)
      ensures forall k :: k != ProjectsKey && k != SessionKey ==> Lookup(storage, k) == Lookup(old(storage), k)
    {
      var beforeProjects, before := projects, CurrentSession();
      currentProjectId := Some(project.id);
      leads := project.leads;
      businessDescription := project.businessContext;
      currentStep := Outreach;
      Persist(beforeProjects, before);
    }

    /** `handleLeadsFound(found)`: with an active campaign its leads are
        replaced; otherwise a campaign named "New Search" is created. Either
        way the outreach step follows. */
    method HandleLeadsFound(found: seq<Lead>, now: nat, dateText: string)
      requires Valid()
      modifies this
      ensures Valid()
      ensures leads == found && currentStep == Outreach && businessDescription == old(businessDescription)
      ensures Truthy(old(currentProjectId)) ==>
                projects == SetProjectLeads(old(projects), old(currentProjectId).value, found)
                && currentProjectId == old(currentProjectId)
      ensures !Truthy(old(currentProjectId)) ==>
                projects == [NewProject("New Search", found, old(businessDescription), now, dateText)] + old(projects)
                && currentProjectId == Some(Decimal(now))
      ensures isAssistantOpen == old(isAssistantOpen) && startupFiles == old(startupFiles)
      ensures forall k :: k != ProjectsKey && k != SessionKey ==> Lookup(storage, k) == Lookup(old(storage), k)
    {
      var beforeProjects, before := projects, CurrentSession();
      if Truthy(currentProjectId) {
        leads := found;
        projects := SetProjectLeads(projects, currentProjectId.value, found);
      } else {
        CreateProject("New Search", found, now, dateText);
      }
      currentStep := Outreach;
      Persist(beforeProjects, before);
    }

    /** `handleUpdateLeads(updated)`. */
    method HandleUpdateLeads(updated: seq<Lead>)
      requires Valid()
      modifies this
      ensures Valid()
      ensures leads == updated
      ensures Truthy(old(currentProjectId)) ==> projects == SetProjectLeads(old(projects), old(currentProjectId).value, updated)
      ensures !Truthy(old(currentProjectId)) ==> projects == old(projects)
      ensures currentProjectId == old(currentProjectId) && currentStep == old(currentStep)
      ensures businessDescription == old(businessDescription)
      ensures isAssistantOpen == old(isAssistantOpen) && startupFiles == old(startupFiles)
      ensures forall k :: k != ProjectsKey && k != SessionKey ==> Lookup(storage, k) == Lookup(old(storage), k)
    {
      var beforeProjects, before := projects, CurrentSession();
      leads := updated;
      if Truthy(currentProjectId) {
        projects := SetProjectLeads(projects, currentProjectId.value, updated);
      }
      Persist(beforeProjects, before);
    }

    /** `processFiles(files)`: every file is remembered; the tags of the
        readable ones are appended to the description, and the assistant opens
        when there is at least one. */
    method ProcessFiles(files: seq<FileInput>)
      requires Valid()
      modifies this
      ensures Valid()
      ensures startupFiles == old(startupFiles) + files
      ensures businessDescription == old(businessDescription) + Join(FileTags(files), "")
      ensures isAssistantOpen == (old(isAssistantOpen) || exists i :: 0 <= i < |files| && files[i].text.Some?)
      ensures leads == old(leads) && projects == old(projects)
      ensures currentStep == old(currentStep) && currentProjectId == old(currentProjectId)
      ensures forall k :: k != ProjectsKey && k != SessionKey ==> Lookup(storage, k) == Lookup(old(storage), k)
    {
      var beforeProjects, before := projects, CurrentSession();
      startupFiles := startupFiles + files;
      var contents: seq<string> := [];
      var i := 0;
      while i < |files|
        invariant 0 <= i <= |files|
        invariant contents == FileTags(files[..i])
      {
        assert files[..i + 1][..i] == files[..i];
        match files[i].text {
          case Some(text) =>
            contents := contents + [FileTag(files[i].name, text)];
          case None =>
        }
        i := i + 1;
      }
      assert files[..i] == files;
      businessDescription := businessDescription + Join(contents, "");
      FileTagsEmpty(files);
      if |contents| > 0 {
        isAssistantOpen := true;
      }
      Persist(beforeProjects, before);
    }

    /** `onUpdateContext` of the assistant and the description text area:
        the description is replaced. */
    method SetBusinessDescription(text: string)
      requires Valid()
      modifies this
      ensures Valid()
      ensures CurrentSession() == old(CurrentSession()).(businessDescription := text)
      ensures projects == old(projects)
      ensures isAssistantOpen == old(isAssistantOpen) && startupFiles == old(startupFiles)
      ensures forall k :: k != ProjectsKey && k != SessionKey ==> Lookup(storage, k) == Lookup(old(storage), k)
    {
      var beforeProjects, before := projects, CurrentSession();
      businessDescription := text;
      Persist(beforeProjects, before);
    }

    /** The mode cards and the logo: the step is replaced. */
    method SetStep(step: AppStep)
      requires Valid()
      modifies this
      ensures Valid()
      ensures CurrentSession() == old(CurrentSession()).(currentStep := step)
      ensures projects == old(projects)
      ensures isAssistantOpen == old(isAssistantOpen) && startupFiles == old(startupFiles)
      ensures forall k :: k != ProjectsKey && k != SessionKey ==> Lookup(storage, k) == Lookup(old(storage), k)
    {
      var beforeProjects, before := projects, CurrentSession();
      currentStep := step;
      Persist(beforeProjects, before);
    }
  }

  /** Every step keeps storage in step with the state, so a reload after any
      step resumes the same session, and the same campaigns. */
  lemma ReloadResumes(storage: map<string, Blob>, projects: seq<Project>, s: Session)
    requires Lookup(storage, ProjectsKey) == Some(ProjectList(projects))
    requires Lookup(storage, SessionKey) == Some(SessionObject(Record(s)))
    requires s.currentProjectId != Some("")
    ensures RestoreProjects(Lookup(storage, ProjectsKey)) == Some(projects)
    ensures RestoreSession(Lookup(storage, SessionKey)) == s
  {
    ResumeAfterReload(s);
  }
}

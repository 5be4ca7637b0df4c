/**
 * One browser session of the application (`DataManager` over the session
 * state). A session holds the workbook being edited, the selected sheet,
 * and, in collaborative mode, the project it is attached to and the version
 * of that project it last saw. All sessions share one project store.
 */
module Sessions {
  import opened Wrappers
  import opened Dicts
  import opened Records
  import opened Projects
  import opened Collaboration

  /** The session-state entries that `initialize_session_state` fills in. */
  datatype Slot =
    | ExcelData | CurrentSheet | FileUploaded | Filename
    | ProjectId | UserId | CurrentVersion | IsCollaborative

  const AllSlots: set<Slot> :=
    {ExcelData, CurrentSheet, FileUploaded, Filename, ProjectId, UserId, CurrentVersion, IsCollaborative}

  /** The data entries of a session's state. */
  datatype SessionState = SessionState(
    excelData: Document,
    currentSheet: Option<string>,
    fileUploaded: bool,
    filename: Option<string>,
    projectId: Option<string>,
    userId: Option<string>,
    currentVersion: int,
    isCollaborative: bool)

  /** The starting value of every entry: no workbook, not collaborative, version 0. */
  const Blank := SessionState([], None, false, None, None, None, 0, false)

  /** The session is attached to a project: collaborative mode with a project id. */
  predicate Attached(s: SessionState) {
    s.isCollaborative && Truthy(s.projectId)
  }

  /**
   * `get_current_data`: the rows of the selected sheet; nothing when no
   * sheet is selected, the workbook is empty or it has no such sheet.
   */
  function CurrentData(s: SessionState): (r: Option<Sheet>)
    ensures r.None? <==> !Truthy(s.currentSheet) || s.currentSheet.value !in Keys(s.excelData)
    ensures r.Some? ==> (s.currentSheet.value, r.value) in s.excelData
  {
    if Truthy(s.currentSheet) && |s.excelData| > 0 then Get(s.excelData, s.currentSheet.value) else None
  }

  /** A sync takes effect: the session is attached and `data`, read for its project, is newer. */
  predicate SyncWanted(s: SessionState, data: Option<Project>) {
    Attached(s) && data.Some? && data.value.meta.version > s.currentVersion
  }

  /**
   * The state after `sync_collaborative_data` read `data` for the session's
   * project: the stored workbook and version when they are newer, and
   * otherwise the state as it was.
   */
  function Synced(s: SessionState, data: Option<Project>): (r: SessionState)
    ensures r.currentVersion >= s.currentVersion
    ensures r == s || r == s.(excelData := r.excelData, currentVersion := r.currentVersion)
    ensures SyncWanted(s, data) ==> r.excelData == data.value.document && r.currentVersion == data.value.meta.version
    ensures !SyncWanted(s, data) ==> r == s
  {
    if SyncWanted(s, data) then
      s.(excelData := data.value.document, currentVersion := data.value.meta.version)
    else
      s
  }

  /** A sync brings the session level with what it read: a second sync against the same data does nothing. */
  lemma SyncSettles(s: SessionState, data: Option<Project>)
    ensures !SyncWanted(Synced(s, data), data)
    ensures Synced(Synced(s, data), data) == Synced(s, data)
  {
  }

  /**
   * A push counts one version on the session's side, not the stored
   * version. A session that was already behind the store (another session
   * pushed in between) is still behind after its own push, so its next
   * sync takes the stored workbook again, which is its own.
   */
  lemma PushLeavesSessionBehind(s: SessionState, e: Entry, now: int)
    requires Attached(s) && UniqueKeys(s.excelData)
    requires e.meta.Some? && s.currentVersion < e.meta.value.version
    ensures UpdateEntry(e, Edit(s.excelData, s.userId, now)).Some?
    ensures var data := ReadEntry(UpdateEntry(e, Edit(s.excelData, s.userId, now)).value);
            var pushed := s.(currentVersion := s.currentVersion + 1);
            && SyncWanted(pushed, data)
            && Synced(pushed, data) == s.(currentVersion := e.meta.value.version + 1)
  {
    UpdateEntryEffect(e, Edit(s.excelData, s.userId, now));
  }

  /**
   * `join_collaborative_project` records a generated user as present, not
   * the id the session then keeps: when the two uuids differ in their first
   * eight characters, the join leaves the session's own user as it was in
   * the project's presence map (absent, for a user never seen).
   */
  lemma JoinRecordsAnotherUser(e: Entry, joinUuid: string, userUuid: string, now: int)
    requires e.meta.Some?
    requires GenerateProjectId(joinUuid) != GenerateProjectId(userUuid)
    ensures GenerateUserId(userUuid) != GenerateUserId(joinUuid)
    ensures Get(TouchEntry(e, GenerateUserId(joinUuid), now).meta.value.activeUsers, GenerateUserId(userUuid))
         == Get(e.meta.value.activeUsers, GenerateUserId(userUuid))
  {
  }

  /**
   * The entries after `initialize_session_state`, when the entries in
   * `present` already exist: those keep their values, the others take
   * their starting values.
   */
  function Initialized(s: SessionState, present: set<Slot>): (r: SessionState)
    ensures present == {} ==> r == Blank
    ensures present == AllSlots ==> r == s
  {
    SessionState(
      if ExcelData in present then s.excelData else [],
      if CurrentSheet in present then s.currentSheet else None,
      if FileUploaded in present then s.fileUploaded else false,
      if Filename in present then s.filename else None,
      if ProjectId in present then s.projectId else None,
      if UserId in present then s.userId else None,
      if CurrentVersion in present then s.currentVersion else 0,
      if IsCollaborative in present then s.isCollaborative else false)
  }

  /**
   * Initialisation never overwrites: every entry that exists keeps its
   * value, and every missing entry takes its starting value.
   */
  lemma InitializedFields(s: SessionState, present: set<Slot>)
    ensures var r := Initialized(s, present);
      && (if ExcelData in present then r.excelData == s.excelData else r.excelData == Blank.excelData)
      && (if CurrentSheet in present then r.currentSheet == s.currentSheet else r.currentSheet == Blank.currentSheet)
      && (if FileUploaded in present then r.fileUploaded == s.fileUploaded else r.fileUploaded == Blank.fileUploaded)
      && (if Filename in present then r.filename == s.filename else r.filename == Blank.filename)
      && (if ProjectId in present then r.projectId == s.projectId else r.projectId == Blank.projectId)
      && (if UserId in present then r.userId == s.userId else r.userId == Blank.userId)
      && (if CurrentVersion in present then r.currentVersion == s.currentVersion else r.currentVersion == Blank.currentVersion)
      && (if IsCollaborative in present then r.isCollaborative == s.isCollaborative else r.isCollaborative == Blank.isCollaborative)
  {
  }

  class Session {
    /** The data entries; an entry not in `present` has not been created yet. */
    var state: SessionState
    /** The session's handle on the shared project store; `null` until initialised. */
    var manager: CollaborationManager?
    /** The entries that exist in the session state so far. */
    var present: set<Slot>

    /** A new browser session: its state holds nothing yet. */
    constructor ()
      ensures present == {} && manager == null
    {
      state, manager, present := Blank, null, {};
    }

    /** Every entry exists and the store is attached. */
    predicate Ready()
      reads this
    {
      present == AllSlots && manager != null
    }

    /**
     * `initialize_session_state`: each missing entry gets its starting
     * value and a missing store handle is attached; a second call changes
     * nothing.
     */
    method InitializeSessionState(store: CollaborationManager)
      modifies this
      ensures Ready()
      ensures state == Initialized(old(state), old(present))
      ensures manager == if old(manager) == null then store else old(manager)
      ensures old(Ready()) ==> unchanged(this)
    {
      state, present := Initialized(state, present), AllSlots;
      if manager == null {
        manager := store;
      }
    }

    /**
     * `save_excel_data`: holds an uploaded workbook and selects its first
     * sheet; an empty workbook leaves the selection as it was.
     */
    method SaveExcelData(doc: Document, name: string)
      requires Ready()
      modifies this
      ensures Ready() && manager == old(manager)
      ensures state == old(state).(excelData := doc, filename := Some(name), fileUploaded := true,
                                   currentSheet := if |doc| > 0 then Some(doc[0].0) else old(state.currentSheet))
      ensures |doc| > 0 && doc[0].0 != "" ==> CurrentData(state) == Some(doc[0].1)
    {
      state := state.(excelData := doc, filename := Some(name), fileUploaded := true);
      if |doc| > 0 {
        state := state.(currentSheet := Some(doc[0].0));
      }
    }

    /**
     * `create_collaborative_project`: stores the workbook as a new project,
     * attaches the session to it under a newly generated user id and marks
     * that user present. The session's version is left as it was.
     */
    method CreateCollaborativeProject(doc: Document, name: string, projectUuid: string, userUuid: string, now: int)
      returns (pid: string)
      requires Ready()
      modifies this, manager
      ensures Ready() && manager == old(manager)
      ensures pid == GenerateProjectId(projectUuid)
      ensures state == old(state).(projectId := Some(pid), isCollaborative := true, userId := Some(GenerateUserId(userUuid)))
      ensures manager.projects
           == old(manager.projects)[pid := TouchEntry(NewEntry(pid, name, doc, now), GenerateUserId(userUuid), now)]
      ensures UniqueKeys(doc) ==>
                manager.ProjectData(pid) == Some(Project(Metadata(pid, name, now, now, 1, [(GenerateUserId(userUuid), now)]), doc))
    {
      var store := manager;
      pid := store.CreateProject(doc, name, projectUuid, now);
      var user := GenerateUserId(userUuid);
      state := state.(projectId := Some(pid), isCollaborative := true, userId := Some(user));
      var joined := store.JoinProject(pid, Some(user), userUuid, now);
      if UniqueKeys(doc) {
        CreatedProjectReads(pid, name, doc, now);
      }
    }

    /**
     * `join_collaborative_project`: joins an existing project without a
     * user id, so the store records a generated user as present, while
     * the session keeps another newly generated id. When the project can
     * be read, the session takes its workbook, file name and version.
     */
    method JoinCollaborativeProject(pid: string, joinUuid: string, userUuid: string, now: int)
      returns (joined: bool)
      requires Ready()
      modifies this, manager
      ensures Ready() && manager == old(manager)
      ensures manager.projects == if pid in old(manager.projects)
                                  then old(manager.projects)[pid := TouchEntry(old(manager.projects)[pid], GenerateUserId(joinUuid), now)]
                                  else old(manager.projects)
      ensures joined == (pid in old(manager.projects) && manager.ProjectData(pid).Some?)
      ensures pid !in old(manager.projects) ==> state == old(state)
      ensures pid in old(manager.projects) && !joined ==> state == old(state).(userId := Some(GenerateUserId(userUuid)))
      ensures joined ==>
        var p := manager.ProjectData(pid).value;
        && state == old(state).(userId := Some(GenerateUserId(userUuid)), projectId := Some(pid), isCollaborative := true,
                                excelData := p.document, filename := Some(p.meta.filename), fileUploaded := true,
                                currentVersion := p.meta.version,
                                currentSheet := if |p.document| > 0 then Some(p.document[0].0) else old(state.currentSheet))
        && Get(p.meta.activeUsers, GenerateUserId(joinUuid)) == Some(now)
    {
      var store := manager;
      var known := store.JoinProject(pid, None, joinUuid, now);
      if !known {
        return false;
      }
      state := state.(userId := Some(GenerateUserId(userUuid)));
      var data := store.ProjectData(pid);
      if data.None? {
        return false;
      }
      var p := data.value;
      state := state.(projectId := Some(pid), isCollaborative := true, excelData := p.document,
                      filename := Some(p.meta.filename), fileUploaded := true, currentVersion := p.meta.version);
      if |p.document| > 0 {
        state := state.(currentSheet := Some(p.document[0].0));
      }
      joined := true;
    }

    /**
     * `sync_collaborative_data`: reads the session's project and takes the
     * stored workbook and version when the store holds a newer version
     * than the session last saw.
     */
    method SyncCollaborativeData() returns (synced: bool)
      requires Ready()
      modifies this
      ensures Ready() && manager == old(manager)
      ensures !Attached(old(state)) ==> !synced && state == old(state)
      ensures Attached(old(state)) ==>
        var data := manager.ProjectData(old(state).projectId.value);
        synced == SyncWanted(old(state), data) && state == Synced(old(state), data)
    {
      if !state.isCollaborative || !Truthy(state.projectId) {
        return false;
      }
      var data := manager.ProjectData(state.projectId.value);
      if data.Some? {
        var serverVersion := data.value.meta.version;
        if serverVersion > state.currentVersion {
          state := state.(excelData := data.value.document, currentVersion := serverVersion);
          return true;
        }
      }
      return false;
    }

    /**
     * `update_collaborative_data`: pushes the session's whole workbook to
     * the store under the session's user id, and counts one more version
     * on the session's side when the store accepts it.
     */
    method UpdateCollaborativeData(now: int) returns (success: bool)
      requires Ready()
      modifies this, manager
      ensures Ready() && manager == old(manager)
      ensures success == (Attached(state) && state.projectId.value in old(manager.projects)
                          && old(manager.projects)[state.projectId.value].meta.Some?)
      ensures !success ==> manager.projects == old(manager.projects)
      ensures success ==>
        manager.projects == old(manager.projects)[state.projectId.value :=
          UpdateEntry(old(manager.projects)[state.projectId.value], Edit(state.excelData, state.userId, now)).value]
      ensures state == old(state).(currentVersion := if success then old(state.currentVersion) + 1 else old(state.currentVersion))
    {
      if !state.isCollaborative || !Truthy(state.projectId) {
        return false;
      }
      var store := manager;
      success := store.UpdateProjectData(state.projectId.value, state.excelData, state.userId, now);
      if success {
        state := state.(currentVersion := state.currentVersion + 1);
      }
    }

    /** `get_active_users`: the project's present users, or none when the session is not attached. */
    method GetActiveUsers(now: int) returns (users: seq<ActiveUser>)
      requires Ready()
      ensures users == if Attached(state) then manager.ActiveUsersOf(state.projectId.value, now) else []
    {
      if !state.isCollaborative || !Truthy(state.projectId) {
        return [];
      }
      users := manager.GetActiveUsers(state.projectId.value, now);
    }

    /**
     * `update_sheet_data`: replaces (or adds) one sheet of the session's
     * workbook and, in collaborative mode, pushes the workbook to the store.
     */
    method UpdateSheetData(sheet: string, rows: Sheet, now: int)
      requires Ready()
      modifies this, manager
      ensures Ready() && manager == old(manager)
      ensures state.excelData == Put(old(state.excelData), sheet, rows)
      ensures Get(state.excelData, sheet) == Some(rows)
      ensures !(Attached(state) && state.projectId.value in old(manager.projects)
                && old(manager.projects)[state.projectId.value].meta.Some?) ==>
        manager.projects == old(manager.projects) && state == old(state).(excelData := state.excelData)
      ensures Attached(state) && state.projectId.value in old(manager.projects)
              && old(manager.projects)[state.projectId.value].meta.Some? ==>
        && state == old(state).(excelData := state.excelData, currentVersion := old(state.currentVersion) + 1)
        && manager.projects == old(manager.projects)[state.projectId.value :=
             UpdateEntry(old(manager.projects)[state.projectId.value], Edit(state.excelData, state.userId, now)).value]
    {
      state := state.(excelData := Put(state.excelData, sheet, rows));
      if state.isCollaborative {
        var pushed := UpdateCollaborativeData(now);
      }
    }

    /** `clear_data`: every data entry back to its starting value; the store handle stays. */
    method ClearData()
      modifies this
      ensures state == Blank
      ensures present == AllSlots && manager == old(manager)
    {
      state, present := Blank, AllSlots;
    }
  }
}

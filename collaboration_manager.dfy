/**
 * The shared-project store: a directory holding one entry per project id.
 * Every session of the application works on the same directory, so the
 * store is one object that all sessions share. The clock (`now`, whole
 * seconds) and the uuid generator (`uuid`) are parameters. The file lock
 * around an update is modelled by making the update one method.
 */
module Collaboration {
  import opened Wrappers
  import opened Dicts
  import opened Records
  import opened Projects

  class CollaborationManager {
    /** The project directory: project id to that project's entry. */
    var projects: map<string, Entry>

    /** Opens the project directory with whatever it already holds. */
    constructor (existing: map<string, Entry>)
      ensures projects == existing
    {
      projects := existing;
    }

    /**
     * `create_project`: writes the metadata record (version 1, nobody
     * present) and then the data record under a new id. An id that is
     * already taken is not checked for: its entry is overwritten.
     */
    method CreateProject(doc: Document, filename: string, uuid: string, now: int) returns (projectId: string)
      modifies this
      ensures projectId == GenerateProjectId(uuid)
      ensures projects == old(projects)[projectId := NewEntry(projectId, filename, doc, now)]
    {
      projectId := GenerateProjectId(uuid);
      var meta := Metadata(projectId, filename, now, now, 1, []);
      projects := projects[projectId := Entry(Some(meta), SaveDataFile(doc))];
    }

    /**
     * `join_project`: unknown ids are refused; otherwise the user (the given
     * one, or a generated one when none is given) is recorded as present.
     */
    method JoinProject(projectId: string, userId: Option<string>, uuid: string, now: int) returns (joined: bool)
      modifies this
      ensures joined == (projectId in old(projects))
      ensures !joined ==> projects == old(projects)
      ensures joined ==>
        var user := if Truthy(userId) then userId.value else GenerateUserId(uuid);
        projects == old(projects)[projectId := TouchEntry(old(projects)[projectId], user, now)]
    {
      var user := if Truthy(userId) then userId.value else GenerateUserId(uuid);
      if projectId !in projects {
        return false;
      }
      UpdateUserActivity(projectId, user, now);
      joined := true;
    }

    /** `_update_user_activity`: a missing or unreadable metadata record is left alone. */
    method UpdateUserActivity(projectId: string, user: string, now: int)
      modifies this
      ensures projects == if projectId in old(projects)
                          then old(projects)[projectId := TouchEntry(old(projects)[projectId], user, now)]
                          else old(projects)
    {
      if projectId in projects && projects[projectId].meta.Some? {
        var meta := projects[projectId].meta.value;
        meta := meta.(activeUsers := Put(meta.activeUsers, user, now));
        projects := projects[projectId := projects[projectId].(meta := Some(meta))];
      }
    }

    /**
     * `get_project_data`: `None` for an unknown id and for a project whose
     * metadata or data record cannot be read; a missing data record reads
     * as an empty document.
     */
    function ProjectData(projectId: string): (r: Option<Project>)
      reads this
      ensures projectId !in projects ==> r.None?
      ensures projectId in projects && projects[projectId].meta.None? ==> r.None?
      ensures projectId in projects && projects[projectId].meta.Some? && LoadDataFile(projects[projectId].data).Some? ==>
                r == Some(Project(projects[projectId].meta.value, LoadDataFile(projects[projectId].data).value))
      ensures r.Some? ==> projectId in projects && projects[projectId].meta == Some(r.value.meta)
                          && LoadDataFile(projects[projectId].data) == Some(r.value.document)
    {
      if projectId in projects then ReadEntry(projects[projectId]) else None
    }

    /**
     * `update_project_data`: under the project's lock, reads the metadata
     * record, raises the version, stamps the time, refreshes the submitter's
     * presence when a user id is given, and writes the submitted document
     * over the stored one without comparing versions.
     */
    method UpdateProjectData(projectId: string, doc: Document, userId: Option<string>, now: int) returns (ok: bool)
      modifies this
      ensures ok == (projectId in old(projects) && old(projects)[projectId].meta.Some?)
      ensures !ok ==> projects == old(projects)
      ensures ok ==> projects == old(projects)[projectId := UpdateEntry(old(projects)[projectId], Edit(doc, userId, now)).value]
      ensures ok ==> projects[projectId].meta.value.version == old(projects[projectId].meta.value.version) + 1
      ensures ok && UniqueKeys(doc) ==> ProjectData(projectId).Some? && ProjectData(projectId).value.document == doc
    {
      if projectId !in projects {
        return false;
      }
      var entry := projects[projectId];
      if entry.meta.None? {
        return false;
      }
      var meta := entry.meta.value;
      meta := meta.(lastModified := now, version := meta.version + 1);
      if Truthy(userId) {
        meta := meta.(activeUsers := Put(meta.activeUsers, userId.value, now));
      }
      // Both records are rewritten while the lock is held: one step.
      projects := projects[projectId := Entry(Some(meta), SaveDataFile(doc))];
      assert UpdateEntry(entry, Edit(doc, userId, now)) == Some(Entry(Some(meta), SaveDataFile(doc)));
      if UniqueKeys(doc) {
        SaveLoadRoundTrip(doc);
        assert ProjectData(projectId) == Some(Project(meta, doc));
      }
      ok := true;
    }

    /** The users of a project seen within the presence window; none for an unreadable project. */
    function ActiveUsersOf(projectId: string, now: int): seq<ActiveUser>
      reads this
    {
      match ProjectData(projectId)
      case None => []
      case Some(p) => ActiveEntries(p.meta.activeUsers, now)
    }

    /** `get_active_users`: scans the presence map and keeps the entries inside the window. */
    method GetActiveUsers(projectId: string, now: int) returns (users: seq<ActiveUser>)
      ensures users == ActiveUsersOf(projectId, now)
    {
      var data := ProjectData(projectId);
      if data.None? {
        return [];
      }
      var entries := data.value.meta.activeUsers;
      users := [];
      var i := 0;
      while i < |entries|
        invariant 0 <= i <= |entries|
        invariant users == ActiveEntries(entries[..i], now)
      {
        var (user, lastActivity) := entries[i];
        if IsActive(lastActivity, now) {
          users := users + [ActiveUser(user, lastActivity)];
        }
        assert entries[..i + 1][..i] == entries[..i];
        i := i + 1;
      }
      assert entries[..i] == entries;
    }

    /** The projects whose metadata record can be read. */
    ghost function ReadableIds(): set<string>
      reads this
    {
      set id | id in projects && projects[id].meta.Some?
    }

    /** The listing line of a readable project at time `now`. */
    function SummaryOf(projectId: string, now: int): ProjectSummary
      reads this
      requires projectId in projects && projects[projectId].meta.Some?
    {
      var m := projects[projectId].meta.value;
      ProjectSummary(projectId, m.filename, m.createdAt, m.lastModified, |ActiveUsersOf(projectId, now)|)
    }

    /** `line` is the listing line of a readable project at time `now`. */
    ghost predicate Listed(line: ProjectSummary, now: int)
      reads this
    {
      line.projectId in projects && projects[line.projectId].meta.Some? && line == SummaryOf(line.projectId, now)
    }

    /**
     * `list_projects`: one line per project whose metadata record can be
     * read (the others are skipped), newest modification first.
     */
    method ListProjects(now: int) returns (listing: seq<ProjectSummary>)
      ensures NewestFirst(listing)
      ensures IdsOf(listing) == ReadableIds()
      ensures |listing| == |ReadableIds()|
      ensures forall line :: line in listing ==> Listed(line, now)
    {
      var found := CollectListing(now);
      listing := SortNewestFirst(found);
      SortKeepsLines(found);
    }

    /** The scan of the project directory in `list_projects`, in directory order. */
    method CollectListing(now: int) returns (found: seq<ProjectSummary>)
      ensures IdsOf(found) == ReadableIds()
      ensures |found| == |ReadableIds()|
      ensures forall line :: line in found ==> Listed(line, now)
    {
      found := [];
      var remaining := projects.Keys;
      while remaining != {}
        invariant remaining <= projects.Keys
        invariant IdsOf(found) == ReadableIds() - remaining
        invariant DistinctIds(found)
        invariant forall line :: line in found ==> Listed(line, now)
        decreases remaining
      {
        var projectId :| projectId in remaining;
        assert projectId !in IdsOf(found);
        ghost var before := remaining;
        remaining := remaining - {projectId};
        var entry := projects[projectId];
        if entry.meta.Some? {
          var users := GetActiveUsers(projectId, now);
          var m := entry.meta.value;
          var line := ProjectSummary(projectId, m.filename, m.createdAt, m.lastModified, |users|);
          assert Listed(line, now);
          IdsOfSnoc(found, line);
          assert ReadableIds() - remaining == (ReadableIds() - before) + {projectId};
          assert forall i :: 0 <= i < |found| ==> found[i].projectId != projectId by {
            forall i | 0 <= i < |found| ensures found[i].projectId != projectId {
              assert found[i] in found;
            }
          }
          found := found + [line];
        } else {
          assert ReadableIds() - remaining == ReadableIds() - before;
        }
      }
      assert ReadableIds() - remaining == ReadableIds();
      DistinctIdsCount(found);
    }

    /** `get_project_version`: the stored version of a readable project, 0 otherwise. */
    function ProjectVersion(projectId: string): (v: int)
      reads this
      ensures ProjectData(projectId).None? ==> v == 0
      ensures ProjectData(projectId).Some? ==> v == projects[projectId].meta.value.version
    {
      match ProjectData(projectId)
      case Some(p) => p.meta.version
      case None => 0
    }
  }
}

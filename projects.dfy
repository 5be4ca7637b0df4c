/**
 * The values the shared-project store keeps per project, and the pure
 * transitions of one project entry: creation, presence refresh, update,
 * the presence window, project and user identifiers, and the listing order.
 */
module Projects {
  import opened Wrappers
  import opened Dicts
  import opened Records

  /** A user counts as active when last seen less than this many seconds ago. */
  const ActiveWindow: int := 300

  /**
   * A project's metadata record. Timestamps are whole seconds; `activeUsers`
   * maps each user id ever seen to its last activity time, in insertion order.
   */
  datatype Metadata = Metadata(
    projectId: string,
    filename: string,
    createdAt: int,
    lastModified: int,
    version: int,
    activeUsers: Dict<int>)

  /**
   * One project directory: its metadata record (`None` when the record is
   * missing or cannot be parsed) and its data record.
   */
  datatype Entry = Entry(meta: Option<Metadata>, data: DataFile)

  /** A project as read back: metadata and document. */
  datatype Project = Project(meta: Metadata, document: Document)

  datatype ActiveUser = ActiveUser(userId: string, lastActivity: int)

  /** One line of the project listing. */
  datatype ProjectSummary = ProjectSummary(
    projectId: string,
    filename: string,
    createdAt: int,
    lastModified: int,
    activeUsersCount: nat)

  /** One submitted update: the new document, the optional submitter, the time. */
  datatype Edit = Edit(doc: Document, user: Option<string>, time: int)

  /** Python truthiness of an optional string: present and not empty. */
  predicate Truthy(s: Option<string>) {
    s.Some? && s.value != ""
  }

  /** The first eight characters of a uuid string (Python's `s[:8]`). */
  function GenerateProjectId(uuid: string): (id: string)
    ensures |id| == if |uuid| < 8 then |uuid| else 8
    ensures id <= uuid
  {
    if |uuid| < 8 then uuid else uuid[..8]
  }

  /** `user_` followed by the first eight characters of a uuid string. */
  function GenerateUserId(uuid: string): (id: string)
    ensures |id| == 5 + |GenerateProjectId(uuid)|
    ensures id[..5] == "user_" && id[5..] <= uuid
  {
    "user_" + GenerateProjectId(uuid)
  }

  /** The directory `create_project` writes: version 1, nobody present yet. */
  function NewEntry(projectId: string, filename: string, doc: Document, now: int): Entry {
    Entry(Some(Metadata(projectId, filename, now, now, 1, [])), SaveDataFile(doc))
  }

  /** `get_project_data` on an existing directory: both records must be readable. */
  function ReadEntry(e: Entry): Option<Project> {
    if e.meta.None? then None
    else
      match LoadDataFile(e.data)
      case Some(doc) => Some(Project(e.meta.value, doc))
      case None => None
  }

  /**
   * `_update_user_activity`: records `user` as seen at `now`; an unreadable
   * metadata record is left as it is (the failure is only logged).
   */
  function TouchEntry(e: Entry, user: string, now: int): (r: Entry)
    ensures e.meta.None? ==> r == e
    ensures e.meta.Some? ==> r.data == e.data && r.meta.Some?
    ensures e.meta.Some? ==>
      var m, m' := e.meta.value, r.meta.value;
      && m' == m.(activeUsers := m'.activeUsers)
      && Get(m'.activeUsers, user) == Some(now)
      && forall u :: u != user ==> Get(m'.activeUsers, u) == Get(m.activeUsers, u)
  {
    if e.meta.None? then e
    else
      var m := e.meta.value;
      PutKeepsOthersAll(m.activeUsers, user, now);
      e.(meta := Some(m.(activeUsers := Put(m.activeUsers, user, now))))
  }

  /**
   * The body of `update_project_data` once the lock is held: `None` when the
   * metadata record cannot be read; otherwise the next version, stamped
   * `now`, with the submitted document replacing the stored one.
   */
  function UpdateEntry(e: Entry, edit: Edit): Option<Entry> {
    if e.meta.None? then None
    else
      var m := e.meta.value;
      var users := if Truthy(edit.user) then Put(m.activeUsers, edit.user.value, edit.time) else m.activeUsers;
      Some(Entry(Some(m.(lastModified := edit.time, version := m.version + 1, activeUsers := users)),
                 SaveDataFile(edit.doc)))
  }

  /** A sequence of updates applied in order; `None` as soon as one fails. */
  function UpdateAll(e: Entry, edits: seq<Edit>): Option<Entry> {
    if edits == [] then Some(e)
    else
      match UpdateAll(e, edits[..|edits| - 1])
      case Some(e') => UpdateEntry(e', edits[|edits| - 1])
      case None => None
  }

  /** Presence test: seen less than `ActiveWindow` seconds before `now`. */
  predicate IsActive(lastActivity: int, now: int) {
    now - lastActivity < ActiveWindow
  }

  /** The active entries of a presence map, in its order (the loop of `get_active_users`). */
  function ActiveEntries(users: Dict<int>, now: int): (r: seq<ActiveUser>)
    ensures |r| <= |users|
  {
    if users == [] then []
    else
      var n := |users| - 1;
      ActiveEntries(users[..n], now)
        + if IsActive(users[n].1, now) then [ActiveUser(users[n].0, users[n].1)] else []
  }

  /** The project ids a listing mentions. */
  function IdsOf(s: seq<ProjectSummary>): set<string> {
    set x | x in s :: x.projectId
  }

  lemma IdsOfSnoc(s: seq<ProjectSummary>, x: ProjectSummary)
    ensures IdsOf(s + [x]) == IdsOf(s) + {x.projectId}
  {
    assert forall y :: y in s + [x] <==> y in s || y == x;
  }

  /** No project id occurs twice in a listing. */
  predicate DistinctIds(s: seq<ProjectSummary>) {
    forall i, j :: 0 <= i < j < |s| ==> s[i].projectId != s[j].projectId
  }

  /** A listing without repeated ids has as many lines as ids. */
  lemma {:induction false} DistinctIdsCount(s: seq<ProjectSummary>)
    requires DistinctIds(s)
    ensures |IdsOf(s)| == |s|
  {
    if s != [] {
      var n := |s| - 1;
      assert DistinctIds(s[..n]);
      DistinctIdsCount(s[..n]);
      IdsOfSnoc(s[..n], s[n]);
      assert s[..n] + [s[n]] == s;
      forall x | x in s[..n] ensures x.projectId != s[n].projectId {
        var i :| 0 <= i < n && s[..n][i] == x;
        assert s[i] == x;
      }
    }
  }

  /** Sorted by last modification, newest first. */
  predicate NewestFirst(s: seq<ProjectSummary>) {
    forall i :: 0 < i < |s| ==> s[i - 1].lastModified >= s[i].lastModified
  }

  /** Putting a newest element in front of a sorted listing keeps it sorted. */
  lemma ConsNewestFirst(y: ProjectSummary, t: seq<ProjectSummary>)
    requires NewestFirst(t)
    requires t != [] ==> y.lastModified >= t[0].lastModified
    ensures NewestFirst([y] + t)
  {
    var r := [y] + t;
    forall i | 0 < i < |r| ensures r[i - 1].lastModified >= r[i].lastModified {
      if i > 1 {
        assert r[i - 1] == t[i - 2] && r[i] == t[i - 1];
      }
    }
  }

  /** Inserts `x` before the first element that is not newer than it. */
  function InsertNewestFirst(x: ProjectSummary, s: seq<ProjectSummary>): (r: seq<ProjectSummary>)
    requires NewestFirst(s)
    ensures NewestFirst(r)
    ensures multiset(r) == multiset(s) + multiset{x}
    ensures r[0] == x || r[0] == s[0]
  {
    if s == [] || x.lastModified >= s[0].lastModified then
      ConsNewestFirst(x, s);
      [x] + s
    else
      var rest := InsertNewestFirst(x, s[1..]);
      assert s == [s[0]] + s[1..];
      ConsNewestFirst(s[0], rest);
      [s[0]] + rest
  }

  /**
   * Python's `sorted(..., key=last_modified, reverse=True)`: an insertion
   * sort, stable for equal timestamps.
   */
  function SortNewestFirst(s: seq<ProjectSummary>): (r: seq<ProjectSummary>)
    ensures NewestFirst(r)
    ensures multiset(r) == multiset(s)
  {
    if s == [] then []
    else
      assert s == [s[0]] + s[1..];
      InsertNewestFirst(s[0], SortNewestFirst(s[1..]))
  }

  /** Sorting reorders a listing: the same lines, as many of them, the same ids. */
  lemma SortKeepsLines(s: seq<ProjectSummary>)
    ensures forall x :: x in SortNewestFirst(s) <==> x in s
    ensures |SortNewestFirst(s)| == |s|
    ensures IdsOf(SortNewestFirst(s)) == IdsOf(s)
  {
    var r := SortNewestFirst(s);
    forall x ensures x in r <==> x in s {
      assert x in r <==> x in multiset(r);
      assert x in s <==> x in multiset(s);
    }
    assert |r| == |multiset(r)| == |multiset(s)| == |s|;
  }

  // ---------------------------------------------------------------------
  // Properties of one project entry

  /**
   * A created project reads back as version 1 with nobody present, the given
   * filename, both timestamps `now`, and the submitted document.
   */
  lemma CreatedProjectReads(projectId: string, filename: string, doc: Document, now: int)
    requires UniqueKeys(doc)
    ensures ReadEntry(NewEntry(projectId, filename, doc, now))
         == Some(Project(Metadata(projectId, filename, now, now, 1, []), doc))
  {
    SaveLoadRoundTrip(doc);
  }

  /**
   * An update succeeds exactly when the metadata record is readable; it then
   * raises the version by one, stamps `now`, keeps id, filename and creation
   * time, stores the submitted document whatever was stored before, and
   * refreshes the submitter's presence only when a user id is given.
   */
  lemma UpdateEntryEffect(e: Entry, edit: Edit)
    requires UniqueKeys(edit.doc)
    ensures UpdateEntry(e, edit).Some? <==> e.meta.Some?
    ensures UpdateEntry(e, edit).Some? ==>
      var m, r := e.meta.value, UpdateEntry(e, edit).value;
      && ReadEntry(r).Some?
      && var p := ReadEntry(r).value;
      && p.document == edit.doc
      && p.meta.version == m.version + 1
      && p.meta.lastModified == edit.time
      && p.meta.projectId == m.projectId && p.meta.filename == m.filename && p.meta.createdAt == m.createdAt
      && (Truthy(edit.user) ==> Get(p.meta.activeUsers, edit.user.value) == Some(edit.time))
      && (Truthy(edit.user) ==> forall u :: u != edit.user.value ==> Get(p.meta.activeUsers, u) == Get(m.activeUsers, u))
      && (!Truthy(edit.user) ==> p.meta.activeUsers == m.activeUsers)
  {
    SaveLoadRoundTrip(edit.doc);
    if e.meta.Some? && Truthy(edit.user) {
      PutKeepsOthersAll(e.meta.value.activeUsers, edit.user.value, edit.time);
    }
  }

  /**
   * N successful updates raise the version by exactly N, and the stored
   * document is the last one submitted (last writer wins).
   */
  lemma {:induction false} UpdateAllEffect(e: Entry, edits: seq<Edit>)
    requires e.meta.Some?
    ensures UpdateAll(e, edits).Some?
    ensures UpdateAll(e, edits).value.meta.Some?
    ensures UpdateAll(e, edits).value.meta.value.version == e.meta.value.version + |edits|
    ensures edits != [] ==> UpdateAll(e, edits).value.data == SaveDataFile(edits[|edits| - 1].doc)
  {
    if edits != [] {
      UpdateAllEffect(e, edits[..|edits| - 1]);
    }
  }

  /** An entry of the presence map is reported exactly when it lies inside the window. */
  lemma {:induction false} ActiveEntriesMember(users: Dict<int>, now: int, user: string, t: int)
    ensures ActiveUser(user, t) in ActiveEntries(users, now) <==> (user, t) in users && IsActive(t, now)
  {
    if users != [] {
      var n := |users| - 1;
      ActiveEntriesMember(users[..n], now, user, t);
      assert users == users[..n] + [users[n]];
    }
  }

  /**
   * The window is strict: a user last seen at `t` is reported at `t + 299`
   * and no longer at `t + 300`.
   */
  lemma PresenceWindow(users: Dict<int>, user: string, t: int)
    requires Get(users, user) == Some(t)
    ensures ActiveUser(user, t) in ActiveEntries(users, t + ActiveWindow - 1)
    ensures ActiveUser(user, t) !in ActiveEntries(users, t + ActiveWindow)
  {
    ActiveEntriesMember(users, t + ActiveWindow - 1, user, t);
    ActiveEntriesMember(users, t + ActiveWindow, user, t);
  }
}

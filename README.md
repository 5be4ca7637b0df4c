# Shared spreadsheet projects: store and sessions

This project models the collaboration core of a small web spreadsheet editor.
Users upload a workbook (sheets of rows), edit it in a browser session, and can
share it as a *project* that other sessions join and edit.

The model has two stateful parts.

- **The project store** (`CollaborationManager`, `utils/collaboration_manager.py`).
  - It is a directory holding one entry per project id.
  - Each entry has a metadata record: file name, creation time, last-modified
    time, version, and the users seen, each with its last activity time.
  - Each entry also has a data record: the workbook as JSON, one list of row
    objects per sheet.
  - Operations: create a project (version 1, nobody present), join, read,
    update, list active users, list projects, and look up a version.
  - An update raises the version by one, stamps the time, and overwrites the
    stored workbook without comparing versions, so the last writer wins.
  - A user counts as active when seen less than 300 seconds ago. Old entries
    are never removed.
- **A browser session** (`DataManager` over the session state, `utils/data_manager.py`).
  - It holds the workbook being edited, the selected sheet, the file name,
    and, in collaborative mode, the project id, the user id and the last
    project version it saw.
  - Initialisation fills in only the missing entries.
  - Sync pulls the stored workbook when the store's version is strictly newer.
  - A push sends the whole workbook and adds one to the session's own version.
  - Clear resets every entry.

The model is organised as follows.

- The store is the class `Collaboration.CollaborationManager`, with one field
  `projects: map<string, Entry>`.
  - An `Entry` records its metadata as `Option<Metadata>`, where `None` means
    missing or unparsable.
  - An `Entry` records its data file as `Absent`, `Unparsable` or
    `Parsed(json)`.
  - So the model keeps every path on which the code swallows a read error and
    returns `None`, `False` or skips the project.
- The file lock around an update is modelled by making the update one method
  with a single write of the entry.
- A session is the class `Sessions.Session`.
  - It holds its entries as one `SessionState` record.
  - A set `present` records which entries exist yet.
  - It also holds a reference to the shared store.
- The clock is a parameter `now`, in whole seconds.
- The output of the uuid generator is a parameter `uuid`.
  - Ids are its first eight characters, taken with Python's slice semantics.
  - User ids add the prefix `user_`.
- Dictionaries are insertion-ordered sequences of pairs (`Dicts`), with Python's
  assignment semantics:
  - an existing key keeps its place and takes the new value;
  - a new key goes at the end.
- Documents, rows and the JSON records are values in `Records`. Pure
  per-entry transitions, the presence filter and the listing order are in
  `Projects`.

Places where the model deliberately follows the code:

- `create_project` does not check whether the generated id is already taken.
  A colliding id overwrites the existing project, and `CreateProject` says so
  (`projects == old(projects)[projectId := ...]`).
- `join_collaborative_project` calls `join_project` without the session's
  user id.
  - The store therefore records a freshly generated user as present.
  - The session then keeps a second generated id (`JoinCollaborativeProject`).
    When the two uuids differ in their first eight characters, the session's
    own user gains no presence from the join (`JoinRecordsAnotherUser`).
- After a push the session's version is its old version plus one, not the
  store's version.
  - A session that was behind stays behind after its own push.
  - Its next sync therefore pulls its own workbook back
    (`PushLeavesSessionBehind`).
- `create_collaborative_project` leaves the session's version at its old
  value (0 for a new session), one below the store's.
- `join_project` on a project whose metadata record cannot be read returns
  true and changes nothing, because the error is caught inside
  `_update_user_activity`.

## Model

| member | source | states |
|---|---|---|
| Dicts.Get | utils/data_manager.py:140 | dictionary lookup: no value exactly when the key is absent, and a found value is the one stored under that key |
| Dicts.Put | utils/collaboration_manager.py:205 | after `d[k] = v`, looking up `k` gives `v` |
| Dicts.PutKeys | utils/collaboration_manager.py:176 | assignment keeps the key order: an existing key stays in place, a new key is appended |
| Dicts.PutKeepsOthers | utils/collaboration_manager.py:205 | assignment to one key leaves every other key's value unchanged |
| Dicts.PutUnique | utils/collaboration_manager.py:191-192 | assignment keeps the keys pairwise distinct |
| Dicts.PutAppends | utils/collaboration_manager.py:174-176 | assigning a new key appends the pair at the end |
| Records.EncodeValue | utils/collaboration_manager.py:176 | a cell written to JSON reads back as the same cell |
| Records.DecodeValue | utils/collaboration_manager.py:192 | a scalar JSON value reads as the matching cell; an array or object value is treated as unreadable (see Left out) |
| Records.EncodeRow | utils/collaboration_manager.py:176 | a row becomes a JSON object with one member per column, and it reads back as the same row |
| Records.DecodeRow | utils/collaboration_manager.py:192 | a row read from a JSON object has one column per member |
| Records.EncodeSheet | utils/collaboration_manager.py:176 | a sheet becomes one JSON record per row, and it reads back as the same sheet |
| Records.DecodeSheet | utils/collaboration_manager.py:192 | a sheet read from a list of JSON objects has one row per object; any other item shape is treated as unreadable (see Left out) |
| Records.DecodeSheets | utils/collaboration_manager.py:190-192 | a document rebuilt from a record, by dictionary assignment sheet by sheet, has distinct sheet names; a sheet value that is not a list is treated as unreadable (see Left out) |
| Records.SaveDataFile | utils/collaboration_manager.py:172-179 | for the modelled cell types, the data record written is always a parsable JSON object (date and time cells are not modelled; see Left out) |
| Records.LoadDataFile | utils/collaboration_manager.py:181-194 | a missing data record loads as the empty document; an unparsable record or a non-object fails; a loaded document has distinct sheet names |
| Records.EncodeSheetsInOrder | utils/collaboration_manager.py:174-176 | for a document with distinct sheet names, the record is the sheets' records in document order |
| Records.DecodeSheetsInOrder | utils/collaboration_manager.py:190-192 | loading the in-order sheet records gives back the document |
| Records.SaveLoadRoundTrip | utils/collaboration_manager.py:172-194 | saving and then loading a document returns it unchanged: same sheet order, names and rows |
| Projects.GenerateProjectId | utils/collaboration_manager.py:164-166 | a project id is the first eight characters of the uuid text (all of it when shorter) |
| Projects.GenerateUserId | utils/collaboration_manager.py:168-170 | a user id is `user_` followed by the first eight characters of the uuid text |
| Projects.TouchEntry | utils/collaboration_manager.py:196-210 | recording presence sets the user's last activity to `now`, changes no other metadata field, no other user and not the data; unreadable metadata is left alone |
| Projects.ActiveEntries | utils/collaboration_manager.py:121-135 | the active users are at most as many as the users recorded |
| Projects.ActiveEntriesMember | utils/collaboration_manager.py:124-133 | a user is listed with time `t` exactly when recorded with `t` and seen less than 300 seconds before `now` |
| Projects.PresenceWindow | utils/collaboration_manager.py:126-129 | a user last seen at `t` is still active at `t + 299` and no longer at `t + 300` |
| Projects.InsertNewestFirst | utils/collaboration_manager.py:162 | inserting a line into a newest-first listing keeps it newest first and adds exactly that line |
| Projects.SortNewestFirst | utils/collaboration_manager.py:162 | the sorted listing is ordered by last modification, newest first, and is a permutation of its input |
| Projects.SortKeepsLines | utils/collaboration_manager.py:162 | sorting keeps the same lines, the same count and the same project ids |
| Projects.DistinctIdsCount | utils/collaboration_manager.py:144-160 | a listing with one line per project id has as many lines as ids |
| Projects.CreatedProjectReads | utils/collaboration_manager.py:21-46 | a newly created project reads back with version 1, nobody present, created and modified `now`, and the given file name and document |
| Projects.UpdateEntryEffect | utils/collaboration_manager.py:93-108 | an update succeeds exactly when the metadata is readable; then the stored document is the submitted one, the version is one higher and `last_modified` is `now`; presence is refreshed only for a given user id, and every other user's entry is left as it was; id, file name and creation time are kept |
| Projects.UpdateAllEffect | utils/collaboration_manager.py:99 | N successive updates raise the version by exactly N, and the stored document is the last one submitted |
| Collaboration.CollaborationManager.constructor | utils/collaboration_manager.py:12-14 | opening the project directory keeps what it holds |
| Collaboration.CollaborationManager.CreateProject | utils/collaboration_manager.py:21-46 | the new id is derived from the uuid; that entry becomes the new project (version 1, nobody present, the document saved) and no other entry changes |
| Collaboration.CollaborationManager.JoinProject | utils/collaboration_manager.py:48-59 | an unknown id is refused with the store unchanged; otherwise the given user, or a generated one when none is given, is recorded as present, and nothing else changes |
| Collaboration.CollaborationManager.UpdateUserActivity | utils/collaboration_manager.py:196-210 | the user's last activity on that project becomes `now`; a missing project or unreadable metadata changes nothing |
| Collaboration.CollaborationManager.ProjectData | utils/collaboration_manager.py:61-81 | no project for an unknown id or unreadable metadata; when the metadata and the data record both read, the result is exactly that metadata and the loaded document; a missing data record reads as an empty document |
| Collaboration.CollaborationManager.UpdateProjectData | utils/collaboration_manager.py:83-113 | fails with no change for an unknown id or unreadable metadata; otherwise only that entry changes, the version rises by one, and the submitted document is what the project then reads back |
| Collaboration.CollaborationManager.GetActiveUsers | utils/collaboration_manager.py:115-135 | the loop returns exactly the presence filter of the project's users; an unknown or unreadable project gives none |
| Collaboration.CollaborationManager.ListProjects | utils/collaboration_manager.py:137-162 | one line per project with readable metadata, unreadable ones skipped; sorted newest modification first; each line carries that project's file name, times and current active-user count |
| Collaboration.CollaborationManager.CollectListing | utils/collaboration_manager.py:144-160 | the directory scan yields one line per readable project, with no id twice |
| Collaboration.CollaborationManager.ProjectVersion | utils/collaboration_manager.py:212-217 | 0 for an unknown or unreadable project, otherwise the stored version |
| Sessions.CurrentData | utils/data_manager.py:137-141 | nothing when no sheet is selected or the workbook has no such sheet; otherwise the rows stored under the selected sheet |
| Sessions.Synced | utils/data_manager.py:88-96 | the session's version never decreases; only the workbook and version change, and only when the read project is newer, in which case both are taken from it |
| Sessions.SyncSettles | utils/data_manager.py:88-96 | after a sync, a second sync against the same project data does nothing |
| Sessions.PushLeavesSessionBehind | utils/data_manager.py:111-113 | a session that was behind the store before its push is still behind after it, and its next sync takes back its own workbook |
| Sessions.Initialized | utils/data_manager.py:8-27 | initialising a session with no entries gives the starting state; initialising a fully set-up session changes nothing |
| Sessions.InitializedFields | utils/data_manager.py:8-27 | every existing entry keeps its value and every missing entry takes its starting value |
| Sessions.Session.constructor | utils/data_manager.py:8-27 | a new session has no entries and no store yet |
| Sessions.Session.InitializeSessionState | utils/data_manager.py:8-27 | afterwards every entry exists and a store is attached; missing entries take their starting values; calling it on a set-up session changes nothing |
| Sessions.Session.SaveExcelData | utils/data_manager.py:30-38 | stores workbook and file name and marks a file uploaded; selects the first sheet of a non-empty workbook and otherwise keeps the selection; nothing else changes |
| Sessions.Session.CreateCollaborativeProject | utils/data_manager.py:41-53 | creates the project, attaches the session under a generated user id, records that user as present, and reads back the project at version 1; the session's workbook and version are unchanged |
| Sessions.Session.JoinCollaborativeProject | utils/data_manager.py:56-77 | unknown project: false and nothing changes; known: a user generated from one uuid is recorded present and the session takes an id generated from another uuid; when readable, the session takes the stored workbook, file name and version and selects the first sheet |
| Sessions.JoinRecordsAnotherUser | utils/data_manager.py:60-61 | when the two uuids differ in their first eight characters, the user recorded by the join is not the session's user, and the session's own user keeps its previous presence entry (none for a new user) |
| Sessions.Session.SyncCollaborativeData | utils/data_manager.py:80-96 | a detached session changes nothing; otherwise the session is exactly the sync of the project as read, returning whether it took the newer version |
| Sessions.Session.UpdateCollaborativeData | utils/data_manager.py:99-115 | pushes only when attached and the project's metadata is readable; the store entry becomes the update with the session's workbook and user; the session's version rises by one exactly when the push succeeded |
| Sessions.Session.GetActiveUsers | utils/data_manager.py:118-124 | none when the session is not attached, otherwise the project's active users |
| Sessions.Session.UpdateSheetData | utils/data_manager.py:127-134 | the sheet is replaced or added in the session's workbook; when the session is attached to a project with readable metadata the workbook is pushed and the version rises by one; in every other case (not collaborative, no project id, unknown project, unreadable metadata) the store and the version are unchanged |
| Sessions.Session.ClearData | utils/data_manager.py:149-158 | every entry returns to its starting value; the store handle stays |

## Left out

- Concurrency: the file lock and interleaved updates from several processes are not modelled. An update is one atomic method, so lost updates show only as last-writer-wins between whole updates.
- The filesystem and JSON text: directories, `os.makedirs`, file opening and the JSON text format are not modelled. The store is a map, and records are parsed JSON values, or missing or unparsable.
- Records.SaveDataFile: date and time cells are not modelled. `pd.read_excel` turns them into Timestamps, which `df.to_dict('records')` keeps and `json.dump` cannot write, so the source's save raises after writing part of the data record. `create_project` then raises after writing metadata.json. It leaves a listed version-1 entry whose data record is unparsable (`Entry(Some(meta), Unparsable)`), and the session is never attached. `update_project_data` then returns False after writing version + 1, leaving the entry with a raised version and an unparsable data record. Every later read, join, sync and version lookup of such a project fails. In the model the save always yields a parsable record, so `CreateProject` and `UpdateProjectData` always complete.
- Records.SaveLoadRoundTrip: a sheet is a sequence of rows with no separate column list. In the source, a sheet with a header row and no data rows saves as `[]` and loads back as a frame with no columns, so its headers are lost. The round trip holds in the model only because such a sheet and an empty sheet are the same value. Column labels are also text in the model, while the source keeps the header row's own values as labels. After one save and load, a numeric or boolean header comes back as its text form (`2023` as `"2023"`, `True` as `"true"`), so joining and syncing sessions see labels different from the uploader's. A date header makes the save raise, with the same consequences as a date cell (see `Records.SaveDataFile` above).
- Write errors are not modelled. An update in which writing a record fails, or in which the metadata lacks a `version` key, is not distinguished from a successful one.
- Timestamps are integer seconds supplied by the caller. ISO-8601 text, `datetime.fromisoformat` failures and fractional seconds are not modelled.
- Collaboration.CollaborationManager.ListProjects: orders by the integer last-modified time rather than by the ISO text. It does not state the order of projects with equal times, which Python's stable sort keeps in directory order.
- Collaboration.CollaborationManager.ListProjects: the `metadata.get` defaults ("Unknown" and "") for missing fields are not modelled, because a readable metadata record always has every field.
- Collaboration.CollaborationManager.ProjectVersion: the default of 1 for a metadata record without `version` is not modelled, for the same reason.
- Collaboration.CollaborationManager.CollectListing: the directory listing order is left open; each step picks any project not yet visited.
- Records.DecodeValue: a data record with an array or object cell, which the program never writes, is treated as unreadable, although `pd.DataFrame(records)` would build an object cell from it.
- Records.DecodeSheet: a sheet whose items are not all JSON objects (a list of scalars or of lists), which the program never writes, is treated as unreadable, although pandas would build a frame from it.
- Records.DecodeSheets: a sheet value that is not a list (`null`, or an object of columns), which the program never writes, is treated as unreadable, although pandas would build a frame from it.
- Records.DecodeRow: a JSON object that repeats a member name keeps both pairs, while `json.load` keeps only the last value; the program never writes such an object.
- Cells are empty, boolean, integer or text. Floating-point cells, NaN filling of columns missing from some rows when pandas rebuilds a sheet, and dtype conversions are not modelled.
- `uuid.uuid4()` is not modelled: its output is a parameter.
- Error printing is not modelled.
- `get_all_data` is a plain read of the session's workbook (`state.excelData`) and has no member of its own.
- Sessions.Session.InitializeSessionState: takes the store object as a parameter instead of constructing a new handle on the project directory.
- `utils/excel_handler.py` (Excel file reading and writing through pandas and openpyxl) is not part of this model.
- `app.py` (the Streamlit user interface and its polling timer) is not part of this model.
- Aliasing between the caller's workbook and the session's is not modelled. Workbooks are values, so the in-place `excel_data[sheet_name] = df` of `update_sheet_data` is modelled as reassigning the session's workbook.

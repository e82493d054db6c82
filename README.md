# qtdcm bookkeeping, modelled in Dafny

qtdcm is a Qt library for querying and retrieving DICOM data from a PACS
(through DCMTK) or from a DICOMDIR. Most of it is widget code and calls into
the toolkit. This project models the bookkeeping around those calls and
proves what it promises:

- **The retrieval queue** (`QtDcmFifoMover`, module `DcmFifo`, `fifo_mover.dfy`).
  A map from request id to a configured mover, plus a run flag. The worker
  loop repeatedly takes the smallest request id, starts that mover, and emits
  a pending heartbeat carrying that id while the mover runs.
- **The PACS plugin facade** (`QtDcmAPHP`):
  - in module `DcmAphp` (`aphp.dfy`): the registry of running moves, the
    translation of mover events into `moveProgress`/`pathToData` signals with
    the status codes KO = -1, OK = 0, PENDING = 1, the cached-data query, and
    the registration of the remote server in the server list;
  - in module `DcmQueryKeys` (`query_keys.dfy`): the C-FIND identifiers of the
    Patient Root Query/Retrieve Information Model (DICOM PS3.4 section C.6.1)
    at the PATIENT, STUDY and SERIES levels.
- **The manager** (`QtDcmManager`, module `DcmManager`, `manager.dfy`):
  - the import selection tied to one query level;
  - the image list of a series with its InstanceNumber map, and the preview's
    choice among them;
  - the patient and series data collected from query answers, and its
    restriction to the selection when it is fetched.
- **The widget's query filters** (`QtDcm`, module `DcmWidget`, `widget.dfy`):
  - wildcard wrapping of the text filters;
  - the modality and gender choices;
  - keeping the study date range in order when either end changes.
- **Shared values** (`DcmCommon`, `common.dfy`; `DcmDates`, `dates.dfy`):
  - server entries, move jobs and the status codes;
  - the decimal rendering of integers (`QString::number`);
  - calendar dates, their DICOM DA rendering `YYYYMMDD` (DICOM PS3.5
    section 6.2), and the `dd/MM/yyyy` text the patient tree shows.

State that the source updates in place is modelled as classes: `FifoMover`,
`Aphp`, `Manager` and `QtDcm`. Their methods carry `modifies` clauses and state
the whole new state. Loops that compute a value over a map are methods proved
against a specification function:

- `Manager.GetPatientsToFetch` against `PatientsToFetch`;
- `Manager.GetSeriesToFetch` against `SeriesToFetch`;
- `FifoMover.Processing` against `SortedKeys` and `HeartbeatTrace`;
- `IsRegistered` against `Registered`.

The properties of the specification functions are proved as lemmas. Things
outside the model are parameters or recorded sequences:

- the number of times a running mover answers `isRunning()`;
- whether the temporary directory exists and a tree widget is attached;
- the current date;
- the signals emitted and the movers started or stopped.

Where the code and its documentation disagree, the model follows the code:

- The queue is served in ascending request-id order (a `QMap`'s first key),
  not in arrival order.
- Each heartbeat carries the id of the job that is running.
- A duplicate id replaces the earlier mover, both in the queue and in the
  plugin's registry.
- The plugin's `moveRequest` starts its mover at once; it does not go through
  the queue.
- `isCachedDataPath` answers true as soon as `moveRequest` has registered a
  job whose temporary directory is set, not only once the job is done.
- The plugin constructor (src/PluginAPHP/QtDcmAPHP.cpp:43-49) does not
  initialise `m_remoteNumber`, so the `Aphp` constructor takes that number
  as a parameter.

## Model

| member | source | states |
|---|---|---|
| DcmCommon.NumberRoundTrip | src/PluginAPHP/QtDcmAPHP.cpp:406 | The port text `QString::number` produces reads back as the port, negative numbers included |
| DcmCommon.NumberToStringInjective | src/PluginAPHP/QtDcmAPHP.cpp:406-409 | Two ports render alike only when they are equal, so the string comparison of ports in the server search is a comparison of ports |
| DcmDates.DateToString | src/QtDcmManager.cpp:61-66 | The result is the wildcard "*" exactly when the date is invalid (the null date included); a valid date gives at least eight characters |
| DcmDates.DateToStringRoundTrip | src/QtDcmManager.cpp:61-66 | A valid date of years 1 to 9999 renders as eight digits that read back, as a DICOM DA value, to the same date |
| DcmDates.BirthDateRoundTrip | src/QtDcmManager.cpp:731 | The `dd/MM/yyyy` birth date text of a valid date converts to the DA value `yyyyMMdd` of that same date |
| DcmFifo.FirstKey | src/PluginAPHP/QtDcmFifoMover.cpp:26 | The key the worker takes is in the map and no key is smaller |
| DcmFifo.SortedKeysElements | src/PluginAPHP/QtDcmFifoMover.cpp:18-37 | The succession of takes visits every queued id and no other id |
| DcmFifo.SortedKeysIncreasing | src/PluginAPHP/QtDcmFifoMover.cpp:18-37 | Successive takes yield strictly ascending ids, so each id is taken exactly once |
| DcmFifo.HeartbeatTraceNamesRunningJobs | src/PluginAPHP/QtDcmFifoMover.cpp:30-34 | Every pending signal names a job that was taken and running, with status PENDING (1) |
| DcmFifo.TakeStep | src/PluginAPHP/QtDcmFifoMover.cpp:26-35 | One take extends the worker's progress by the next id in ascending order: its removal, its start and its heartbeats |
| DcmFifo.ProgressFinal | src/PluginAPHP/QtDcmFifoMover.cpp:18-37 | When the loop ends, the map, the started movers and the heartbeats are those of the smallest ids taken in order |
| DcmFifo.FifoMover.constructor | src/PluginAPHP/QtDcmFifoMover.cpp:4-7 | The queue starts empty with the run flag cleared |
| DcmFifo.FifoMover.AddRequest | src/PluginAPHP/QtDcmFifoMover.cpp:40-43 | The mover is stored under its id, replacing an earlier one; every other entry is unchanged and no other key appears |
| DcmFifo.FifoMover.StopProcessing | src/PluginAPHP/QtDcmFifoMover.cpp:45-48 | The run flag is cleared |
| DcmFifo.FifoMover.RunNext | src/PluginAPHP/QtDcmFifoMover.cpp:20-35 | An empty queue takes and starts nothing and emits nothing. Otherwise exactly the smallest id is removed (size down by one), its mover is started once, and one heartbeat carrying that id is emitted per poll on which the mover runs |
| DcmFifo.FifoMover.TakeNext | src/PluginAPHP/QtDcmFifoMover.cpp:19-36 | One pass of the loop body carries the worker's progress from the first i iterations to the first i + 1: the smallest remaining id is taken while the queue is not empty |
| DcmFifo.FifoMover.Iteration | src/PluginAPHP/QtDcmFifoMover.cpp:17-36 | The same pass, with the stop request arriving during the last iteration: the flag stays set exactly while iterations remain |
| DcmFifo.FifoMover.Processing | src/PluginAPHP/QtDcmFifoMover.cpp:15-38 | The loop sets the flag and runs until it is cleared. It takes the min(iterations, queue size) smallest ids in ascending order and only those; the rest of the queue is kept; the starts and heartbeats are exactly those of the ids taken, in order |
| DcmQueryKeys.KeyRoundTrip | src/PluginAPHP/QtDcmAPHP.cpp:165 | A key "Tag=value" built from a keyword without '=' splits back at its first '=' into that keyword and that value |
| DcmQueryKeys.BareKeyReadsBack | src/PluginAPHP/QtDcmAPHP.cpp:215 | A bare keyword reads back as that keyword with no value (a return key without matching) |
| DcmQueryKeys.FindPatientMinimalEntries | src/PluginAPHP/QtDcmAPHP.cpp:158-189 | Level 0 (PATIENT); exactly four keys: QueryRetrieveLevel=PATIENT, then PatientID, PatientName and PatientSex, each with the filter value or "" when absent |
| DcmQueryKeys.FindStudyMinimalEntries | src/PluginAPHP/QtDcmAPHP.cpp:191-218 | Level 1 (STUDY); exactly five keys, the first QueryRetrieveLevel=STUDY and the last a bare StudyInstanceUID |
| DcmQueryKeys.FindStudyKeys | src/PluginAPHP/QtDcmAPHP.cpp:197-214 | Keys two to four read back as PatientID with the given id, and StudyDescription and StudyDate with the filter value or "" |
| DcmQueryKeys.FindSeriesMinimalEntries | src/PluginAPHP/QtDcmAPHP.cpp:220-246 | Level 2 (SERIES); exactly five keys, the first QueryRetrieveLevel=SERIES and the last SeriesInstanceUID with an empty value |
| DcmQueryKeys.FindSeriesKeys | src/PluginAPHP/QtDcmAPHP.cpp:225-242 | Keys two to four read back as StudyInstanceUID with the given UID, and SeriesDescription and Modality with the filter value or "" |
| DcmManager.PatientsToFetchSpec | src/QtDcmManager.cpp:679-709 | A patient is fetched iff one of its studies is selected. It keeps its name, birth date and gender, and exactly its selected studies with their descriptions |
| DcmManager.SeriesBringTheirPatients | src/QtDcmManager.cpp:665-673 | At the series level, a fetched series whose study belongs to a known patient brings that patient along with that study |
| DcmManager.RemoveFirstSpec | src/QtDcmManager.cpp:1121-1122 | On a duplicate-free list, removeOne removes the UID and nothing else, shortens the list by one iff the UID was present, and keeps the list duplicate-free |
| DcmManager.FillEntryFirstWriteWins | src/QtDcmManager.cpp:727-733 | Only an empty patient entry is filled; a filled entry is non-empty, and filling again changes nothing |
| DcmManager.KeyList | src/QtDcmManager.cpp:668 | The list of a hash's keys holds exactly those keys |
| DcmManager.StudyKeysOf | src/QtDcmManager.cpp:668-672 | The UIDs that select patients at the series level are the series UIDs together with their studies' UIDs |
| DcmManager.Manager.constructor | src/QtDcmManager.cpp:140-155 | The filters are empty, the level is "undefined", and the selection, images and data are empty |
| DcmManager.Manager.AddDataToImport | src/QtDcmManager.cpp:1101-1111 | Afterwards the level is the argument and the UID is selected. A new level first drops the selection; a UID already present at the same level leaves the list unchanged; the list stays duplicate-free |
| DcmManager.Manager.RemoveDataToImport | src/QtDcmManager.cpp:1113-1123 | At another level the selection is emptied and the level kept. At the same level exactly the UID is removed (nothing when absent). The list stays duplicate-free |
| DcmManager.Manager.ClearDataToImport | src/QtDcmManager.cpp:1125-1129 | The level becomes "undefined" and the selection empty; the manager invariant (no duplicate UID selected, every numbered image listed) is kept |
| DcmManager.Manager.DataToImportSize | src/QtDcmManager.cpp:1131-1134 | The size of the list, which equals the number of distinct UIDs selected |
| DcmManager.Manager.FoundImage | src/QtDcmManager.cpp:371-377 | The UID is appended; a non-zero InstanceNumber maps to it; every numbered image stays in the list |
| DcmManager.Manager.ClearListOfImages | src/QtDcmManager.cpp:1085-1089 | The image list and the number map are emptied; the manager invariant is kept |
| DcmManager.Manager.PreviewImageId | src/QtDcmManager.cpp:526-544 | An image is chosen iff the temporary directory exists and the index is within the list. The image numbered by the index wins, otherwise the list entry at the index is chosen; the chosen image is one of the listed images |
| DcmManager.Manager.FoundSerie | src/QtDcmManager.cpp:350-366 | With the series tree attached, a new series id gets its study UID, description and modality. An existing entry, or a missing tree, leaves the data unchanged |
| DcmManager.Manager.FoundStudy | src/QtDcmManager.cpp:324-343 | With the study tree attached, the patient's entry exists afterwards. A non-empty entry gains a new study (and the series query is issued) or stays as it was; an empty or absent entry stays empty |
| DcmManager.Manager.AddPatientDataToFetch | src/QtDcmManager.cpp:725-734 | An absent or empty entry receives the name, the birth date converted to DA, and the gender. A non-empty entry is never overwritten |
| DcmManager.Manager.ClearPatientDataToFetch | src/QtDcmManager.cpp:736-739 | The patient data is emptied |
| DcmManager.Manager.ClearSeriesDataToFetch | src/QtDcmManager.cpp:741-744 | The series data is emptied |
| DcmManager.Manager.SetCurrentPacs | src/QtDcmManager.cpp:953-958 | The server at a valid index becomes current; any other index changes nothing |
| DcmManager.Manager.GetSeriesToFetch | src/QtDcmManager.cpp:711-723 | Exactly the series whose UID is selected, with their data unchanged |
| DcmManager.Manager.SelectedStudies | src/QtDcmManager.cpp:689-697 | Exactly the patient's studies whose UID is selected |
| DcmManager.Manager.GetPatientsToFetch | src/QtDcmManager.cpp:679-709 | Equals the restriction PatientsToFetch, whose meaning PatientsToFetchSpec states |
| DcmManager.Manager.FetchSelectedData | src/QtDcmManager.cpp:646-677 | Nothing at the undefined level; all data at PATIENT; the selected studies' patients and all series at STUDY; the selected series and the patients of their UIDs and studies at SERIES; empty data at any other level |
| DcmManager.SetCurrentPacsGuardAdmitsNegative | src/QtDcmManager.cpp:955 | The range check as written admits index -1 on an empty server list |
| DcmManager.PreviewGuardAdmitsEnd | src/QtDcmManager.cpp:536-540 | The range check as written admits the index one past the end of any non-empty image list |
| DcmManager.TouchStudiesBlocksFill | src/QtDcmManager.cpp:684-689 | The patient scan as written makes an empty entry non-empty, after which addPatientDataToFetch no longer fills it |
| DcmAphp.Translate | src/PluginAPHP/QtDcmAPHP.cpp:344-355 | Every signal carries the request id. A moved series gives moveProgress OK then pathToData with its path; progress gives PENDING; failure gives KO; each status identifies its event |
| DcmAphp.EventStatusesAt | src/PluginAPHP/QtDcmAPHP.cpp:344-355 | The status listed for each event is that event's status |
| DcmAphp.StatusIdentifiesEvent | src/PluginAPHP/QtDcmAPHP.h:53-57 | The three status codes are distinct, so the kind of event reads back from its status |
| DcmAphp.TranslateReadBack | src/PluginAPHP/QtDcmAPHP.cpp:344-355 | One event yields one progress status, and a path exactly when a series was moved |
| DcmAphp.TranslateAllRequestId | src/PluginAPHP/QtDcmAPHP.cpp:344-355 | Every signal of a run of events carries the mover's request id |
| DcmAphp.TranslateAllPaths | src/PluginAPHP/QtDcmAPHP.cpp:344-347 | The pathToData paths of a run of events are exactly the moved series' paths, in order |
| DcmAphp.TranslateAllStatuses | src/PluginAPHP/QtDcmAPHP.cpp:344-355 | A run of events yields one moveProgress per event, with that event's status, in order |
| DcmAphp.RemoteEntry | src/PluginAPHP/QtDcmAPHP.cpp:417-420 | The entry built for the remote server matches it on port, AE title, name and address |
| DcmAphp.RegisterSpec | src/PluginAPHP/QtDcmAPHP.cpp:400-424 | Afterwards the server is listed; the entries already listed are kept in place; at most one is added; registering again changes nothing |
| DcmAphp.IsRegistered | src/PluginAPHP/QtDcmAPHP.cpp:403-414 | The search answers true iff some listed server matches on port, AE title, name and address |
| DcmAphp.CachedDataPathUnknownId | src/PluginAPHP/QtDcmAPHP.cpp:366-368 | As written, an unregistered id reaches a null dereference where the corrected check answers "not cached"; on registered ids both agree |
| DcmAphp.Aphp.constructor | src/PluginAPHP/QtDcmAPHP.cpp:43-49 | No request is registered; the remote server number is whatever value it starts with |
| DcmAphp.Aphp.MoveRequest | src/PluginAPHP/QtDcmAPHP.cpp:321-361 | The remote server becomes the manager's current server. Without a valid temporary directory the result is false and the registry is untouched. Otherwise a mover writing to the temporary directory is registered (replacing an earlier one) and started, and the result is true |
| DcmAphp.Aphp.OnMoverEvent | src/PluginAPHP/QtDcmAPHP.cpp:344-355 | The signals emitted are exactly the translation of the event |
| DcmAphp.Aphp.IsCachedDataPath | src/PluginAPHP/QtDcmAPHP.cpp:363-375 | True with one pathToData signal iff the request is registered and its mover has an output directory; false and no signal otherwise |
| DcmAphp.Aphp.StopMove | src/PluginAPHP/QtDcmAPHP.cpp:379-388 | An unknown id is ignored. A registered id has its mover stopped and exactly its entry removed; the other entries are unchanged |
| DcmAphp.Aphp.UpdateRemoteParameters | src/PluginAPHP/QtDcmAPHP.cpp:400-424 | The list becomes Register of the old list. A newly added server becomes the remote server and its index (the old size) the remote number; otherwise both are kept |
| DcmWidget.WildcardFilter | src/QtDcm.cpp:423-428 | Empty text gives an empty filter and only empty text does; otherwise the text enclosed in '*' |
| DcmWidget.WildcardFilterRoundTrip | src/QtDcm.cpp:423-428 | The text reads back from its filter |
| DcmWidget.WildcardFilterInjective | src/QtDcm.cpp:437-442 | Distinct texts give distinct filters |
| DcmWidget.ModalityFilter | src/QtDcm.cpp:271-291 | ALL gives "", MR, CT and PET give their names, and any other entry gives no value |
| DcmWidget.GenderFilter | src/QtDcm.cpp:308-327 | ALL gives "*", M and F give their letters, and any other entry gives no value |
| DcmWidget.ChoiceFiltersInjective | src/QtDcm.cpp:271-327 | Distinct supported entries set distinct filters |
| DcmWidget.ClampStart | src/QtDcm.cpp:338-342 | The kept start is the earlier of the new start and the end date |
| DcmWidget.ClampEnd | src/QtDcm.cpp:362-366 | The kept end is the later of the new end and the start date |
| DcmWidget.ClampKeepsOrderedDates | src/QtDcm.cpp:338-366 | A date already in order with the other end is kept as chosen |
| DcmWidget.AddYearsBack | src/QtDcm.cpp:89-91 | A hundred years before a valid date is an earlier valid date |
| DcmWidget.QtDcm.constructor | src/QtDcm.cpp:44-97 | DICOMDIR mode; the range runs from a hundred years before today to today, in order, both ends valid, and the manager holds the same dates |
| DcmWidget.QtDcm.OnPatientNameTextChanged | src/QtDcm.cpp:421-433 | The manager's patient name is the wildcard filter of the text; the patients are searched again iff in PACS mode, and that search drops both selections; otherwise they are kept |
| DcmWidget.QtDcm.OnStudyDescriptionTextChanged | src/QtDcm.cpp:435-453 | The manager's study description is the wildcard filter; in PACS mode the study selection is dropped, otherwise kept; the studies are searched again iff a patient is selected in PACS mode |
| DcmWidget.QtDcm.OnSerieDescriptionTextChanged | src/QtDcm.cpp:455-472 | The manager's series description is the wildcard filter; the series are searched again iff in PACS mode |
| DcmWidget.QtDcm.OnCurrentModalityChanged | src/QtDcm.cpp:269-304 | A supported entry sets its modality filter and another keeps the old one. The series are listed again from the PACS, or from the DICOMDIR when a patient and a study are selected |
| DcmWidget.QtDcm.OnCurrentGenderChanged | src/QtDcm.cpp:306-328 | A supported entry sets its gender filter and queries the PACS (`queryPACS`, which runs the PACS search at lines 151-159); that query switches the widget to PACS mode and drops both selections; another entry changes none of these |
| DcmWidget.QtDcm.OnStartDateChanged | src/QtDcm.cpp:336-358 | The start edit and the manager's start date become the earlier of the new start and the end, so start is not after end, and both edits hold valid dates when the end does. The study selection is dropped. The studies are searched again iff a patient is selected in PACS mode |
| DcmWidget.QtDcm.OnEndDateChanged | src/QtDcm.cpp:360-382 | The end edit and the manager's end date become the later of the new end and the start, so start is not after end, and both edits hold valid dates when the start does. The study selection is dropped. The studies are searched again iff a patient is selected in PACS mode |

## Left out

- The DCMTK network layer is not part of this model. That covers association handling, C-ECHO, the C-FIND execution that the key builders feed, C-MOVE transfers, TCP probing and DICOMDIR reading. The key builders are modelled up to the key list and level they pass on.
- Threads and timing are left out: the one-second sleeps, `deleteLater`, and the unsynchronised run flag shared between threads. A mover's run time is the number of polls on which it answers that it is running. The stop request is modelled as arriving during the last scheduled iteration of the worker loop.
- A plugin mover deletes itself when it finishes, but its pointer stays in the registry. Later uses of that dangling pointer are not modelled.
- `QMap::operator[]` in `isCachedDataPath` inserts a null entry for an unknown id. The corrected model neither inserts nor dereferences.
- Preview rendering (`makePreview`), file conversion, the filesystem (temporary and series directories), the preferences persistence, the singleton, message boxes and tree population are not part of this model.
- `updateLocalParameters` only stores three values and persists them; it is not modelled.
- `foundPatient`, the DICOMDIR search paths and the preview mode switch are left out as widget glue.
- Patient and series entries are hashes of `QVariant` in the source. A field that was never set is `None` here. A "studies" field that exists but holds no valid hash counts as an empty study map.
- DcmManager.Manager.GetPatientsToFetch: keys each result by the patient it came from. The source looks the key up by value (`QHash::key`), so two patients whose entries are identical would both be filed under the first one's id. The model does not reproduce that collision.
- DcmManager.Manager.FoundStudy, DcmManager.Manager.FoundSerie: the date conversion used only for the tree display is not modelled.
- DcmDates.ParseDdMMyyyy: accepts exactly two-digit day and month fields and a four-digit year, a subset of what `QDate::fromString` accepts.
- DcmDates.DateToStringRoundTrip, DcmDates.BirthDateRoundTrip: the round trips are proved for years 1 to 9999, the range in which the DA form has exactly four year digits.
- The date edits' minimum and maximum dates are not modelled.
- The modality and gender combo-box indices are the named cases of `ModalityChoice` and `GenderChoice`. The header that assigns their integer values is not part of this model.
- DcmWidget.QtDcm.OnCurrentModalityChanged and the other handlers report which search they trigger as a boolean result. The searches themselves are not modelled, nor is the `setCurrentPacs` call that a PACS query makes with the server combo box's index. Emptying a tree is modelled only through what it does to the patient and study selections and to the mode; the series tree and its rows are not modelled.

## Findings

| source | as written | input that shows it | evidently intended | confidence | as-written member | corrected member |
|---|---|---|---|---|---|---|
| src/QtDcmManager.cpp:955 | `index < size` is the only range check before `servers().at(index)` | index -1 (the current index of an empty server combo box) with an empty server list | `0 <= index < size` | medium, not executed | DcmManager.SetCurrentPacsGuardAsWritten, DcmManager.SetCurrentPacsGuardAdmitsNegative | DcmManager.Manager.SetCurrentPacs |
| src/QtDcmManager.cpp:536-540 | the preview returns early only when `size < elementIndex`, then reads `listImages[elementIndex]` | elementIndex equal to the size of a non-empty image list | `0 <= elementIndex < size` | high, not executed | DcmManager.PreviewGuardAsWritten, DcmManager.PreviewGuardAdmitsEnd | DcmManager.Manager.PreviewImageId |
| src/PluginAPHP/QtDcmAPHP.cpp:366-368 | the looked-up mover is dereferenced before its null check | a request id that was never registered, or one already stopped | check that the id is registered before reading the output directory; answer false otherwise | high, not executed | DcmAphp.IsCachedDataPathAsWritten, DcmAphp.CachedDataPathUnknownId | DcmAphp.Aphp.IsCachedDataPath |
| src/QtDcmManager.cpp:684-689 | the patient scan iterates by non-const reference and reads "studies" with `operator[]`, which adds that field to every entry lacking it | a patient entry left empty by a study answer, then scanned by getPatientsToFetch, then passed to addPatientDataToFetch | read the entries without changing them, so an empty entry can still be filled | low, not executed | DcmManager.TouchStudiesAsWritten, DcmManager.TouchStudiesBlocksFill | DcmManager.Manager.GetPatientsToFetch |

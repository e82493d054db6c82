/**
 * The bookkeeping of QtDcmManager: the import selection tied to one query
 * level, the image list of the selected series with its InstanceNumber map,
 * the patient and series data collected from query answers, and the
 * restriction of that data to the selection when it is fetched.
 *
 * A patient entry is a hash of optional fields (PatientName, BirthDate,
 * Gender, studies); a series entry holds StudyInstanceUID, SeriesDescription
 * and Modality. Query answers arrive as arguments; whether a tree widget is
 * attached is a boolean argument, and the series query that a new study
 * triggers is reported as a result.
 */
module DcmManager {
  import opened DcmCommon
  import opened DcmDates

  /** A patient of patientData; a field that was never set is None. */
  datatype PatientEntry = PatientEntry(
    name: Option<string>,
    birthDate: Option<string>,
    gender: Option<string>,
    studies: Option<map<string, string>>)
  {
    /** The hash has no key at all. */
    predicate IsEmpty() {
      name.None? && birthDate.None? && gender.None? && studies.None?
    }
  }

  const EMPTY_ENTRY := PatientEntry(None, None, None, None)

  /** A series of seriesData. */
  datatype SeriesEntry = SeriesEntry(studyInstanceUID: string, seriesDescription: string, modality: string)

  /** The level of an empty selection. */
  const UNDEFINED_LEVEL := "undefined"

  /** The studies of a patient, study UID to description; none when the field is unset. */
  function StudiesOf(e: PatientEntry): map<string, string> {
    e.studies.GetOr(map[])
  }

  /** The studies whose UID is among `uids`. */
  function SelectStudies(studies: map<string, string>, uids: set<string>): map<string, string> {
    map k | k in studies && k in uids :: studies[k]
  }

  /** What getPatientsToFetch returns: the patients with a selected study, their studies restricted to the selection. */
  function PatientsToFetch(patientData: map<string, PatientEntry>, uids: set<string>): map<string, PatientEntry> {
    map p | p in patientData && SelectStudies(StudiesOf(patientData[p]), uids) != map[] ::
      PatientEntry(patientData[p].name, patientData[p].birthDate, patientData[p].gender,
                   Some(SelectStudies(StudiesOf(patientData[p]), uids)))
  }

  /** What getSeriesToFetch returns: the series whose UID is selected. */
  function SeriesToFetch(seriesData: map<string, SeriesEntry>, uids: set<string>): map<string, SeriesEntry> {
    map k | k in seriesData && k in uids :: seriesData[k]
  }

  /** The UIDs fetchSelectedData selects patients by at the series level: the series UIDs and their studies. */
  function SeriesStudyKeys(se: map<string, SeriesEntry>): set<string> {
    se.Keys + set k | k in se :: se[k].studyInstanceUID
  }

  /**
   * A patient is fetched iff one of its studies is selected; a fetched
   * patient keeps its name, birth date and gender, and exactly its selected
   * studies with their descriptions.
   */
  lemma PatientsToFetchSpec(patientData: map<string, PatientEntry>, uids: set<string>)
    ensures forall p :: p in PatientsToFetch(patientData, uids) <==>
      p in patientData && exists s :: s in StudiesOf(patientData[p]) && s in uids
    ensures forall p :: p in PatientsToFetch(patientData, uids) ==>
      var e, f := patientData[p], PatientsToFetch(patientData, uids)[p];
      && f.name == e.name && f.birthDate == e.birthDate && f.gender == e.gender
      && f.studies.Some?
      && f.studies.value.Keys == StudiesOf(e).Keys * uids
      && forall s :: s in f.studies.value ==> f.studies.value[s] == StudiesOf(e)[s]
  {
    var r := PatientsToFetch(patientData, uids);
    forall p
      ensures p in r <==> p in patientData && exists s :: s in StudiesOf(patientData[p]) && s in uids
    {
      if p in patientData {
        var sel := SelectStudies(StudiesOf(patientData[p]), uids);
        if exists s :: s in StudiesOf(patientData[p]) && s in uids {
          var s :| s in StudiesOf(patientData[p]) && s in uids;
          assert s in sel;
        } else {
          assert sel == map[];
        }
      }
    }
  }

  /**
   * At the series level every fetched series whose study belongs to a known
   * patient brings that patient along, with that study among its studies.
   */
  lemma SeriesBringTheirPatients(patientData: map<string, PatientEntry>, se: map<string, SeriesEntry>, p: string, k: string)
    requires p in patientData && k in se && se[k].studyInstanceUID in StudiesOf(patientData[p])
    ensures p in PatientsToFetch(patientData, SeriesStudyKeys(se))
    ensures se[k].studyInstanceUID in PatientsToFetch(patientData, SeriesStudyKeys(se))[p].studies.value
  {
    var uid := se[k].studyInstanceUID;
    assert uid in SeriesStudyKeys(se);
    assert uid in SelectStudies(StudiesOf(patientData[p]), SeriesStudyKeys(se));
  }

  /** Scanning one more patient adds it to the result exactly when one of its studies is selected. */
  lemma PatientsToFetchAdd(patientData: map<string, PatientEntry>, keys: set<string>, key: string, uids: set<string>)
    requires key in keys && keys <= patientData.Keys
    ensures var e, sel := patientData[key], SelectStudies(StudiesOf(patientData[key]), uids);
      PatientsToFetch(patientData - (keys - {key}), uids)
      == if sel != map[] then PatientsToFetch(patientData - keys, uids)[key := PatientEntry(e.name, e.birthDate, e.gender, Some(sel))]
         else PatientsToFetch(patientData - keys, uids)
  {
  }

  /** QList::removeOne: the first occurrence of x removed. */
  function RemoveFirst(s: seq<string>, x: string): seq<string> {
    if s == [] then []
    else if s[0] == x then s[1..]
    else [s[0]] + RemoveFirst(s[1..], x)
  }

  /** On a list without duplicates, removeOne removes x and only x and keeps the list duplicate-free. */
  lemma {:induction false} RemoveFirstSpec(s: seq<string>, x: string)
    requires NoDuplicates(s)
    ensures NoDuplicates(RemoveFirst(s, x))
    ensures Elements(RemoveFirst(s, x)) == Elements(s) - {x}
    ensures |RemoveFirst(s, x)| == if x in s then |s| - 1 else |s|
    ensures x !in s ==> RemoveFirst(s, x) == s
  {
    if s != [] {
      assert NoDuplicates(s[1..]);
      assert s == [s[0]] + s[1..];
      assert Elements(s) == {s[0]} + Elements(s[1..]);
      assert s[0] !in s[1..];
      if s[0] != x {
        RemoveFirstSpec(s[1..], x);
        var t := RemoveFirst(s[1..], x);
        assert s[0] !in Elements(t);
        assert Elements([s[0]] + t) == {s[0]} + Elements(t);
        forall i, j | 0 <= i < j < |[s[0]] + t|
          ensures ([s[0]] + t)[i] != ([s[0]] + t)[j]
        {
          if i == 0 {
            assert t[j - 1] in Elements(t);
          }
        }
      }
    }
  }

  /** The fill of addPatientDataToFetch: an empty entry receives the data, any other entry is kept. */
  function FillEntry(e: PatientEntry, name: string, birthDate: string, gender: string): PatientEntry {
    if e.IsEmpty() then PatientEntry(Some(name), Some(BirthDateToDA(birthDate)), Some(gender), None) else e
  }

  /** Filling never overwrites: a non-empty entry is returned as is, and a filled entry is non-empty. */
  lemma FillEntryFirstWriteWins(e: PatientEntry, name: string, birthDate: string, gender: string)
    ensures !e.IsEmpty() ==> FillEntry(e, name, birthDate, gender) == e
    ensures !FillEntry(e, name, birthDate, gender).IsEmpty()
    ensures FillEntry(FillEntry(e, name, birthDate, gender), name, birthDate, gender) == FillEntry(e, name, birthDate, gender)
  {
  }

  /** The study UIDs of the series among `ks`. */
  ghost function StudyUIDsOf(se: map<string, SeriesEntry>, ks: set<string>): set<string>
    requires ks <= se.Keys
  {
    set k | k in ks :: se[k].studyInstanceUID
  }

  lemma StudyUIDsOfAdd(se: map<string, SeriesEntry>, ks: set<string>, k: string)
    requires ks <= se.Keys && k in se
    ensures StudyUIDsOf(se, ks + {k}) == StudyUIDsOf(se, ks) + {se[k].studyInstanceUID}
  {
  }

  lemma ElementsAppend(s: seq<string>, x: string)
    ensures Elements(s + [x]) == Elements(s) + {x}
  {
  }

  /** The keys of a hash, in some order (QHash::keys). */
  method KeyList<V>(m: map<string, V>) returns (ks: seq<string>)
    ensures Elements(ks) == m.Keys
  {
    ks := [];
    var keys := m.Keys;
    while keys != {}
      invariant keys <= m.Keys
      invariant Elements(ks) == m.Keys - keys
      decreases |keys|
    {
      ghost var w := Pick(keys);
      var k :| k in keys;
      ElementsAppend(ks, k);
      ks := ks + [k];
      keys := keys - {k};
    }
  }

  /** Where the study UIDs of the series level come from: the series keys, then each series' study. */
  method StudyKeysOf(se: map<string, SeriesEntry>) returns (uids: seq<string>)
    ensures Elements(uids) == SeriesStudyKeys(se)
  {
    uids := KeyList(se);
    var keys := se.Keys;
    while keys != {}
      invariant keys <= se.Keys
      invariant Elements(uids) == se.Keys + StudyUIDsOf(se, se.Keys - keys)
      decreases |keys|
    {
      ghost var w := Pick(keys);
      var k :| k in keys;
      ElementsAppend(uids, se[k].studyInstanceUID);
      assert se.Keys - (keys - {k}) == (se.Keys - keys) + {k};
      StudyUIDsOfAdd(se, se.Keys - keys, k);
      uids := uids + [se[k].studyInstanceUID];
      keys := keys - {k};
    }
    assert se.Keys - keys == se.Keys;
  }

  class Manager {
    var queryLevel: string
    var dataToImport: seq<string>
    var listImages: seq<string>
    var mapImages: map<int, string>
    var patientData: map<string, PatientEntry>
    var seriesData: map<string, SeriesEntry>
    var currentPacs: Server
    var patientName: string
    var patientSex: string
    var modality: string
    var studyDescription: string
    var serieDescription: string
    var startDate: Date
    var endDate: Date

    /** The selection holds no UID twice; every numbered image is in the image list. */
    ghost predicate Valid()
      reads this
    {
      && NoDuplicates(dataToImport)
      && forall n :: n in mapImages ==> mapImages[n] in listImages
    }

    constructor ()
      ensures Valid()
      ensures queryLevel == UNDEFINED_LEVEL && dataToImport == []
      ensures listImages == [] && mapImages == map[]
      ensures patientData == map[] && seriesData == map[]
      ensures currentPacs == EMPTY_SERVER
      ensures patientName == "" && patientSex == "" && modality == ""
      ensures studyDescription == "" && serieDescription == ""
      ensures startDate == NULL_DATE && endDate == NULL_DATE
    {
      queryLevel := UNDEFINED_LEVEL;
      dataToImport := [];
      listImages := [];
      mapImages := map[];
      patientData := map[];
      seriesData := map[];
      currentPacs := EMPTY_SERVER;
      patientName := "";
      patientSex := "";
      modality := "";
      studyDescription := "";
      serieDescription := "";
      startDate := NULL_DATE;
      endDate := NULL_DATE;
    }

    /**
     * Selects `uid` at `level`. A level other than the current one first
     * drops the selection and switches to it; a UID already selected is not
     * added again.
     */
    method AddDataToImport(uid: string, level: string)
      requires Valid()
      modifies this`dataToImport, this`queryLevel
      ensures Valid()
      ensures queryLevel == level && uid in dataToImport
      ensures old(queryLevel) != level ==> dataToImport == [uid]
      ensures old(queryLevel) == level && uid in old(dataToImport) ==> dataToImport == old(dataToImport)
      ensures old(queryLevel) == level && uid !in old(dataToImport) ==> dataToImport == old(dataToImport) + [uid]
    {
      if queryLevel != level {
        dataToImport := [];
        queryLevel := level;
      }
      if uid !in dataToImport {
        dataToImport := dataToImport + [uid];
      }
    }

    /**
     * Deselects `uid` at `level`. At another level the whole selection is
     * dropped and the level kept; otherwise the UID is removed if present.
     */
    method RemoveDataToImport(uid: string, level: string)
      requires Valid()
      modifies this`dataToImport
      ensures Valid()
      ensures queryLevel != level ==> dataToImport == []
      ensures queryLevel == level ==> dataToImport == RemoveFirst(old(dataToImport), uid)
      ensures uid !in dataToImport
      ensures queryLevel == level ==> Elements(dataToImport) == Elements(old(dataToImport)) - {uid}
    {
      if queryLevel != level {
        dataToImport := [];
        return;
      }
      RemoveFirstSpec(dataToImport, uid);
      if uid in dataToImport {
        dataToImport := RemoveFirst(dataToImport, uid);
      } else {
        assert uid !in Elements(dataToImport);
      }
    }

    /** Drops the selection and returns to the undefined level. */
    method ClearDataToImport()
      requires Valid()
      modifies this`dataToImport, this`queryLevel
      ensures Valid()
      ensures queryLevel == UNDEFINED_LEVEL && dataToImport == []
    {
      queryLevel := UNDEFINED_LEVEL;
      dataToImport := [];
    }

    /** The size of the selection, which is the number of distinct UIDs selected. */
    method DataToImportSize() returns (n: int)
      requires Valid()
      ensures n == |dataToImport| && n == |Elements(dataToImport)|
    {
      DistinctCardinality(dataToImport);
      n := |dataToImport|;
    }

    /** Records an image UID of the selected series; a non-zero InstanceNumber also maps to it. */
    method FoundImage(image: string, number: int)
      requires Valid()
      modifies this`listImages, this`mapImages
      ensures Valid()
      ensures listImages == old(listImages) + [image]
      ensures mapImages == if number != 0 then old(mapImages)[number := image] else old(mapImages)
    {
      listImages := listImages + [image];
      if number != 0 {
        mapImages := mapImages[number := image];
      }
    }

    method ClearListOfImages()
      requires Valid()
      modifies this`listImages, this`mapImages
      ensures Valid()
      ensures listImages == [] && mapImages == map[]
    {
      listImages := [];
      mapImages := map[];
    }

    /**
     * The image the preview shows for `elementIndex`, with the index range
     * check the read needs: none without a temporary directory or outside
     * the list; otherwise the image numbered `elementIndex` when there is
     * one, else the list entry at that position.
     */
    function PreviewImageId(tempDirExists: bool, elementIndex: int): (r: Option<string>)
      reads this
      ensures r.Some? <==> tempDirExists && 0 <= elementIndex < |listImages|
      ensures r.Some? && Valid() ==> r.value in listImages
      ensures r.Some? && elementIndex in mapImages ==> r.value == mapImages[elementIndex]
      ensures r.Some? && elementIndex !in mapImages ==> r.value == listImages[elementIndex]
    {
      if !tempDirExists || |listImages| == 0 || !(0 <= elementIndex < |listImages|) then None
      else if elementIndex in mapImages then Some(mapImages[elementIndex])
      else Some(listImages[elementIndex])
    }

    /**
     * Records a series answer: when the series tree is attached and the
     * series has no entry yet, its study, description and modality are
     * stored; an existing entry is kept.
     */
    method FoundSerie(widgetAttached: bool, id: string, studyInstanceUID: string, description: string, seriesModality: string)
      modifies this`seriesData
      ensures !widgetAttached || id in old(seriesData) ==> seriesData == old(seriesData)
      ensures widgetAttached && id !in old(seriesData) ==>
        seriesData == old(seriesData)[id := SeriesEntry(studyInstanceUID, description, seriesModality)]
      ensures forall k :: k in old(seriesData) ==> k in seriesData && seriesData[k] == old(seriesData)[k]
    {
      if widgetAttached && id !in seriesData {
        seriesData := seriesData[id := SeriesEntry(studyInstanceUID, description, seriesModality)];
      }
    }

    /**
     * Records a study answer: when the study tree is attached, the patient's
     * entry is looked up (an absent patient gets an empty entry). A non-empty
     * entry gains the study with its description unless it is already known,
     * in which case nothing changes; a new study triggers the series query,
     * reported as `seriesQueried`.
     */
    method FoundStudy(widgetAttached: bool, patientID: string, uid: string, description: string) returns (seriesQueried: bool)
      modifies this`patientData
      ensures !widgetAttached ==> patientData == old(patientData) && !seriesQueried
      ensures widgetAttached ==> patientID in patientData
      ensures widgetAttached && (patientID !in old(patientData) || old(patientData)[patientID].IsEmpty()) ==>
        patientData == old(patientData)[patientID := EMPTY_ENTRY] && !seriesQueried
      ensures widgetAttached && patientID in old(patientData) && !old(patientData)[patientID].IsEmpty() ==>
        var e := old(patientData)[patientID];
        && seriesQueried == (uid !in StudiesOf(e))
        && patientData == old(patientData)[patientID := e.(studies := Some(
             if uid in StudiesOf(e) then StudiesOf(e) else StudiesOf(e)[uid := description]))]
    {
      seriesQueried := false;
      if !widgetAttached {
        return;
      }
      var e := if patientID in patientData then patientData[patientID] else EMPTY_ENTRY;
      if e.IsEmpty() {
        patientData := patientData[patientID := e];
        return;
      }
      var studies := StudiesOf(e);
      if uid !in studies {
        studies := studies[uid := description];
        seriesQueried := true;
      }
      patientData := patientData[patientID := e.(studies := Some(studies))];
    }

    /**
     * Records a selected patient: an absent or empty entry is filled with the
     * name, the birth date converted from "dd/MM/yyyy" to "yyyyMMdd", and the
     * gender; a non-empty entry is kept.
     */
    method AddPatientDataToFetch(patientID: string, name: string, birthDate: string, gender: string)
      modifies this`patientData
      ensures var e := if patientID in old(patientData) then old(patientData)[patientID] else EMPTY_ENTRY;
        patientData == old(patientData)[patientID := FillEntry(e, name, birthDate, gender)]
      ensures patientID in old(patientData) && !old(patientData)[patientID].IsEmpty() ==> patientData == old(patientData)
      ensures patientID in patientData && !patientData[patientID].IsEmpty()
    {
      var e := if patientID in patientData then patientData[patientID] else EMPTY_ENTRY;
      patientData := patientData[patientID := FillEntry(e, name, birthDate, gender)];
    }

    method ClearPatientDataToFetch()
      modifies this`patientData
      ensures patientData == map[]
    {
      patientData := map[];
    }

    method ClearSeriesDataToFetch()
      modifies this`seriesData
      ensures seriesData == map[]
    {
      seriesData := map[];
    }

    /** Makes the server at `index` of the server list current; an index outside the list changes nothing. */
    method SetCurrentPacs(index: int, servers: seq<Server>)
      modifies this`currentPacs
      ensures 0 <= index < |servers| ==> currentPacs == servers[index]
      ensures !(0 <= index < |servers|) ==> currentPacs == old(currentPacs)
    {
      if 0 <= index < |servers| {
        currentPacs := servers[index];
      }
    }

    /** The series whose UID is selected, with their data unchanged. */
    method GetSeriesToFetch(seriesUIDs: seq<string>) returns (r: map<string, SeriesEntry>)
      ensures r == SeriesToFetch(seriesData, Elements(seriesUIDs))
      ensures r.Keys == seriesData.Keys * Elements(seriesUIDs)
      ensures forall k :: k in r ==> r[k] == seriesData[k]
    {
      r := map[];
      var keys := seriesData.Keys;
      while keys != {}
        invariant keys <= seriesData.Keys
        invariant r == SeriesToFetch(seriesData, Elements(seriesUIDs) - keys)
        decreases |keys|
      {
        ghost var w := Pick(keys);
        var key :| key in keys;
        if key in seriesUIDs {
          r := r[key := seriesData[key]];
        }
        keys := keys - {key};
      }
      assert Elements(seriesUIDs) - {} == Elements(seriesUIDs);
    }

    /** The studies of `studies` whose UID is in `studyUIDs`, by a scan of the study keys. */
    static method SelectedStudies(studies: map<string, string>, studyUIDs: seq<string>) returns (r: map<string, string>)
      ensures r == SelectStudies(studies, Elements(studyUIDs))
    {
      r := map[];
      var keys := studies.Keys;
      while keys != {}
        invariant keys <= studies.Keys
        invariant r == SelectStudies(studies, Elements(studyUIDs) - keys)
        decreases |keys|
      {
        ghost var w := Pick(keys);
        var key :| key in keys;
        if key in studyUIDs {
          r := r[key := studies[key]];
        }
        keys := keys - {key};
      }
      assert Elements(studyUIDs) - {} == Elements(studyUIDs);
    }

    /**
     * The patients with at least one study among `studyUIDs`, each with its
     * name, birth date and gender and only those studies (PatientsToFetchSpec).
     * The patient data itself is left as it is.
     */
    method GetPatientsToFetch(studyUIDs: seq<string>) returns (r: map<string, PatientEntry>)
      ensures r == PatientsToFetch(patientData, Elements(studyUIDs))
    {
      r := map[];
      var keys := patientData.Keys;
      while keys != {}
        invariant keys <= patientData.Keys
        invariant r == PatientsToFetch(patientData - keys, Elements(studyUIDs))
        decreases |keys|
      {
        ghost var w := Pick(keys);
        var key :| key in keys;
        var entry := patientData[key];
        var selected := SelectedStudies(StudiesOf(entry), studyUIDs);
        PatientsToFetchAdd(patientData, keys, key, Elements(studyUIDs));
        if selected != map[] {
          r := r[key := PatientEntry(entry.name, entry.birthDate, entry.gender, Some(selected))];
        }
        keys := keys - {key};
      }
      assert patientData - {} == patientData;
    }

    /**
     * What fetchFinished carries: nothing at the undefined level; all data
     * at the patient level; the patients of the selected studies and all
     * series at the study level; the selected series and the patients of
     * their UIDs and studies at the series level; empty data at any other
     * level.
     */
    method FetchSelectedData() returns (r: Option<(map<string, PatientEntry>, map<string, SeriesEntry>)>)
      ensures queryLevel == UNDEFINED_LEVEL ==> r == None
      ensures queryLevel == "PATIENT" ==> r == Some((patientData, seriesData))
      ensures queryLevel == "STUDY" ==> r == Some((PatientsToFetch(patientData, Elements(dataToImport)), seriesData))
      ensures queryLevel == "SERIES" ==>
        var se := SeriesToFetch(seriesData, Elements(dataToImport));
        r == Some((PatientsToFetch(patientData, SeriesStudyKeys(se)), se))
      ensures queryLevel !in {UNDEFINED_LEVEL, "PATIENT", "STUDY", "SERIES"} ==> r == Some((map[], map[]))
    {
      if queryLevel == UNDEFINED_LEVEL {
        return None;
      }
      var ptData: map<string, PatientEntry> := map[];
      var seData: map<string, SeriesEntry> := map[];
      if queryLevel == "PATIENT" {
        ptData, seData := patientData, seriesData;
      } else if queryLevel == "STUDY" {
        ptData := GetPatientsToFetch(dataToImport);
        seData := seriesData;
      } else if queryLevel == "SERIES" {
        seData := GetSeriesToFetch(dataToImport);
        var studyUIDs := StudyKeysOf(seData);
        ptData := GetPatientsToFetch(studyUIDs);
      }
      r := Some((ptData, seData));
    }
  }

  // ----- The source as written, where it departs from its evident intent -----

  /** The range check of setCurrentPacs as written: only the upper bound is checked. */
  predicate SetCurrentPacsGuardAsWritten(index: int, size: nat) {
    index < size
  }

  /** The index -1 (an empty server combo box) passes the check although no server is at it. */
  lemma SetCurrentPacsGuardAdmitsNegative()
    ensures SetCurrentPacsGuardAsWritten(-1, 0) && !(0 <= -1 < 0)
  {
  }

  /** The checks of the preview as written: the index only has to be at most the list size. */
  predicate PreviewGuardAsWritten(tempDirExists: bool, size: nat, elementIndex: int) {
    tempDirExists && size != 0 && !(size < elementIndex)
  }

  /** Every non-empty list admits the index one past its end, which the read then indexes. */
  lemma PreviewGuardAdmitsEnd(size: nat)
    requires size > 0
    ensures PreviewGuardAsWritten(true, size, size) && !(size < size)
  {
  }

  /**
   * What the patient scan of getPatientsToFetch does to patientData as
   * written: the non-const lookup of "studies" adds that field to every
   * entry that lacks it (an invalid value, read as no studies).
   */
  function TouchStudiesAsWritten(patientData: map<string, PatientEntry>): map<string, PatientEntry> {
    map p | p in patientData :: patientData[p].(studies := Some(StudiesOf(patientData[p])))
  }

  /**
   * An empty entry (left by a study answer for a patient not yet recorded)
   * stops being empty after the scan, so addPatientDataToFetch no longer
   * fills it: the patient is fetched without name, birth date or gender.
   */
  lemma TouchStudiesBlocksFill(name: string, birthDate: string, gender: string)
    ensures var touched := TouchStudiesAsWritten(map["P" := EMPTY_ENTRY]);
      && FillEntry(touched["P"], name, birthDate, gender) == touched["P"]
      && touched["P"].name.None?
      && FillEntry(EMPTY_ENTRY, name, birthDate, gender).name == Some(name)
  {
  }
}

/**
 * The C-FIND identifiers the PACS plugin sends (findPatientMinimalEntries,
 * findStudyMinimalEntries, findSeriesMinimalEntries). Each identifier is a
 * list of override keys "Tag=value" (a bare "Tag" asks for the attribute
 * without a matching value) plus the numeric query level handed to the query
 * routine: 0, 1 and 2 for the PATIENT, STUDY and SERIES levels of the Patient
 * Root Query/Retrieve Information Model (DICOM PS3.4 section C.6.1).
 */
module DcmQueryKeys {
  import opened DcmCommon

  /** The filter map a caller passes in: attribute keyword to matching value. */
  type Filters = map<string, string>

  const PATIENT_LEVEL := 0
  const STUDY_LEVEL := 1
  const SERIES_LEVEL := 2

  /** The QueryRetrieveLevel value for a numeric level. */
  function LevelName(level: int): Option<string> {
    if level == PATIENT_LEVEL then Some("PATIENT")
    else if level == STUDY_LEVEL then Some("STUDY")
    else if level == SERIES_LEVEL then Some("SERIES")
    else None
  }

  /** An identifier to send: its keys and its numeric level. */
  datatype FindQuery = FindQuery(keys: seq<string>, level: int)

  /** The filter value for a keyword, the empty string (universal match) when absent. */
  function FilterValue(filters: Filters, tag: string): string {
    if tag in filters then filters[tag] else ""
  }

  /** The override key "tag=value". */
  function Key(tag: string, value: string): string {
    tag + "=" + value
  }

  /** Position i holds the first '=' of k. */
  ghost predicate FirstEquals(k: string, i: int) {
    0 <= i < |k| && k[i] == '=' && '=' !in k[..i]
  }

  /** A key that holds an '=' has a first one. */
  lemma {:induction false} FindFirstEquals(k: string) returns (i: int)
    requires '=' in k
    ensures FirstEquals(k, i)
  {
    if k[0] == '=' {
      i := 0;
    } else {
      assert '=' in k[1..];
      var j := FindFirstEquals(k[1..]);
      i := j + 1;
      assert k[..i] == [k[0]] + k[1..][..j];
    }
  }

  lemma FirstEqualsExists(k: string)
    requires '=' in k
    ensures exists i :: FirstEquals(k, i)
  {
    var i := FindFirstEquals(k);
  }

  /** The first '=' is at one position only. */
  lemma FirstEqualsUnique(k: string, i: int, j: int)
    requires FirstEquals(k, i) && FirstEquals(k, j)
    ensures i == j
  {
    forall p | 0 <= p < i
      ensures k[p] != '='
    {
      assert k[..i][p] == k[p];
    }
    forall p | 0 <= p < j
      ensures k[p] != '='
    {
      assert k[..j][p] == k[p];
    }
  }

  /**
   * How an override key reads back: the attribute keyword before the first
   * '=' and the value after it, or the whole key and no value when there is
   * no '='.
   */
  ghost function ParseKey(k: string): (string, Option<string>) {
    if '=' in k then
      FirstEqualsExists(k);
      var i :| FirstEquals(k, i);
      (k[..i], Some(k[i + 1..]))
    else (k, None)
  }

  /** A keyword without '=' followed by "=value" reads back as that keyword and that value. */
  lemma KeyRoundTrip(tag: string, value: string)
    requires '=' !in tag
    ensures ParseKey(Key(tag, value)) == (tag, Some(value))
  {
    var k := Key(tag, value);
    assert k[..|tag|] == tag;
    assert k[|tag|] == '=';
    assert k[|tag| + 1..] == value;
    forall i | FirstEquals(k, i)
      ensures i == |tag|
    {
      FirstEqualsUnique(k, i, |tag|);
    }
  }

  /** A bare keyword reads back as itself with no value. */
  lemma BareKeyReadsBack(tag: string)
    requires '=' !in tag
    ensures ParseKey(tag) == (tag, None)
  {
  }

  /** The Patient-level identifier: the patient keys, filtered when the caller gives a value. */
  function FindPatientMinimalEntries(filters: Filters): (q: FindQuery)
    ensures q.level == PATIENT_LEVEL && LevelName(q.level) == Some("PATIENT") && |q.keys| == 4
    ensures ParseKey(q.keys[0]) == ("QueryRetrieveLevel", Some("PATIENT"))
    ensures ParseKey(q.keys[1]) == ("PatientID", Some(FilterValue(filters, "PatientID")))
    ensures ParseKey(q.keys[2]) == ("PatientName", Some(FilterValue(filters, "PatientName")))
    ensures ParseKey(q.keys[3]) == ("PatientSex", Some(FilterValue(filters, "PatientSex")))
  {
    KeyRoundTrip("QueryRetrieveLevel", "PATIENT");
    KeyRoundTrip("PatientID", FilterValue(filters, "PatientID"));
    KeyRoundTrip("PatientName", FilterValue(filters, "PatientName"));
    KeyRoundTrip("PatientSex", FilterValue(filters, "PatientSex"));
    FindQuery([Key("QueryRetrieveLevel", "PATIENT"),
               Key("PatientID", FilterValue(filters, "PatientID")),
               Key("PatientName", FilterValue(filters, "PatientName")),
               Key("PatientSex", FilterValue(filters, "PatientSex"))],
              PATIENT_LEVEL)
  }

  /**
   * The Study-level identifier of one patient: the patient id as the unique
   * key of the level above, the study filters, and the study UID returned.
   */
  function FindStudyMinimalEntries(patientID: string, filters: Filters): (q: FindQuery)
    ensures q.level == STUDY_LEVEL && LevelName(q.level) == Some("STUDY") && |q.keys| == 5
    ensures ParseKey(q.keys[0]) == ("QueryRetrieveLevel", Some("STUDY"))
    ensures ParseKey(q.keys[4]) == ("StudyInstanceUID", None)
  {
    KeyRoundTrip("QueryRetrieveLevel", "STUDY");
    FindQuery([Key("QueryRetrieveLevel", "STUDY"),
               Key("PatientID", patientID),
               Key("StudyDescription", FilterValue(filters, "StudyDescription")),
               Key("StudyDate", FilterValue(filters, "StudyDate")),
               "StudyInstanceUID"],
              STUDY_LEVEL)
  }

  /** The matching keys of the Study level read back as the patient id and the two study filters. */
  lemma FindStudyKeys(patientID: string, filters: Filters)
    ensures var q := FindStudyMinimalEntries(patientID, filters);
      && ParseKey(q.keys[1]) == ("PatientID", Some(patientID))
      && ParseKey(q.keys[2]) == ("StudyDescription", Some(FilterValue(filters, "StudyDescription")))
      && ParseKey(q.keys[3]) == ("StudyDate", Some(FilterValue(filters, "StudyDate")))
  {
    KeyRoundTrip("PatientID", patientID);
    KeyRoundTrip("StudyDescription", FilterValue(filters, "StudyDescription"));
    KeyRoundTrip("StudyDate", FilterValue(filters, "StudyDate"));
  }

  /**
   * The Series-level identifier of one study: the study UID as the unique key
   * of the level above, the series filters, and the series UID returned.
   * The patient id is not sent (a hierarchical search below the study).
   */
  function FindSeriesMinimalEntries(studyInstanceUID: string, filters: Filters): (q: FindQuery)
    ensures q.level == SERIES_LEVEL && LevelName(q.level) == Some("SERIES") && |q.keys| == 5
    ensures ParseKey(q.keys[0]) == ("QueryRetrieveLevel", Some("SERIES"))
    ensures ParseKey(q.keys[4]) == ("SeriesInstanceUID", Some(""))
  {
    KeyRoundTrip("QueryRetrieveLevel", "SERIES");
    KeyRoundTrip("SeriesInstanceUID", "");
    FindQuery([Key("QueryRetrieveLevel", "SERIES"),
               Key("StudyInstanceUID", studyInstanceUID),
               Key("SeriesDescription", FilterValue(filters, "SeriesDescription")),
               Key("Modality", FilterValue(filters, "Modality")),
               Key("SeriesInstanceUID", "")],
              SERIES_LEVEL)
  }

  /** The matching keys of the Series level read back as the study UID and the two series filters. */
  lemma FindSeriesKeys(studyInstanceUID: string, filters: Filters)
    ensures var q := FindSeriesMinimalEntries(studyInstanceUID, filters);
      && ParseKey(q.keys[1]) == ("StudyInstanceUID", Some(studyInstanceUID))
      && ParseKey(q.keys[2]) == ("SeriesDescription", Some(FilterValue(filters, "SeriesDescription")))
      && ParseKey(q.keys[3]) == ("Modality", Some(FilterValue(filters, "Modality")))
  {
    KeyRoundTrip("StudyInstanceUID", studyInstanceUID);
    KeyRoundTrip("SeriesDescription", FilterValue(filters, "SeriesDescription"));
    KeyRoundTrip("Modality", FilterValue(filters, "Modality"));
  }
}

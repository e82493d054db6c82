/**
 * The query filters the QtDcm widget hands to the manager: the wildcard
 * wrapping of the patient name and of the study and series descriptions, the
 * modality and gender chosen in the combo boxes, and the study date range,
 * whose two ends are kept in order whenever either date edit changes.
 *
 * Which search a handler triggers is reported as its result; the searches
 * themselves and the tree widgets are not part of this model.
 */
module DcmWidget {
  import opened DcmCommon
  import opened DcmDates
  import opened DcmManager

  /** Where the widget reads from: a PACS or a DICOMDIR on a medium. */
  datatype Mode = PacsMode | CdMode

  /** The entries of the modality combo box; any other index is Other. */
  datatype ModalityChoice = AllModalities | MrModality | CtModality | PetModality | OtherModality(index: int)

  /** The entries of the gender combo box; any other index is Other. */
  datatype GenderChoice = AllGender | MGender | FGender | OtherGender(index: int)

  /** A free-text filter: empty matches anything, otherwise the text anywhere in the value. */
  function WildcardFilter(text: string): (f: string)
    ensures text == "" <==> f == ""
    ensures text != "" ==> |f| == |text| + 2 && f[0] == '*' && f[|f| - 1] == '*' && f[1..|f| - 1] == text
  {
    if text == "" then "" else "*" + text + "*"
  }

  /** The text a filter was made from. */
  function FilterText(f: string): string {
    if |f| < 2 then "" else f[1..|f| - 1]
  }

  /** The text can be read back from its filter, so distinct texts give distinct filters. */
  lemma WildcardFilterRoundTrip(text: string)
    ensures FilterText(WildcardFilter(text)) == text
  {
  }

  lemma WildcardFilterInjective(a: string, b: string)
    requires WildcardFilter(a) == WildcardFilter(b)
    ensures a == b
  {
    WildcardFilterRoundTrip(a);
    WildcardFilterRoundTrip(b);
  }

  /** The modality filter a combo entry sets; no value for an unsupported entry. */
  function ModalityFilter(c: ModalityChoice): (r: Option<string>)
    ensures r.None? <==> c.OtherModality?
    ensures r == Some("") <==> c == AllModalities
  {
    match c
    case AllModalities => Some("")
    case MrModality => Some("MR")
    case CtModality => Some("CT")
    case PetModality => Some("PET")
    case OtherModality(_) => None
  }

  /** The gender filter a combo entry sets; no value for an unsupported entry. */
  function GenderFilter(c: GenderChoice): (r: Option<string>)
    ensures r.None? <==> c.OtherGender?
    ensures r == Some("*") <==> c == AllGender
  {
    match c
    case AllGender => Some("*")
    case MGender => Some("M")
    case FGender => Some("F")
    case OtherGender(_) => None
  }

  /** Distinct supported entries set distinct filters. */
  lemma ChoiceFiltersInjective(a: ModalityChoice, b: ModalityChoice, g: GenderChoice, h: GenderChoice)
    ensures ModalityFilter(a).Some? && ModalityFilter(a) == ModalityFilter(b) ==> a == b
    ensures GenderFilter(g).Some? && GenderFilter(g) == GenderFilter(h) ==> g == h
  {
  }

  /** The start date kept when the start edit changes to `newStart`: the earlier of it and the end date. */
  function ClampStart(newStart: Date, end: Date): (s: Date)
    ensures NotAfter(s, end) && NotAfter(s, newStart)
    ensures s == newStart || s == end
  {
    BeforeIsStrict(newStart, end);
    if Before(end, newStart) then end else newStart
  }

  /** The end date kept when the end edit changes to `newEnd`: the later of it and the start date. */
  function ClampEnd(start: Date, newEnd: Date): (e: Date)
    ensures NotAfter(start, e) && NotAfter(newEnd, e)
    ensures e == newEnd || e == start
  {
    BeforeIsStrict(newEnd, start);
    if Before(newEnd, start) then start else newEnd
  }

  /** A date already in order with the other end is kept as chosen. */
  lemma ClampKeepsOrderedDates(a: Date, b: Date)
    requires NotAfter(a, b)
    ensures ClampStart(a, b) == a && ClampEnd(a, b) == b
  {
  }

  /**
   * QDate::addYears: the same month and day `n` years on, the day moved back
   * to the last of the month when it does not exist that year (29 February),
   * and the missing year 0 skipped; an invalid date stays the null date.
   */
  function AddYears(d: Date, n: int): Date {
    if !IsValid(d) then NULL_DATE
    else
      var y := d.year + n;
      var year := if d.year > 0 && y <= 0 then y - 1 else if d.year < 0 && y >= 0 then y + 1 else y;
      var day := if d.day <= DaysInMonth(year, d.month) then d.day else DaysInMonth(year, d.month);
      Date(year, d.month, day)
  }

  /** Going back a number of years from a valid date gives an earlier valid date. */
  lemma AddYearsBack(d: Date, n: int)
    requires IsValid(d) && n < 0
    ensures IsValid(AddYears(d, n)) && Before(AddYears(d, n), d)
  {
  }

  class QtDcm {
    const manager: Manager
    var mode: Mode
    /** The dates the two date edits show. */
    var startEdit: Date
    var endEdit: Date
    /** A patient row is selected in the patient tree, a study row in the study tree. */
    var patientSelected: bool
    var studySelected: bool

    /** A date edit only holds valid dates, and the handlers keep the start no later than the end. */
    ghost predicate Valid()
      reads this
    {
      IsValid(startEdit) && IsValid(endEdit) && NotAfter(startEdit, endEdit)
    }

    /**
     * A widget reading from a DICOMDIR, nothing selected, the date range
     * running from a hundred years before `today` to `today`, and the
     * manager's date filters set to that range.
     */
    constructor (manager: Manager, today: Date)
      modifies manager`startDate, manager`endDate
      ensures this.manager == manager && mode == CdMode
      ensures startEdit == AddYears(today, -100) && endEdit == today
      ensures IsValid(today) ==> Before(startEdit, endEdit) && Valid()
      ensures manager.startDate == startEdit && manager.endDate == endEdit
      ensures !patientSelected && !studySelected
    {
      this.manager := manager;
      mode := CdMode;
      startEdit := AddYears(today, -100);
      endEdit := today;
      patientSelected := false;
      studySelected := false;
      new;
      if IsValid(today) {
        AddYearsBack(today, -100);
        BeforeIsStrict(startEdit, endEdit);
      }
      manager.startDate := startEdit;
      manager.endDate := endEdit;
    }

    /**
     * Sets the patient name filter. In PACS mode the patients are searched
     * again, which empties the trees and so drops both selections.
     */
    method OnPatientNameTextChanged(pName: string) returns (searchPatients: bool)
      modifies manager`patientName, this`patientSelected, this`studySelected
      ensures manager.patientName == WildcardFilter(pName)
      ensures searchPatients <==> mode == PacsMode
      ensures searchPatients ==> !patientSelected && !studySelected
      ensures !searchPatients ==> patientSelected == old(patientSelected) && studySelected == old(studySelected)
    {
      manager.patientName := WildcardFilter(pName);
      searchPatients := mode == PacsMode;
      if searchPatients {
        patientSelected, studySelected := false, false;
      }
    }

    /**
     * Sets the study description filter. In PACS mode the study tree is
     * emptied, dropping the study selection, and the studies of the selected
     * patient are searched again.
     */
    method OnStudyDescriptionTextChanged(description: string) returns (searchStudies: bool)
      modifies manager`studyDescription, this`studySelected
      ensures manager.studyDescription == WildcardFilter(description)
      ensures searchStudies <==> patientSelected && mode == PacsMode
      ensures studySelected == (old(studySelected) && mode != PacsMode)
    {
      manager.studyDescription := WildcardFilter(description);
      if mode == PacsMode {
        studySelected := false;
      }
      searchStudies := patientSelected && mode == PacsMode;
    }

    /** Sets the series description filter; the series are searched again in PACS mode. */
    method OnSerieDescriptionTextChanged(description: string) returns (searchSeries: bool)
      modifies manager`serieDescription
      ensures manager.serieDescription == WildcardFilter(description)
      ensures searchSeries <==> mode == PacsMode
    {
      manager.serieDescription := WildcardFilter(description);
      searchSeries := mode == PacsMode;
    }

    /**
     * Sets the modality filter of a supported entry; an unsupported entry
     * keeps the filter. The series are listed again in either case: from the
     * PACS, or from the DICOMDIR when a patient and a study are selected.
     */
    method OnCurrentModalityChanged(c: ModalityChoice) returns (searchSeries: bool)
      modifies manager`modality
      ensures manager.modality == ModalityFilter(c).GetOr(old(manager.modality))
      ensures searchSeries <==> mode == PacsMode || (patientSelected && studySelected)
    {
      searchSeries := mode == PacsMode || (patientSelected && studySelected);
      match c
      case AllModalities => manager.modality := "";
      case MrModality => manager.modality := "MR";
      case CtModality => manager.modality := "CT";
      case PetModality => manager.modality := "PET";
      case OtherModality(_) =>
    }

    /**
     * Sets the gender filter of a supported entry and queries the PACS: the
     * widget switches to PACS mode and the trees are emptied, dropping both
     * selections. An unsupported entry does none of this.
     */
    method OnCurrentGenderChanged(c: GenderChoice) returns (searchPatients: bool)
      modifies manager`patientSex, this`mode, this`patientSelected, this`studySelected
      ensures manager.patientSex == GenderFilter(c).GetOr(old(manager.patientSex))
      ensures searchPatients <==> !c.OtherGender?
      ensures searchPatients ==> mode == PacsMode && !patientSelected && !studySelected
      ensures !searchPatients ==>
        mode == old(mode) && patientSelected == old(patientSelected) && studySelected == old(studySelected)
    {
      searchPatients := true;
      match c {
        case AllGender => manager.patientSex := "*";
        case MGender => manager.patientSex := "M";
        case FGender => manager.patientSex := "F";
        case OtherGender(_) => searchPatients := false;
      }
      if searchPatients {
        mode, patientSelected, studySelected := PacsMode, false, false;
      }
    }

    /**
     * The start edit changed to `startDate`, a valid date as every date an
     * edit holds: a start after the end date is moved back to the end date,
     * and the manager's start date follows the edit. The study tree is
     * emptied, dropping the study selection, and the studies are searched
     * again when a patient is selected in PACS mode.
     */
    method OnStartDateChanged(startDate: Date) returns (searchStudies: bool)
      requires IsValid(startDate)
      modifies this`startEdit, this`studySelected, manager`startDate
      ensures startEdit == ClampStart(startDate, endEdit)
      ensures NotAfter(startEdit, endEdit)
      ensures IsValid(endEdit) ==> Valid()
      ensures manager.startDate == startEdit && !studySelected
      ensures searchStudies <==> patientSelected && mode == PacsMode
    {
      startEdit := startDate;
      if Before(endEdit, startDate) {
        startEdit := endEdit;
      }
      manager.startDate := startEdit;
      studySelected := false;
      searchStudies := patientSelected && mode == PacsMode;
    }

    /**
     * The end edit changed to `endDate`, a valid date as every date an edit
     * holds: an end before the start date is moved up to the start date,
     * and the manager's end date follows the edit. The study tree is
     * emptied, dropping the study selection, and the studies are searched
     * again when a patient is selected in PACS mode.
     */
    method OnEndDateChanged(endDate: Date) returns (searchStudies: bool)
      requires IsValid(endDate)
      modifies this`endEdit, this`studySelected, manager`endDate
      ensures endEdit == ClampEnd(startEdit, endDate)
      ensures NotAfter(startEdit, endEdit)
      ensures IsValid(startEdit) ==> Valid()
      ensures manager.endDate == endEdit && !studySelected
      ensures searchStudies <==> patientSelected && mode == PacsMode
    {
      endEdit := endDate;
      if Before(endDate, startEdit) {
        endEdit := startEdit;
      }
      manager.endDate := endEdit;
      studySelected := false;
      searchStudies := patientSelected && mode == PacsMode;
    }
  }
}

/** The doctor's patient list: a fixed list of patients, a selection that
    switches to the detail page, and a hidden file input for uploading a
    report for a patient. */
module PatientsList {
  import opened Common
  import opened PatientDetail

  /** The three patients; none of their documents carries a url. */
  const MockPatients: seq<Patient> := [
    Patient("1", "John Doe", 45, "Hypertension", "2024-01-15", "active", "+1 (555) 123-4567",
            [Document("d1", "Blood Test.pdf", "Shows elevated cholesterol levels.", None),
             Document("d2", "ECG Report.pdf", "Normal sinus rhythm detected.", None)]),
    Patient("2", "Mary Smith", 32, "Diabetes Type 2", "2024-01-12", "active", "+1 (555) 234-5678",
            [Document("d3", "Glucose Report.pdf", "Blood sugar levels are stable.", None)]),
    Patient("3", "Robert Johnson", 58, "Heart Disease", "2024-01-10", "critical", "+1 (555) 345-6789", [])
  ]

  /** `find`: the first patient with that id, if any. */
  function Find(patients: seq<Patient>, id: string): (r: Option<Patient>)
    ensures r.None? <==> forall i :: 0 <= i < |patients| ==> patients[i].id != id
    ensures r.Some? ==> exists i :: 0 <= i < |patients| && patients[i] == r.value
                          && r.value.id == id
                          && forall j :: 0 <= j < i ==> patients[j].id != id
    decreases |patients|
  {
    if patients == [] then None
    else if patients[0].id == id then Some(patients[0])
    else
      var r := Find(patients[1..], id);
      if r.Some? then
        ghost var i :| 0 <= i < |patients[1..]| && patients[1..][i] == r.value
                       && r.value.id == id && forall j :: 0 <= j < i ==> patients[1..][j].id != id;
        assert patients[i + 1] == r.value;
        r
      else r
  }

  /** What the component draws. */
  datatype Screen = ListScreen | DetailScreen(patient: Patient) | NothingDrawn

  /** `if (selectedPatientId)`: no selection, or the empty id, draws the
      list; a selected id draws that patient's page, or nothing when no
      patient has that id. */
  function Render(selected: Option<string>): (s: Screen)
    ensures s == ListScreen <==> selected.None? || selected.value == ""
    ensures s.DetailScreen? ==> s.patient in MockPatients && Some(s.patient.id) == selected
    ensures s == NothingDrawn <==> selected.Some? && selected.value != ""
                                   && forall p :: p in MockPatients ==> p.id != selected.value
  {
    if selected.None? || selected.value == "" then ListScreen
    else match Find(MockPatients, selected.value)
      case Some(p) => DetailScreen(p)
      case None => NothingDrawn
  }

  /** Every patient's View button leads to that patient's own page. */
  lemma ViewOpensThatPatient(p: Patient)
    requires p in MockPatients
    ensures Render(Some(p.id)) == DetailScreen(p)
  {
    var ps := MockPatients;
    assert p == ps[0] || p == ps[1] || p == ps[2];
  }

  /** The notice raised after a file is chosen: only with at least one file
      and a non-empty recorded patient id. */
  function UploadNotice(files: Option<seq<string>>, patientId: Option<string>): (r: Option<string>)
    ensures r.Some? <==> files.Some? && |files.value| > 0 && patientId.Some? && patientId.value != ""
    ensures r.Some? ==> r.value == "Report uploaded for patient ID: " + patientId.value
  {
    if files.Some? && |files.value| > 0 && patientId.Some? && patientId.value != "" then
      Some("Report uploaded for patient ID: " + patientId.value)
    else None
  }

  /** The list. `inputPatientId` is the patient id recorded on the hidden
      file input and `inputValue` that input's current value. */
  class PatientsList {
    var selectedPatientId: Option<string>
    var inputPatientId: Option<string>
    var inputValue: string

    constructor ()
      ensures selectedPatientId == None && Render(selectedPatientId) == ListScreen
      ensures inputPatientId == None && inputValue == ""
    {
      selectedPatientId, inputPatientId, inputValue := None, None, "";
    }

    /** A patient's View button. */
    method View(p: Patient)
      requires p in MockPatients
      modifies this
      ensures selectedPatientId == Some(p.id)
      ensures Render(selectedPatientId) == DetailScreen(p)
      ensures inputPatientId == old(inputPatientId) && inputValue == old(inputValue)
    {
      selectedPatientId := Some(p.id);
      ViewOpensThatPatient(p);
    }

    /** The Back button of whichever page is drawn: on the list it calls the
        outer `onBack`; on a patient's page it clears the selection, which
        returns to the list and not further. */
    method Back() returns (leaves: bool)
      requires Render(selectedPatientId) != NothingDrawn
      modifies this
      ensures leaves <==> old(Render(selectedPatientId)) == ListScreen
      ensures !leaves ==> selectedPatientId == None && Render(selectedPatientId) == ListScreen
      ensures leaves ==> selectedPatientId == old(selectedPatientId)
      ensures inputPatientId == old(inputPatientId) && inputValue == old(inputValue)
    {
      if selectedPatientId.None? || selectedPatientId.value == "" {
        leaves := true;
      } else {
        selectedPatientId := None;
        leaves := false;
      }
    }

    /** "Upload Report": records the patient id on the file input and opens
        the file dialog. */
    method HandleUploadClick(patientId: string)
      modifies this
      ensures inputPatientId == Some(patientId)
      ensures selectedPatientId == old(selectedPatientId) && inputValue == old(inputValue)
    {
      inputPatientId := Some(patientId);
    }

    /** The file dialog closed: a notice when files were chosen for a
        recorded patient; the input is cleared in every case. */
    method HandleFileChange(files: Option<seq<string>>) returns (notice: Option<string>)
      modifies this
      ensures notice == UploadNotice(files, inputPatientId)
      ensures inputValue == ""
      ensures selectedPatientId == old(selectedPatientId) && inputPatientId == old(inputPatientId)
    {
      if files.Some? && |files.value| > 0 && inputPatientId.Some? && inputPatientId.value != "" {
        notice := Some("Report uploaded for patient ID: " + inputPatientId.value);
      } else {
        notice := None;
      }
      inputValue := "";
    }
  }
}

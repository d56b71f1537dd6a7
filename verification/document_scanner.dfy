/** The document scanner: a three-step wizard (scan, crop, confirm) that
    ends by handing a new document record to its parent. */
module DocumentScanner {
  import opened Common

  datatype ScanStep = Scan | Crop | Confirm

  /** The position of a step in `["scan", "crop", "confirm"]`. */
  function Position(s: ScanStep): nat {
    match s
    case Scan => 0
    case Crop => 1
    case Confirm => 2
  }

  /** How the indicator draws the circle at `index` for the current step. */
  datatype Mark = Active | Done | Ahead

  /** The indicator marks exactly the steps before the current one as done,
      the current one as active, and the rest as ahead. */
  function IndicatorMark(current: ScanStep, index: nat): (m: Mark)
    ensures index < 3 ==> (m == Active <==> index == Position(current))
    ensures index < 3 ==> (m == Done <==> index < Position(current))
    ensures index < 3 ==> (m == Ahead <==> index > Position(current))
  {
    var steps := [Scan, Crop, Confirm];
    if index < |steps| && steps[index] == current then Active
    else if index < Position(current) then Done
    else Ahead
  }

  /** A file picked in the upload dialog, if any. */
  datatype File = File(name: string)

  /** The buttons and inputs that move the wizard. */
  datatype Action = Capture | FileSelected(file: Option<File>) | CropDocument | Retake | BackToCrop | Upload

  /** The controls each step shows. */
  predicate Offered(step: ScanStep, a: Action) {
    match step
    case Scan => a == Capture || a.FileSelected?
    case Crop => a == CropDocument || a == Retake
    case Confirm => a == BackToCrop || a == Upload
  }

  /** The step after an action; uploading hands the document over and
      leaves the step as it is. Through the controls a step shows, the
      wizard moves at most one step at a time, and `confirm` is entered only
      from `crop`: there is no way straight from `scan` to `confirm`. A file
      dialog closed without a file leaves the wizard where it was. */
  function Next(step: ScanStep, a: Action): (r: ScanStep)
    ensures Offered(step, a) ==> Position(r) <= Position(step) + 1 && Position(step) <= Position(r) + 1
    ensures Offered(step, a) && r == Confirm && step != Confirm ==> step == Crop && a == CropDocument
    ensures a == FileSelected(None) ==> r == step
  {
    match a
    case Capture => Crop
    case FileSelected(f) => if f.Some? then Crop else step
    case CropDocument => Confirm
    case Retake => Scan
    case BackToCrop => Crop
    case Upload => step
  }

  /** The record handed to `onComplete`. */
  datatype ScannedDocument = ScannedDocument(id: string, name: string, docType: string, date: string)

  /** `handleConfirm`'s record: an empty name falls back to "Medical Report",
      and the type is always "Blood Test". `stamp` and `today` are the clock
      readings. */
  function NewDocument(documentName: string, stamp: string, today: string): (d: ScannedDocument)
    ensures d.name == (if documentName == "" then "Medical Report" else documentName)
    ensures d.name != "" && d.docType == "Blood Test"
    ensures d.id == stamp && d.date == today
  {
    ScannedDocument(stamp, if documentName != "" then documentName else "Medical Report", "Blood Test", today)
  }

  /** The scanner. */
  class DocumentScanner {
    var currentStep: ScanStep
    var documentName: string
    var preview: Option<string>

    constructor ()
      ensures currentStep == Scan && documentName == "" && preview == None
    {
      currentStep, documentName, preview := Scan, "", None;
    }

    /** "Capture". */
    method HandleScan()
      modifies this
      ensures currentStep == Next(old(currentStep), Capture) == Crop
      ensures documentName == old(documentName) && preview == old(preview)
    {
      currentStep := Crop;
    }

    /** "Crop Document". */
    method HandleCrop()
      modifies this
      ensures currentStep == Next(old(currentStep), CropDocument) == Confirm
      ensures documentName == old(documentName) && preview == old(preview)
    {
      currentStep := Confirm;
    }

    /** "Retake". */
    method HandleRetake()
      modifies this
      ensures currentStep == Next(old(currentStep), Retake) == Scan
      ensures documentName == old(documentName) && preview == old(preview)
    {
      currentStep := Scan;
    }

    /** "Back" on the confirm step. */
    method HandleBack()
      modifies this
      ensures currentStep == Next(old(currentStep), BackToCrop) == Crop
      ensures documentName == old(documentName) && preview == old(preview)
    {
      currentStep := Crop;
    }

    /** The file input; `objectUrl` is the URL the browser makes for the file. */
    method HandleFileSelect(file: Option<File>, objectUrl: string)
      modifies this
      ensures currentStep == Next(old(currentStep), FileSelected(file))
      ensures file.Some? ==> preview == Some(objectUrl) && currentStep == Crop
      ensures file.None? ==> preview == old(preview) && currentStep == old(currentStep)
      ensures documentName == old(documentName)
    {
      if file.Some? {
        preview := Some(objectUrl);
        currentStep := Crop;
      }
    }

    method SetDocumentName(name: string)
      modifies this
      ensures documentName == name && currentStep == old(currentStep) && preview == old(preview)
    {
      documentName := name;
    }

    /** "Upload Report": builds the record for `onComplete`. */
    method HandleConfirm(stamp: string, today: string) returns (d: ScannedDocument)
      ensures d == NewDocument(documentName, stamp, today)
      ensures d.name != "" && d.docType == "Blood Test"
    {
      var name := if documentName != "" then documentName else "Medical Report";
      d := ScannedDocument(stamp, name, "Blood Test", today);
    }
  }
}

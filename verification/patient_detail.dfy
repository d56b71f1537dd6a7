/** A patient's detail page: the patient's documents, each with a Download
    and a View button, and an embedded viewer for the viewed document. */
module PatientDetail {
  import opened Common

  /** A document; `url` may be absent. */
  datatype Document = Document(id: string, name: string, summary: string, url: Option<string>)

  datatype Patient = Patient(
    id: string, name: string, age: int, condition: string, lastVisit: string,
    status: string, phone: string, documents: seq<Document>)

  /** `if (doc.url)`: a url is usable only when present and non-empty. */
  predicate HasFile(doc: Document) {
    doc.url.Some? && doc.url.value != ""
  }

  /** What the Download button does: a link to the file named after the
      document, or an alert when there is no file. */
  datatype DownloadOutcome = DownloadLink(href: string, fileName: string) | NoFileAlert(message: string)

  function Download(doc: Document): (o: DownloadOutcome)
    ensures o.DownloadLink? <==> HasFile(doc)
    ensures o.DownloadLink? ==> Some(o.href) == doc.url && o.fileName == doc.name
    ensures o.NoFileAlert? ==> o.message == "No file available for download."
  {
    if HasFile(doc) then DownloadLink(doc.url.value, doc.name)
    else NoFileAlert("No file available for download.")
  }

  /** The page. */
  class PatientDetail {
    const patient: Patient
    var viewDocUrl: Option<string>

    constructor (patient: Patient)
      ensures this.patient == patient && viewDocUrl == None && !ViewerOpen()
    {
      this.patient := patient;
      viewDocUrl := None;
    }

    /** The viewer is drawn while `viewDocUrl` is truthy. */
    predicate ViewerOpen()
      reads this
    {
      viewDocUrl.Some? && viewDocUrl.value != ""
    }

    /** The Download button: it leaves the page's state alone. */
    method HandleDownload(doc: Document) returns (o: DownloadOutcome)
      ensures o == Download(doc)
    {
      if doc.url.Some? && doc.url.value != "" {
        o := DownloadLink(doc.url.value, doc.name);
      } else {
        o := NoFileAlert("No file available for download.");
      }
    }

    /** The View button: a usable url is shown in the viewer; without one an
        alert is raised and whatever was shown stays. */
    method HandleView(doc: Document) returns (alert: Option<string>)
      modifies this
      ensures HasFile(doc) ==> viewDocUrl == doc.url && ViewerOpen() && alert == None
      ensures !HasFile(doc) ==> viewDocUrl == old(viewDocUrl) && alert == Some("No file available to view.")
    {
      if doc.url.Some? && doc.url.value != "" {
        viewDocUrl := doc.url;
        alert := None;
      } else {
        alert := Some("No file available to view.");
      }
    }

    /** The viewer's Close button. */
    method Close()
      modifies this
      ensures viewDocUrl == None && !ViewerOpen()
    {
      viewDocUrl := None;
    }
  }
}

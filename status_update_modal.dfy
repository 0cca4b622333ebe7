/** The admin console's status form: the chosen status and the note, the
    fixed list of statuses it offers, and the submit handler. */
module StatusUpdateModal {
  import opened Common
  import opened Records

  /** The statuses the select offers, in display order. */
  const ValidStatuses: seq<string> := ["pending", "approved", "rejected", "disbursed"]

  /** What `onSubmit` is called with. */
  datatype StatusRequest = StatusRequest(applicationId: Option<string>, newStatus: string, note: string)

  /** An option's label: the first character upper-cased, then the rest. */
  function OptionLabel(status: string): (text: string)
    ensures |text| == |status|
    ensures status != [] ==> text[0] == ToUpperChar(status[0]) && text[1..] == status[1..]
  {
    if status == [] then [] else [ToUpperChar(status[0])] + status[1..]
  }

  /** The labels the select shows, one per status. */
  function OptionLabels(): (labels: seq<string>)
    ensures |labels| == |ValidStatuses|
    ensures forall i :: 0 <= i < |labels| ==> labels[i] == OptionLabel(ValidStatuses[i])
  {
    seq(|ValidStatuses|, i requires 0 <= i < |ValidStatuses| => OptionLabel(ValidStatuses[i]))
  }

  lemma OptionLabelsText()
    ensures OptionLabels() == ["Pending", "Approved", "Rejected", "Disbursed"]
  {
    assert ToUpperChar('p') == 'P' && ToUpperChar('a') == 'A';
    assert ToUpperChar('r') == 'R' && ToUpperChar('d') == 'D';
    assert OptionLabel("pending") == "Pending";
    assert OptionLabel("approved") == "Approved";
    assert OptionLabel("rejected") == "Rejected";
    assert OptionLabel("disbursed") == "Disbursed";
  }

  class Form {
    const application: LoanRecord
    var newStatus: string
    var note: string

    /** `useState(application.status || 'pending')` and an empty note. */
    constructor (application: LoanRecord)
      ensures this.application == application
      ensures newStatus == if Truthy(application.status) then application.status.value else "pending"
      ensures note == ""
    {
      this.application := application;
      newStatus := OrElse(application.status, "pending");
      note := "";
    }

    method ChangeStatus(value: string)
      modifies this`newStatus
      ensures newStatus == value
    {
      newStatus := value;
    }

    method ChangeNote(value: string)
      modifies this`note
      ensures note == value
    {
      note := value;
    }

    /** Submit forwards the three values unchanged; nothing is checked here. */
    method HandleSubmit() returns (request: StatusRequest)
      ensures request.applicationId == application.id
      ensures request.newStatus == newStatus && request.note == note
    {
      request := StatusRequest(application.id, newStatus, note);
    }

    /** The select, the note and both buttons are disabled while loading. */
    predicate ControlsDisabled(isLoading: bool) {
      isLoading
    }
  }

  /** A record whose status is not one of the four starts the form on a
      value the select does not list, and submitting sends it as is. */
  method OffListStatusScenario(id: string) returns (request: StatusRequest)
    ensures request.newStatus == "fully_paid" && request.newStatus !in ValidStatuses
  {
    var form := new Form(LoanRecord(Some(id), None, None, Some("fully_paid"), None, None));
    request := form.HandleSubmit();
  }
}

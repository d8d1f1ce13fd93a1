/**
 * The sermons page: a list with an add/edit form whose mode is "closed",
 * "creating" or "editing a sermon". Calls into the sermon store are
 * external; their outcome is an input.
 */
module SermonPage {
  import opened Wrappers
  import opened Records
  import opened Feedback

  /** What the sermon form submits. */
  datatype SermonInput = SermonInput(
    title: string,
    speaker_name: string,
    sermon_date: string,
    youtube_url: string,
    series_name: Option<string>)

  /** The sermon-store call a submission makes. */
  datatype SermonCall = UpdateSermon(id: string, data: SermonInput) | CreateSermon(data: SermonInput)

  /** The form's mode. */
  datatype FormMode = Closed | Creating | Editing(sermon: Sermon)

  const UpdatedMessage := "Sermon updated successfully"
  const CreatedMessage := "Sermon created successfully"
  const SaveFailedMessage := "Failed to save sermon"

  /** Editing a sermon updates that sermon; otherwise the data creates a new one. */
  function SaveCall(editing: Option<Sermon>, data: SermonInput): (c: SermonCall)
    ensures c.UpdateSermon? <==> editing.Some?
    ensures c.UpdateSermon? ==> c.id == editing.value.id
    ensures c.data == data
  {
    if editing.Some? then UpdateSermon(editing.value.id, data) else CreateSermon(data)
  }

  /** The toast after a save: one success message per mode, one failure message for both. */
  function SaveToast(editing: Option<Sermon>, result: Settled): (t: Toast)
    ensures t.SuccessToast? <==> result.Resolved?
    ensures result.Resolved? ==> t.text == if editing.Some? then UpdatedMessage else CreatedMessage
    ensures result.Rejected? ==> t == ErrorToast(SaveFailedMessage)
  {
    if result.Rejected? then ErrorToast(SaveFailedMessage)
    else if editing.Some? then SuccessToast(UpdatedMessage) else SuccessToast(CreatedMessage)
  }

  /** Deleting a sermon: only after confirmation. */
  function DeleteSermon(id: string, confirmed: bool, result: Settled): (r: DeleteEffects)
    ensures r.deleted == (if confirmed then Some(id) else None)
    ensures !confirmed ==> r.toast.None?
  {
    ConfirmedDelete(id, confirmed, result, "Sermon deleted successfully", "Failed to delete sermon")
  }

  /** What the page renders. */
  datatype PageView = Spinner | Listing(formOpen: bool, formSermon: Option<Sermon>, formBusy: bool)

  /** While the list loads only the spinner shows; afterwards the form shows in the page's mode. */
  function View(listLoading: bool, mode: FormMode, isLoading: bool): (v: PageView)
    ensures v == Spinner <==> listLoading
    ensures v.Listing? ==> (v.formOpen <==> mode != Closed)
    ensures v.Listing? ==> (v.formSermon.Some? <==> mode.Editing?)
    ensures v.Listing? && mode.Editing? ==> v.formSermon.value == mode.sermon
    ensures v.Listing? ==> v.formBusy == isLoading
  {
    if listLoading then Spinner
    else Listing(mode != Closed, if mode.Editing? then Some(mode.sermon) else None, isLoading)
  }

  /** The page's local state. */
  class Page {
    var showForm: bool
    var editingSermon: Option<Sermon>
    var isLoading: bool

    /** A sermon is only ever being edited while the form is open. */
    ghost predicate Valid()
      reads this
    {
      editingSermon.Some? ==> showForm
    }

    function Mode(): (m: FormMode)
      reads this
      ensures m == Closed <==> !showForm
      ensures m.Editing? <==> showForm && editingSermon.Some?
      ensures m.Editing? ==> m.sermon == editingSermon.value
    {
      if !showForm then Closed
      else if editingSermon.Some? then Editing(editingSermon.value)
      else Creating
    }

    constructor ()
      ensures Valid() && Mode() == Closed && !isLoading
    {
      showForm, editingSermon, isLoading := false, None, false;
    }

    /** The "Add Sermon" button: opens the form, keeping whatever sermon is being edited. */
    method OpenForm()
      requires Valid()
      modifies this`showForm
      ensures Valid() && showForm && editingSermon == old(editingSermon)
      ensures old(Mode()) == Closed ==> Mode() == Creating
    {
      showForm := true;
    }

    /** A card's "Edit" button. */
    method HandleEdit(sermon: Sermon)
      modifies this`showForm, this`editingSermon
      ensures Valid() && Mode() == Editing(sermon)
    {
      editingSermon := Some(sermon);
      showForm := true;
    }

    /** Closing the form also forgets the sermon being edited. */
    method HandleCloseForm()
      modifies this`showForm, this`editingSermon
      ensures Valid() && Mode() == Closed && editingSermon.None?
    {
      showForm := false;
      editingSermon := None;
    }

    /**
     * Saves the form's data; the store call ends with `result`. Returns the
     * call made, the busy flag while it was awaited, and the toast. Success
     * closes the form; failure leaves the mode as it was.
     */
    method HandleSubmit(data: SermonInput, result: Settled) returns (call: SermonCall, loadingWhileAwaiting: bool, toast: Toast)
      requires Valid()
      modifies this
      ensures Valid()
      ensures call == SaveCall(old(editingSermon), data)
      ensures toast == SaveToast(old(editingSermon), result)
      ensures result.Resolved? ==> Mode() == Closed && editingSermon.None?
      ensures result.Rejected? ==> showForm == old(showForm) && editingSermon == old(editingSermon)
      ensures loadingWhileAwaiting && !isLoading
    {
      isLoading := true;
      loadingWhileAwaiting := isLoading;
      if editingSermon.Some? {
        call := UpdateSermon(editingSermon.value.id, data);
      } else {
        call := CreateSermon(data);
      }
      if result.Resolved? {
        toast := if editingSermon.Some? then SuccessToast(UpdatedMessage) else SuccessToast(CreatedMessage);
        HandleCloseForm();
      } else {
        toast := ErrorToast(SaveFailedMessage);
      }
      isLoading := false;
    }
  }
}

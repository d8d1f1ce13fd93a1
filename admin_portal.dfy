/**
 * The administrators' console: a church form in "add" or "edit" mode over
 * the list of churches, delete behind a confirmation, and a password-reset
 * mail to a church's contact address. Calls into the church store and the
 * auth provider are external; their outcome is an input.
 */
module AdminPortal {
  import opened Wrappers
  import opened Js
  import opened Records
  import opened Feedback

  /** The form's content: any subset of a church's fields. */
  datatype ChurchDraft = ChurchDraft(
    id: Option<string>,
    name: Option<string>,
    slug: Option<string>,
    contact_email: Option<string>,
    notion_page_url: Option<string>,
    created_at: Option<string>,
    updated_at: Option<string>)

  /** The blank form: four empty text fields and nothing else. */
  const EmptyDraft := ChurchDraft(None, Some(""), Some(""), Some(""), Some(""), None, None)

  /** A church copied whole into the form. */
  function DraftOf(c: Church): (d: ChurchDraft)
    ensures d.id == Some(c.id) && d.name == Some(c.name) && d.slug == Some(c.slug)
    ensures d.contact_email == Some(c.contact_email) && d.notion_page_url == c.notion_page_url
    ensures d.created_at == Some(c.created_at) && d.updated_at == Some(c.updated_at)
  {
    ChurchDraft(Some(c.id), Some(c.name), Some(c.slug), Some(c.contact_email), c.notion_page_url,
                Some(c.created_at), Some(c.updated_at))
  }

  /** The form's four inputs. */
  datatype ChurchField = NameField | SlugField | EmailField | NotionField

  /** An input's `onChange`: one field replaced, everything else kept. */
  function WithField(d: ChurchDraft, field: ChurchField, value: string): (r: ChurchDraft)
    ensures r.id == d.id && r.created_at == d.created_at && r.updated_at == d.updated_at
    ensures r.name == (if field == NameField then Some(value) else d.name)
    ensures r.slug == (if field == SlugField then Some(value) else d.slug)
    ensures r.contact_email == (if field == EmailField then Some(value) else d.contact_email)
    ensures r.notion_page_url == (if field == NotionField then Some(value) else d.notion_page_url)
  {
    match field
    case NameField => d.(name := Some(value))
    case SlugField => d.(slug := Some(value))
    case EmailField => d.(contact_email := Some(value))
    case NotionField => d.(notion_page_url := Some(value))
  }

  /** What an input displays: `form.field || ''`. */
  function Shown(v: Option<string>): (s: string)
    ensures v.Some? ==> s == v.value
    ensures v.None? ==> s == ""
  {
    OrElse(v, "")
  }

  /** The church-store call a submission makes. */
  datatype ChurchCall = UpdateChurch(id: string, draft: ChurchDraft) | AddChurch(draft: ChurchDraft)

  /** Editing a church updates it by its id; otherwise the form adds a new church. The form goes as it is. */
  function SaveCall(editing: Option<Church>, form: ChurchDraft): (c: ChurchCall)
    ensures c.UpdateChurch? <==> editing.Some?
    ensures c.UpdateChurch? ==> c.id == editing.value.id
    ensures c.draft == form
  {
    if editing.Some? then UpdateChurch(editing.value.id, form) else AddChurch(form)
  }

  function SaveToast(editing: Option<Church>, result: Settled): (t: Toast)
    ensures t.SuccessToast? <==> result.Resolved?
    ensures result.Resolved? ==> t.text == if editing.Some? then "Church updated" else "Church added"
    ensures result.Rejected? ==> t == ErrorToast("Operation failed")
  {
    if result.Rejected? then ErrorToast("Operation failed")
    else if editing.Some? then SuccessToast("Church updated") else SuccessToast("Church added")
  }

  /** Deleting a church: only after confirmation. */
  function DeleteChurch(id: string, confirmed: bool, result: Settled): (r: DeleteEffects)
    ensures r.deleted == (if confirmed then Some(id) else None)
    ensures !confirmed ==> r.toast.None?
  {
    ConfirmedDelete(id, confirmed, result, "Church deleted", "Delete failed")
  }

  /** The address a password reset goes to, and the toast after it. */
  datatype ResetEffects = ResetEffects(email: string, toast: Toast)

  /** A reset mails the church's contact address; a returned error fails it just as a thrown one does. */
  function ResetPassword(church: Church, result: ProviderResult): (r: ResetEffects)
    ensures r.email == church.contact_email
    ensures r.toast.SuccessToast? <==> result == Answered(None)
    ensures r.toast == if result == Answered(None) then SuccessToast("Password reset email sent")
                       else ErrorToast("Failed to send reset email")
  {
    ResetEffects(church.contact_email,
      if result == Answered(None) then SuccessToast("Password reset email sent")
      else ErrorToast("Failed to send reset email"))
  }

  /**
   * An update sent from a form whose id names the church being edited sends
   * that same id in its body, so it never re-keys the row.
   */
  lemma UpdateKeepsKey(editing: Option<Church>, form: ChurchDraft)
    requires form.id == if editing.Some? then Some(editing.value.id) else None
    ensures SaveCall(editing, form).UpdateChurch? ==> SaveCall(editing, form).draft.id == Some(SaveCall(editing, form).id)
    ensures SaveCall(editing, form).AddChurch? ==> SaveCall(editing, form).draft.id.None?
  {
  }

  /** The console's local state. */
  class Portal {
    var editing: Option<Church>
    var form: ChurchDraft

    /** The form carries the id of the church being edited, and no id when adding. */
    ghost predicate Valid()
      reads this
    {
      form.id == if editing.Some? then Some(editing.value.id) else None
    }

    constructor ()
      ensures Valid() && editing.None? && form == EmptyDraft
    {
      editing := None;
      form := EmptyDraft;
    }

    /** A row's "Edit" button. */
    method HandleEdit(church: Church)
      modifies this
      ensures Valid() && editing == Some(church) && form == DraftOf(church)
    {
      editing := Some(church);
      form := DraftOf(church);
    }

    /** "Cancel", and the reset after a successful save. */
    method HandleCancel()
      modifies this
      ensures Valid() && editing.None? && form == EmptyDraft
    {
      editing := None;
      form := EmptyDraft;
    }

    method EditField(field: ChurchField, value: string)
      requires Valid()
      modifies this`form
      ensures Valid() && form == WithField(old(form), field, value)
    {
      form := WithField(form, field, value);
    }

    /** Saves the form; the store call ends with `result`. Success resets the form, failure keeps it. */
    method HandleSubmit(result: Settled) returns (call: ChurchCall, toast: Toast)
      requires Valid()
      modifies this
      ensures Valid()
      ensures call == SaveCall(old(editing), old(form))
      ensures call.UpdateChurch? ==> call.draft.id == Some(call.id)
      ensures toast == SaveToast(old(editing), result)
      ensures result.Resolved? ==> editing.None? && form == EmptyDraft
      ensures result.Rejected? ==> editing == old(editing) && form == old(form)
    {
      if editing.Some? {
        call := UpdateChurch(editing.value.id, form);
      } else {
        call := AddChurch(form);
      }
      if result.Resolved? {
        toast := if editing.Some? then SuccessToast("Church updated") else SuccessToast("Church added");
        HandleCancel();
      } else {
        toast := ErrorToast("Operation failed");
      }
    }
  }
}

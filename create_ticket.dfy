/**
 * Ticket creation (pages/CreateTicket.tsx): the form and its field edits,
 * the attachment list, validation with trimmed required fields, the record
 * handed to the store, and the submit procedure with its optional
 * confirmation email.
 */
module CreateTicket {
  import opened Wrappers
  import opened Text
  import opened Seqs
  import opened Entities
  import opened Gateway

  // ----- The form -----

  datatype TicketForm = TicketForm(title: string, description: string, category_id: string, priority: string)

  /** The form as the page first shows it: every field empty except the priority, `medium`. */
  const InitialForm: TicketForm := TicketForm("", "", "", "medium")

  /** The four fields `handleInputChange` is called with. */
  datatype FormField = Title | Description | CategoryId | Priority {
    /** The field's key in the form object and in the error map. */
    function Key(): string {
      match this
      case Title => "title"
      case Description => "description"
      case CategoryId => "category_id"
      case Priority => "priority"
    }
  }

  function FieldValue(form: TicketForm, field: FormField): string {
    match field
    case Title => form.title
    case Description => form.description
    case CategoryId => form.category_id
    case Priority => form.priority
  }

  /** `{...formData, [field]: value}`: the named field takes the value, the other three keep theirs. */
  function SetField(form: TicketForm, field: FormField, value: string): (form': TicketForm)
    ensures FieldValue(form', field) == value
    ensures forall g: FormField :: g != field ==> FieldValue(form', g) == FieldValue(form, g)
  {
    match field
    case Title => form.(title := value)
    case Description => form.(description := value)
    case CategoryId => form.(category_id := value)
    case Priority => form.(priority := value)
  }

  // ----- Errors -----

  /** The error object: field name to message, where a cleared entry holds `null` (`None`). */
  type Errors = map<string, Option<string>>

  /** `if (errors[field]) setErrors({...errors, [field]: null})`: an entry is cleared only when it holds a message. */
  function ClearError(errors: Errors, key: string): (r: Errors)
    ensures r.Keys == errors.Keys
    ensures forall k :: k in errors && k != key ==> r[k] == errors[k]
    ensures key in r ==> !Truthy(r[key])
    ensures r == errors <==> !(key in errors && Truthy(errors[key]))
  {
    if key in errors && Truthy(errors[key]) then errors[key := None] else errors
  }

  const TitleRequired := "Title is required"
  const DescriptionRequired := "Description is required"
  const CategoryRequired := "Category is required"
  const SubmitFailed := "Failed to create ticket. Please try again."

  /** A form `validateForm` accepts: title and description not blank once trimmed, and a category chosen. */
  predicate FormValid(form: TicketForm) {
    Trim(form.title) != "" && Trim(form.description) != "" && form.category_id != ""
  }

  /** The error object `validateForm` builds, one field at a time. */
  function ValidationErrors(form: TicketForm): Errors {
    var e0: Errors := map[];
    var e1 := if Trim(form.title) == "" then e0["title" := Some(TitleRequired)] else e0;
    var e2 := if Trim(form.description) == "" then e1["description" := Some(DescriptionRequired)] else e1;
    if form.category_id == "" then e2["category_id" := Some(CategoryRequired)] else e2
  }

  /** The error object holds one entry per failing field, with that field's message, and is empty exactly for a valid form. */
  lemma ValidationErrorsExact(form: TicketForm)
    ensures var e := ValidationErrors(form);
      && ("title" in e <==> Trim(form.title) == "")
      && ("description" in e <==> Trim(form.description) == "")
      && ("category_id" in e <==> form.category_id == "")
      && e.Keys <= {"title", "description", "category_id"}
      && ("title" in e ==> e["title"] == Some(TitleRequired))
      && ("description" in e ==> e["description"] == Some(DescriptionRequired))
      && ("category_id" in e ==> e["category_id"] == Some(CategoryRequired))
      && (e == map[] <==> FormValid(form))
  {
    var e := ValidationErrors(form);
    assert Trim(form.title) == "" ==> "title" in e;
  }

  /** The empty form is rejected, with a message for each of the three required fields. */
  lemma InitialFormIsRejected()
    ensures !FormValid(InitialForm)
    ensures ValidationErrors(InitialForm).Keys == {"title", "description", "category_id"}
  {
    assert Trim("") == "";
    ValidationErrorsExact(InitialForm);
  }

  /** A title made only of whitespace is as good as an empty one. */
  lemma BlankTitleIsRejected(form: TicketForm)
    requires AllWhitespace(form.title)
    ensures !FormValid(form)
    ensures ValidationErrors(form)["title"] == Some(TitleRequired)
  {
    ValidationErrorsExact(form);
  }

  /** A description made only of whitespace is as good as an empty one. */
  lemma BlankDescriptionIsRejected(form: TicketForm)
    requires AllWhitespace(form.description)
    ensures !FormValid(form)
    ensures ValidationErrors(form)["description"] == Some(DescriptionRequired)
  {
    ValidationErrorsExact(form);
  }

  // ----- Attachments -----

  datatype Attachment = Attachment(url: string, name: string, size: nat, kind: string)

  /** `attachments.filter((_, i) => i !== index)`: exactly the element at `index` goes; an index out of range removes nothing. */
  function RemoveAttachment(attachments: seq<Attachment>, index: int): (r: seq<Attachment>)
    ensures 0 <= index < |attachments| ==> r == attachments[..index] + attachments[index + 1..]
    ensures !(0 <= index < |attachments|) ==> r == attachments
    ensures 0 <= index < |attachments| ==> |r| == |attachments| - 1
  {
    WithoutPosition(attachments, index, 0)
  }

  /** `attachments.map(att => att.url)`. */
  function AttachmentUrls(attachments: seq<Attachment>): (urls: seq<string>)
    ensures |urls| == |attachments|
    ensures forall i :: 0 <= i < |attachments| ==> urls[i] == attachments[i].url
  {
    if attachments == [] then [] else [attachments[0].url] + AttachmentUrls(attachments[1..])
  }

  /** The URLs of appended uploads follow the URLs already there. */
  lemma {:induction false} UrlsOfAppend(a: seq<Attachment>, b: seq<Attachment>)
    ensures AttachmentUrls(a + b) == AttachmentUrls(a) + AttachmentUrls(b)
  {
    if a == [] {
      assert a + b == b;
    } else {
      assert (a + b)[1..] == a[1..] + b;
      UrlsOfAppend(a[1..], b);
    }
  }

  // ----- The record and the email -----

  /** `{...formData, requester_email, attachment_urls}`. */
  function TicketRecord(form: TicketForm, requester: string, attachments: seq<Attachment>): Record {
    map["title" := Str(form.title), "description" := Str(form.description),
        "category_id" := Str(form.category_id), "priority" := Str(form.priority),
        "requester_email" := Str(requester), "attachment_urls" := Strs(AttachmentUrls(attachments))]
  }

  /**
   * The created record holds the four form fields, the requester, and the
   * attachment URLs in order; no status and no assignee, which are left to the
   * store's defaults.
   */
  lemma TicketRecordFields(form: TicketForm, requester: string, attachments: seq<Attachment>)
    ensures var r := TicketRecord(form, requester, attachments);
      && r.Keys == {"title", "description", "category_id", "priority", "requester_email", "attachment_urls"}
      && r["title"] == Str(form.title) && r["description"] == Str(form.description)
      && r["category_id"] == Str(form.category_id) && r["priority"] == Str(form.priority)
      && r["requester_email"] == Str(requester)
      && r["attachment_urls"] == Strs(AttachmentUrls(attachments))
      && "status" !in r && "assigned_to" !in r
  {
  }

  /** The confirmation `handleSubmit` sends to the requester once the ticket exists. */
  function ConfirmationEmail(title: string, requester: string, ticketId: string): Email {
    Email(requester, "Ticket Created: " + title, ConfirmationHead + title + ConfirmationMiddle + ticketId)
  }

  const ConfirmationHead := "Your support ticket \""
  const ConfirmationMiddle := "\" has been created successfully. We'll get back to you soon!\n\nTicket ID: "

  /** The confirmation goes to the requester, names the title in its subject and body, and gives the new ticket's id. */
  lemma ConfirmationEmailMentions(title: string, requester: string, ticketId: string)
    ensures var e := ConfirmationEmail(title, requester, ticketId);
      && e.to == requester
      && Includes(e.subject, title)
      && Includes(e.body, title) && Includes(e.body, ticketId)
  {
    IncludesSelf(title);
    IncludesSelf(ticketId);
    IncludesInRight("Ticket Created: ", title, title);
    IncludesInRight(ConfirmationHead, title, title);
    IncludesInLeft(ConfirmationHead + title, ConfirmationMiddle, title);
    IncludesInLeft(ConfirmationHead + title + ConfirmationMiddle, ticketId, title);
    IncludesInRight(ConfirmationHead + title + ConfirmationMiddle, ticketId, ticketId);
  }

  // ----- The page -----

  class CreateTicketPage {
    var user: Option<User>
    var categories: seq<Category>
    var form: TicketForm
    var attachments: seq<Attachment>
    var errors: Errors
    var loading: bool
    var uploading: bool
    /** Whether the page has navigated to the dashboard. */
    var navigated: bool

    constructor ()
      ensures user.None? && categories == [] && form == InitialForm && attachments == [] && errors == map[]
      ensures !loading && !uploading && !navigated
    {
      user, categories, form, attachments, errors := None, [], InitialForm, [], map[];
      loading, uploading, navigated := false, false, false;
    }

    /** `loadData`: `User.me` then the active categories; both are set only when both calls succeeded. */
    method LoadData(me: Option<User>, active: Option<seq<Category>>)
      modifies this
      ensures me.Some? && active.Some? ==> user == me && categories == active.value
      ensures !(me.Some? && active.Some?) ==> user == old(user) && categories == old(categories)
      ensures form == old(form) && attachments == old(attachments) && errors == old(errors)
      ensures loading == old(loading) && uploading == old(uploading) && navigated == old(navigated)
    {
      if me.Some? && active.Some? {
        user, categories := me, active.value;
      }
    }

    /** `handleInputChange`: only the named field changes, and only that field's error, and only if it held a message. */
    method HandleInputChange(field: FormField, value: string)
      modifies this
      ensures form == SetField(old(form), field, value)
      ensures errors == ClearError(old(errors), field.Key())
      ensures user == old(user) && categories == old(categories) && attachments == old(attachments)
      ensures loading == old(loading) && uploading == old(uploading) && navigated == old(navigated)
    {
      form := SetField(form, field, value);
      if field.Key() in errors && Truthy(errors[field.Key()]) {
        errors := errors[field.Key() := None];
      }
    }

    /** `handleFileUpload`: on success (`Some`) the uploads are appended after the existing attachments; uploading ends either way. */
    method HandleFileUpload(uploaded: Option<seq<Attachment>>)
      modifies this
      ensures attachments == old(attachments) + (if uploaded.Some? then uploaded.value else [])
      ensures !uploading
      ensures user == old(user) && categories == old(categories) && form == old(form) && errors == old(errors)
      ensures loading == old(loading) && navigated == old(navigated)
    {
      uploading := true;
      if uploaded.Some? {
        attachments := attachments + uploaded.value;
      }
      uploading := false;
    }

    /** `removeAttachment(index)`. */
    method RemoveAttachmentAt(index: int)
      modifies this
      ensures attachments == RemoveAttachment(old(attachments), index)
      ensures user == old(user) && categories == old(categories) && form == old(form) && errors == old(errors)
      ensures loading == old(loading) && uploading == old(uploading) && navigated == old(navigated)
    {
      attachments := RemoveAttachment(attachments, index);
    }

    /** `validateForm`: fill the error object field by field, store it, and report whether it stayed empty. */
    method ValidateForm() returns (valid: bool)
      modifies this
      ensures errors == ValidationErrors(form)
      ensures valid <==> FormValid(form)
      ensures user == old(user) && categories == old(categories) && form == old(form) && attachments == old(attachments)
      ensures loading == old(loading) && uploading == old(uploading) && navigated == old(navigated)
    {
      var f := form;
      var newErrors: Errors := map[];
      if Trim(f.title) == "" {
        newErrors := newErrors["title" := Some(TitleRequired)];
      }
      if Trim(f.description) == "" {
        newErrors := newErrors["description" := Some(DescriptionRequired)];
      }
      if f.category_id == "" {
        newErrors := newErrors["category_id" := Some(CategoryRequired)];
      }
      ValidationErrorsExact(f);
      assert newErrors == ValidationErrors(f);
      errors := newErrors;
      valid := newErrors == map[];
    }

    /**
     * `handleSubmit`. An invalid form stops at validation. Otherwise the
     * record is built from the form, the user's email and the attachment URLs
     * (with no user loaded, reading `user.email` throws before any call) and
     * created; only a created ticket gets the confirmation email, whose
     * failure is swallowed, and the page then navigates to the dashboard. Any
     * other failure leaves only the `submit` error.
     */
    method HandleSubmit(tickets: EntityStore, outbox: Outbox, createOk: bool, freshId: string, emailOk: bool)
      modifies this, tickets, outbox
      ensures user == old(user) && categories == old(categories) && form == old(form) && attachments == old(attachments)
      ensures uploading == old(uploading)
      ensures !FormValid(form) ==>
                && errors == ValidationErrors(form)
                && tickets.records == old(tickets.records) && outbox.attempts == old(outbox.attempts)
                && loading == old(loading) && navigated == old(navigated)
      ensures FormValid(form) ==>
                var created := user.Some? && createOk && freshId !in old(tickets.records);
                && tickets.records == (if created
                                       then old(tickets.records)[freshId := TicketRecord(form, user.value.email, attachments)]
                                       else old(tickets.records))
                && outbox.attempts == old(outbox.attempts) +
                     (if created then [Delivery(ConfirmationEmail(form.title, user.value.email, freshId), emailOk)] else [])
                && errors == (if created then map[] else map["submit" := Some(SubmitFailed)])
                && navigated == (created || old(navigated))
                && !loading
    {
      var valid := ValidateForm();
      if !valid {
        return;
      }
      ValidationErrorsExact(form);
      SubmitValidForm(tickets, outbox, createOk, freshId, emailOk);
    }

    /** `handleSubmit` past validation: loading is on for the duration of the `try` block. */
    method SubmitValidForm(tickets: EntityStore, outbox: Outbox, createOk: bool, freshId: string, emailOk: bool)
      modifies this, tickets, outbox
      ensures user == old(user) && categories == old(categories) && form == old(form) && attachments == old(attachments)
      ensures uploading == old(uploading) && !loading
      ensures var created := user.Some? && createOk && freshId !in old(tickets.records);
              && tickets.records == (if created
                                     then old(tickets.records)[freshId := TicketRecord(form, user.value.email, attachments)]
                                     else old(tickets.records))
              && outbox.attempts == old(outbox.attempts) +
                   (if created then [Delivery(ConfirmationEmail(form.title, user.value.email, freshId), emailOk)] else [])
              && errors == (if created then old(errors) else map["submit" := Some(SubmitFailed)])
              && navigated == (created || old(navigated))
    {
      loading := true;
      if user.None? {
        errors := map["submit" := Some(SubmitFailed)];
      } else {
        CreateAndConfirm(tickets, outbox, user.value.email, createOk, freshId, emailOk);
      }
      loading := false;
    }

    /**
     * The `try` block of `handleSubmit` once the requester is known: create
     * the record; only then send the confirmation, swallowing its failure, and
     * navigate. A failed create leaves only the `submit` error.
     */
    method CreateAndConfirm(tickets: EntityStore, outbox: Outbox, requester: string,
                            createOk: bool, freshId: string, emailOk: bool)
      modifies this, tickets, outbox
      ensures user == old(user) && categories == old(categories) && form == old(form) && attachments == old(attachments)
      ensures loading == old(loading) && uploading == old(uploading)
      ensures var created := createOk && freshId !in old(tickets.records);
              && tickets.records == (if created
                                     then old(tickets.records)[freshId := TicketRecord(form, requester, attachments)]
                                     else old(tickets.records))
              && outbox.attempts == old(outbox.attempts) +
                   (if created then [Delivery(ConfirmationEmail(form.title, requester, freshId), emailOk)] else [])
              && errors == (if created then old(errors) else map["submit" := Some(SubmitFailed)])
              && navigated == (created || old(navigated))
    {
      var newTicket := tickets.Create(TicketRecord(form, requester, attachments), createOk, freshId);
      if newTicket.None? {
        errors := map["submit" := Some(SubmitFailed)];
        return;
      }
      var _ := outbox.Send(ConfirmationEmail(form.title, requester, newTicket.value), emailOk);
      navigated := true;
    }
  }
}

/** The create / edit form of `src/components/TaskForm.tsx`: its validation
    rules, the request bodies it builds, and its state (the two inputs, the
    per-field errors and the `loading` flag). */
module TaskForm {

  import opened Wrappers
  import opened Text
  import opened Tasks

  const TitleRequired := "Title is required"
  const TitleTooLong := "Title must be 200 characters or less"
  const DescriptionTooLong := "Description must be 500 characters or less"
  const SubmitErrorFallback := "An unknown error occurred"
  const MaxTitleLength := 200
  const MaxDescriptionLength := 500

  /** The `errors` object: None is a key that is absent or undefined. */
  datatype Errors = Errors(title: Option<string>, description: Option<string>)

  /** The input a change event names. */
  datatype Field = TitleField | DescriptionField

  /** `validateForm`'s errors for the current inputs. The title is judged
      trimmed, the description as typed; lengths are UTF-16 code units. */
  function Validate(title: string, description: string): (e: Errors)
    ensures e.title == Some(TitleRequired) <==> Trim(title) == ""
    ensures e.title == Some(TitleTooLong) <==> Trim(title) != "" && Utf16Length(Trim(title)) > MaxTitleLength
    ensures e.title.None? <==> Trim(title) != "" && Utf16Length(Trim(title)) <= MaxTitleLength
    ensures e.description == Some(DescriptionTooLong) <==> Utf16Length(description) > MaxDescriptionLength
    ensures e.description.None? <==> Utf16Length(description) <= MaxDescriptionLength
  {
    assert TitleRequired[6] != TitleTooLong[6];
    Errors(
      if Trim(title) == "" then Some(TitleRequired)
      else if Utf16Length(Trim(title)) > MaxTitleLength then Some(TitleTooLong)
      else None,
      if description != "" && Utf16Length(description) > MaxDescriptionLength then Some(DescriptionTooLong)
      else None)
  }

  /** `Object.keys(errors).length === 0` */
  predicate NoErrors(e: Errors)
  {
    e.title.None? && e.description.None?
  }

  /** Validation looks at the title only through its trimmed form. */
  lemma ValidateIgnoresTitlePadding(title: string, description: string)
    ensures Validate(Trim(title), description) == Validate(title, description)
  {
    TrimIdempotent(title);
  }

  /** A title of exactly 200 characters, all in the Basic Multilingual
      Plane, is accepted; one more is refused. */
  lemma TitleBoundary(title: string)
    requires Trim(title) != ""
    requires forall i :: 0 <= i < |Trim(title)| ==> Trim(title)[i] as int <= 0xFFFF
    ensures |Trim(title)| == MaxTitleLength ==> Validate(title, "").title.None?
    ensures |Trim(title)| == MaxTitleLength + 1 ==> Validate(title, "").title == Some(TitleTooLong)
  {
    Utf16LengthBmp(Trim(title));
  }

  /** The limit counts code units, not characters: a title of characters
      outside the Basic Multilingual Plane is accepted at 100 characters and
      refused at 101. */
  lemma TitleAstralBoundary(title: string)
    requires Trim(title) != ""
    requires forall i :: 0 <= i < |Trim(title)| ==> Trim(title)[i] as int > 0xFFFF
    ensures |Trim(title)| == MaxTitleLength / 2 ==> Validate(title, "").title.None?
    ensures |Trim(title)| == MaxTitleLength / 2 + 1 ==> Validate(title, "").title == Some(TitleTooLong)
  {
    Utf16LengthAstral(Trim(title));
  }

  /** The body of a create request: both inputs trimmed. */
  function CreatePayload(title: string, description: string): CreateTaskRequest
  {
    CreateTaskRequest(Trim(title), Trim(description))
  }

  /** A create request built from inputs that pass validation carries a
      non-empty title of at most 200 code units with no white space at
      either end, and a description of at most 500 code units. */
  lemma ValidCreatePayload(title: string, description: string)
    requires NoErrors(Validate(title, description))
    ensures var p := CreatePayload(title, description);
      && p.title != ""
      && Utf16Length(p.title) <= MaxTitleLength
      && !IsSpace(p.title[0]) && !IsSpace(p.title[|p.title| - 1])
      && Utf16Length(p.description) <= MaxDescriptionLength
  {
    TrimSpec(title);
    TrimSpec(description);
    TrimmedNoLonger(description);
  }

  /** Trimming never lengthens a text in UTF-16 code units. */
  lemma TrimmedNoLonger(s: string)
    ensures Utf16Length(Trim(s)) <= Utf16Length(s)
  {
    TrimSpec(s);
    var lead := LeadingSpaces(s);
    var n := |Trim(s)|;
    assert s == s[..lead] + Trim(s) + s[lead + n..];
    Utf16LengthAppend(s[..lead], Trim(s));
    Utf16LengthAppend(s[..lead] + Trim(s), s[lead + n..]);
  }

  /** The body of an update request: a field is sent, trimmed, exactly when
      its raw input differs from the task's value. */
  function UpdatePayload(title: string, description: string, task: Task): (u: UpdateTaskRequest)
    ensures u.title.Some? <==> title != task.title
    ensures u.title.Some? ==> u.title.value == Trim(title)
    ensures u.description.Some? <==> description != task.description
    ensures u.description.Some? ==> u.description.value == Trim(description)
  {
    UpdateTaskRequest(
      if title != task.title then Some(Trim(title)) else None,
      if description != task.description then Some(Trim(description)) else None)
  }

  /** A form left as it was prefilled sends an empty body, and a title
      changed only by padding is still sent. */
  lemma UpdatePayloadUnchanged(task: Task)
    ensures UpdatePayload(task.title, task.description, task) == UpdateTaskRequest(None, None)
    ensures UpdatePayload(" " + task.title, task.description, task).title.Some?
  {
    assert |" " + task.title| != |task.title|;
  }

  /** The request `handleSubmit` sends for a given prop `task`. */
  function SubmitCall(userId: string, task: Option<Task>, title: string, description: string): (c: TaskCall)
    ensures task.Some? ==> c == PutTask(TaskEndpoint(userId, task.value.taskId), UpdatePayload(title, description, task.value))
    ensures task.None? ==> c == PostTask(TasksEndpoint(userId), CreatePayload(title, description))
  {
    if task.Some? then PutTask(TaskEndpoint(userId, task.value.taskId), UpdatePayload(title, description, task.value))
    else PostTask(TasksEndpoint(userId), CreatePayload(title, description))
  }

  class Form {
    var title: string
    var description: string
    var errors: Errors
    var loading: bool

    constructor ()
      ensures title == "" && description == "" && errors == Errors(None, None) && !loading
    {
      title := "";
      description := "";
      errors := Errors(None, None);
      loading := false;
    }

    /** The effect on the `task` prop: prefill from the task (or clear the
        inputs) and drop every error; `loading` is kept. */
    method Prefill(task: Option<Task>)
      modifies this
      ensures title == (if task.Some? then task.value.title else "")
      ensures description == (if task.Some? then task.value.description else "")
      ensures errors == Errors(None, None) && loading == old(loading)
    {
      if task.Some? {
        title := task.value.title;
        description := task.value.description;
      } else {
        title := "";
        description := "";
      }
      errors := Errors(None, None);
    }

    /** `handleChange`: sets the named input and clears that input's error
        only. */
    method Change(field: Field, value: string)
      modifies this
      ensures field == TitleField ==>
        title == value && description == old(description) && errors == old(errors).(title := None)
      ensures field == DescriptionField ==>
        description == value && title == old(title) && errors == old(errors).(description := None)
      ensures loading == old(loading)
    {
      match field {
        case TitleField =>
          title := value;
          errors := errors.(title := None);
        case DescriptionField =>
          description := value;
          errors := errors.(description := None);
      }
    }

    /** `handleSubmit`: validation always runs and replaces `errors`; no
        request is made when it finds an error or a submission is in flight.
        Otherwise the request is sent, its result handed to `onSubmit` when
        that prop is given, and a failure's message shown as the title
        error. */
    method Submit(userId: string, task: Option<Task>, hasOnSubmit: bool, result: Outcome<Task>)
      returns (sent: Option<TaskCall>, submitted: Option<Task>)
      modifies this
      ensures title == old(title) && description == old(description)
      ensures var e := Validate(old(title), old(description));
        && (!NoErrors(e) || old(loading) ==>
              sent == None && submitted == None && errors == e && loading == old(loading))
        && (NoErrors(e) && !old(loading) ==>
              && sent == Some(SubmitCall(userId, task, old(title), old(description)))
              && !loading
              && (result.Ok? ==> errors == e && submitted == (if hasOnSubmit then Some(result.value) else None))
              && (result.Fail? ==>
                    errors == e.(title := Some(MessageOr(result.thrown, SubmitErrorFallback))) && submitted == None))
    {
      errors := Validate(title, description);
      sent := None;
      submitted := None;
      if !NoErrors(errors) || loading {
        return;
      }
      loading := true;
      sent := Some(SubmitCall(userId, task, title, description));
      match result {
        case Ok(saved) =>
          if hasOnSubmit {
            submitted := Some(saved);
          }
        case Fail(t) =>
          errors := errors.(title := Some(MessageOr(t, SubmitErrorFallback)));
      }
      loading := false;
    }
  }
}

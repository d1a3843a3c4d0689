/**
 * The task-creation dialog: a title, a description, an optional due date and
 * a priority; it can be prefilled from an email's analysis, refuses a task
 * without a title, and posts the task to the server. Parsing a date string and
 * printing a date in ISO form are parameters.
 */
module TaskCreator {
  import opened Wrappers
  import opened TasksBoard
  import V = EmailViewModal

  /** A JavaScript `Date`: a time value, or the "Invalid Date" that `new Date` gives for an unreadable string. */
  datatype DateValue = Valid(ms: int) | InvalidDate

  const TitleRequired: string := "O título da tarefa é obrigatório."
  const ErrorTitle: string := "Erro"
  const CreatedTitle: string := "Tarefa criada com sucesso!"
  const CreatedText: string := "A tarefa foi criada."
  /** The message of the `RangeError` that `toISOString` throws on an invalid date. */
  const InvalidTimeValue: string := "Invalid time value"
  const TasksPath: string := "/api/tasks"

  const DefaultPriority: Priority := Medium

  datatype Toast = Toast(title: string, description: Option<string>, destructive: bool)

  /** The body of `POST /api/tasks`. */
  datatype TaskPayload = TaskPayload(sourceMessageId: Option<string>, title: string, description: string,
                                     dueDate: Option<string>, priority: Priority)

  /** What `handleSubmit` does with the current fields before any request. */
  datatype Readiness = TitleMissing | DateUnprintable | Ready(payload: TaskPayload)

  /** The checks of `handleSubmit`: a title is required, and the due date must be printable. */
  function Prepare(messageId: Option<string>, title: string, description: string, dueDate: Option<DateValue>,
                   priority: Priority, iso: int -> string): (r: Readiness)
    ensures r.TitleMissing? <==> title == ""
    ensures r.DateUnprintable? <==> title != "" && dueDate == Some(InvalidDate)
    ensures r.Ready? ==>
              r.payload.sourceMessageId == messageId && r.payload.title == title && r.payload.title != ""
              && r.payload.description == description && r.payload.priority == priority
              && (r.payload.dueDate.Some? <==> dueDate.Some?)
              && (dueDate.Some? ==> r.payload.dueDate == Some(iso(dueDate.value.ms)))
  {
    if title == "" then TitleMissing
    else if dueDate == Some(InvalidDate) then DateUnprintable
    else Ready(TaskPayload(messageId, title, description,
                           if dueDate.Some? then Some(iso(dueDate.value.ms)) else None, priority))
  }

  /** The answer of the server to the post. */
  datatype PostOutcome = Posted | PostFailed(message: Option<string>)

  class Dialog {
    var title: string
    var description: string
    var dueDate: Option<DateValue>
    var priority: Priority
    var isLoading: bool

    /** The dialog's fields hold their initial values. */
    predicate Pristine()
      reads this
    {
      title == "" && description == "" && dueDate.None? && priority == DefaultPriority
    }

    constructor()
      ensures Pristine() && !isLoading
    {
      title, description, dueDate, priority, isLoading := "", "", None, DefaultPriority, false;
    }

    method SetTitle(value: string)
      modifies this
      ensures title == value && description == old(description) && dueDate == old(dueDate)
      ensures priority == old(priority) && isLoading == old(isLoading)
    {
      title := value;
    }

    method SetDescription(value: string)
      modifies this
      ensures description == value && title == old(title) && dueDate == old(dueDate)
      ensures priority == old(priority) && isLoading == old(isLoading)
    {
      description := value;
    }

    method SetDueDate(value: Option<DateValue>)
      modifies this
      ensures dueDate == value && title == old(title) && description == old(description)
      ensures priority == old(priority) && isLoading == old(isLoading)
    {
      dueDate := value;
    }

    method SetPriority(value: Priority)
      modifies this
      ensures priority == value && title == old(title) && description == old(description)
      ensures dueDate == old(dueDate) && isLoading == old(isLoading)
    {
      priority := value;
    }

    /**
     * The effect run when the prefill changes: the title is taken from it, and
     * the due date only when it carries one; the description and priority stay.
     */
    method ApplyPrefill(prefill: Option<V.TaskPrefill>, parseDate: string -> DateValue)
      modifies this
      ensures prefill.None? ==> title == old(title) && dueDate == old(dueDate)
      ensures prefill.Some? ==> title == prefill.value.title
      ensures prefill.Some? && Truthy(prefill.value.dueDate) ==> dueDate == Some(parseDate(prefill.value.dueDate.value))
      ensures prefill.Some? && !Truthy(prefill.value.dueDate) ==> dueDate == old(dueDate)
      ensures description == old(description) && priority == old(priority) && isLoading == old(isLoading)
    {
      if prefill.Some? {
        title := OrElse(Some(prefill.value.title), "");
        if Truthy(prefill.value.dueDate) {
          dueDate := Some(parseDate(prefill.value.dueDate.value));
        }
      }
    }

    /**
     * `handleSubmit`: returns the posted payload (none when a check fails or
     * the date cannot be printed), the toast shown, and whether the dialog
     * was closed.
     */
    method HandleSubmit(messageId: Option<string>, iso: int -> string, outcome: PostOutcome)
      returns (posted: Option<TaskPayload>, toast: Toast, closed: bool)
      modifies this
      ensures var r := Prepare(messageId, old(title), old(description), old(dueDate), old(priority), iso);
              && (posted.Some? <==> r.Ready?)
              && (posted.Some? ==> posted.value == r.payload)
              && (r.TitleMissing? ==> toast == Toast(ErrorTitle, Some(TitleRequired), true)
                                      && isLoading == old(isLoading))
              && (r.DateUnprintable? ==> toast == Toast(ErrorTitle, Some(InvalidTimeValue), true))
      ensures old(title) != "" ==> !isLoading
      ensures posted.Some? && outcome.Posted? ==>
                closed && Pristine() && toast == Toast(CreatedTitle, Some(CreatedText), false)
      ensures posted.Some? && outcome.PostFailed? ==> toast == Toast(ErrorTitle, outcome.message, true)
      ensures !(posted.Some? && outcome.Posted?) ==>
                !closed && title == old(title) && description == old(description)
                && dueDate == old(dueDate) && priority == old(priority)
    {
      posted, closed := None, false;
      var ready := Prepare(messageId, title, description, dueDate, priority, iso);
      if ready.TitleMissing? {
        toast := Toast(ErrorTitle, Some(TitleRequired), true);
        return;
      }
      isLoading := true;
      match ready {
        case DateUnprintable =>
          toast := Toast(ErrorTitle, Some(InvalidTimeValue), true);
        case Ready(payload) =>
          posted := Some(payload);
          match outcome {
            case Posted =>
              toast := Toast(CreatedTitle, Some(CreatedText), false);
              closed := true;
              title, description, dueDate, priority := "", "", None, DefaultPriority;
            case PostFailed(message) =>
              toast := Toast(ErrorTitle, message, true);
          }
      }
      isLoading := false;
    }
  }
}

/**
 * The email view: when opened on a message it asks the server to analyse it
 * (summary, entities, phishing verdict), and offers a reply link, a task
 * prefilled from the analysis, and an editable summary. Date formatting and
 * `encodeURIComponent` are parameters.
 */
module EmailViewModal {
  import opened Wrappers
  import opened JsStrings
  import opened Mail
  import opened Sender
  import S = SummaryCard
  import E = EntitiesCard
  import P = PhishingIndicator

  // ---------------------------------------------------------------------------
  // Reply quoting
  // ---------------------------------------------------------------------------

  /** Every line break followed by the quote marker. */
  function QuoteLines(text: string): string {
    ReplaceChar(text, '\n', "\n> ")
  }

  /** Removes the quote marker after every line break: the inverse of `QuoteLines`. */
  function UnquoteLines(q: string): string {
    if q == [] then []
    else if |q| >= 3 && q[..3] == "\n> " then "\n" + UnquoteLines(q[3..])
    else [q[0]] + UnquoteLines(q[1..])
  }

  /** Quoting loses nothing: removing the markers gives the text back. */
  lemma {:induction false} UnquoteQuote(text: string)
    ensures UnquoteLines(QuoteLines(text)) == text
  {
    if text != [] {
      UnquoteQuote(text[1..]);
      var rest := QuoteLines(text[1..]);
      if text[0] == '\n' {
        assert QuoteLines(text) == "\n> " + rest;
        assert (("\n> " + rest)[..3]) == "\n> ";
        assert ("\n> " + rest)[3..] == rest;
      } else {
        assert QuoteLines(text) == [text[0]] + rest;
        assert ([text[0]] + rest)[1..] == rest;
      }
      assert text == [text[0]] + text[1..];
    }
  }

  /** In the quoted text every line break is followed by "> ", so every original line is marked. */
  lemma {:induction false} EveryLineMarked(text: string)
    ensures var q := QuoteLines(text);
            forall k :: 0 <= k < |q| && q[k] == '\n' ==> k + 2 < |q| && q[k + 1] == '>' && q[k + 2] == ' '
  {
    if text != [] {
      EveryLineMarked(text[1..]);
      var rest := QuoteLines(text[1..]);
      var head := if text[0] == '\n' then "\n> " else [text[0]];
      var q := head + rest;
      assert QuoteLines(text) == q;
      forall k | 0 <= k < |q| && q[k] == '\n' ensures k + 2 < |q| && q[k + 1] == '>' && q[k + 2] == ' ' {
        if k >= |head| {
          assert q[k] == rest[k - |head|];
          assert q[k + 1] == rest[k + 1 - |head|] && q[k + 2] == rest[k + 2 - |head|];
        }
      }
    }
  }

  /** The mail client link `handleReplyClick` opens. */
  datatype Mailto = Mailto(to: string, subject: string, body: string)

  /** `bodyText?.split('\n').join('\n> ')` inside a template literal: a missing body prints as "undefined". */
  function QuotedBody(bodyText: Option<string>): string {
    if bodyText.Some? then QuoteLines(bodyText.value) else "undefined"
  }

  /** The reply: to the sender's address, subject "Re: …", and the original quoted under an attribution line. */
  function ReplyLink(email: Message, formattedDate: string, encode: string -> string): (r: Mailto)
    ensures r.to == FromAddress(email.from)
    ensures r.subject == encode("Re: " + email.subject)
    ensures r.body == encode("\n\nOn " + formattedDate + ", " + email.from + " wrote:\n> " + QuotedBody(email.bodyText))
  {
    Mailto(FromAddress(email.from),
           encode("Re: " + email.subject),
           encode("\n\nOn " + formattedDate + ", " + email.from + " wrote:\n> " + QuotedBody(email.bodyText)))
  }

  /** Without escaping, the reply body ends with the original text, quoted line by line and recoverable. */
  lemma ReplyQuotesOriginal(email: Message, formattedDate: string, text: string)
    requires email.bodyText == Some(text)
    ensures var body := ReplyLink(email, formattedDate, s => s).body;
            var quoted := body[|body| - |QuoteLines(text)|..];
            |QuoteLines(text)| <= |body| && UnquoteLines(quoted) == text && body[..|body| - |quoted|][|body| - |quoted| - 2..] == "> "
  {
    var head := "\n\nOn " + formattedDate + ", " + email.from + " wrote:\n> ";
    var body := head + QuoteLines(text);
    assert ReplyLink(email, formattedDate, s => s).body == body;
    assert body[|head|..] == QuoteLines(text);
    assert body[..|head|] == head;
    UnquoteQuote(text);
  }

  // ---------------------------------------------------------------------------
  // The modal's state
  // ---------------------------------------------------------------------------

  /** The answer of `POST /api/messages/:id/parse`. */
  datatype ParseOutcome =
    | ParseFailed(message: Option<string>)
    | ParseOk(summary: Option<S.SummaryData>, entities: Option<E.EntitiesData>, phishing: Option<P.PhishingData>)

  datatype TaskPrefill = TaskPrefill(title: string, dueDate: Option<string>)

  function ParsePath(email: Message): string {
    "/api/messages/" + email.id + "/parse"
  }

  /** The prefill offered to the task creator: the summary text and the due date, when there are any. */
  function Prefill(summary: Option<S.SummaryData>, entities: Option<E.EntitiesData>): (p: TaskPrefill)
    ensures p.title == (if summary.Some? then summary.value.text else "")
    ensures p.dueDate.Some? <==> entities.Some? && Truthy(entities.value.dueDate)
    ensures p.dueDate.Some? ==> p.dueDate == entities.value.dueDate
  {
    TaskPrefill(
      if summary.Some? then OrElse(Some(summary.value.text), "") else "",
      if entities.Some? && Truthy(entities.value.dueDate) then entities.value.dueDate else None)
  }

  class Modal {
    var summary: Option<S.SummaryData>
    var entities: Option<E.EntitiesData>
    var phishingData: Option<P.PhishingData>
    var isLoading: bool
    var error: Option<string>
    var showReplyComposer: bool
    var isTaskCreatorOpen: bool
    var taskPrefill: Option<TaskPrefill>

    constructor()
      ensures summary.None? && entities.None? && phishingData.None? && error.None?
      ensures !isLoading && !showReplyComposer && !isTaskCreatorOpen && taskPrefill.None?
    {
      summary, entities, phishingData := None, None, None;
      isLoading, error := false, None;
      showReplyComposer, isTaskCreatorOpen, taskPrefill := false, false, None;
    }

    /** The start of the analysis: loading, and every earlier result cleared. */
    method BeginParse(email: Message) returns (path: string)
      modifies this
      ensures path == ParsePath(email)
      ensures isLoading && summary.None? && entities.None? && phishingData.None? && error.None?
      ensures showReplyComposer == old(showReplyComposer) && isTaskCreatorOpen == old(isTaskCreatorOpen)
      ensures taskPrefill == old(taskPrefill)
    {
      isLoading := true;
      summary := None;
      entities := None;
      phishingData := None;
      error := None;
      path := ParsePath(email);
    }

    /** The end of the analysis: the three results, or the error; loading off either way. */
    method EndParse(outcome: ParseOutcome)
      modifies this
      ensures !isLoading
      ensures outcome.ParseOk? ==>
                summary == outcome.summary && entities == outcome.entities && phishingData == outcome.phishing
                && error == old(error)
      ensures outcome.ParseFailed? ==>
                error == outcome.message && summary == old(summary) && entities == old(entities)
                && phishingData == old(phishingData)
      ensures showReplyComposer == old(showReplyComposer) && isTaskCreatorOpen == old(isTaskCreatorOpen)
      ensures taskPrefill == old(taskPrefill)
    {
      match outcome {
        case ParseOk(s, e, p) =>
          summary := s;
          entities := e;
          phishingData := p;
        case ParseFailed(message) =>
          error := message;
      }
      isLoading := false;
    }

    /**
     * The effect run when `isOpen` or the email changes: an open modal with an
     * email analyses it; a closed one hides the reply composer and task creator.
     */
    method OnOpenOrEmailChange(isOpen: bool, email: Option<Message>, outcome: ParseOutcome)
      returns (request: Option<string>)
      modifies this
      ensures request.Some? <==> isOpen && email.Some?
      ensures request.Some? ==> request.value == ParsePath(email.value) && !isLoading
      ensures request.Some? && outcome.ParseFailed? ==>
                summary.None? && entities.None? && phishingData.None? && error == outcome.message
      ensures request.Some? && outcome.ParseOk? ==>
                summary == outcome.summary && entities == outcome.entities
                && phishingData == outcome.phishing && error.None?
      ensures request.None? ==> summary == old(summary) && entities == old(entities)
                                && phishingData == old(phishingData) && error == old(error)
                                && isLoading == old(isLoading)
      ensures !isOpen ==> !showReplyComposer && !isTaskCreatorOpen
      ensures isOpen ==> showReplyComposer == old(showReplyComposer) && isTaskCreatorOpen == old(isTaskCreatorOpen)
      ensures taskPrefill == old(taskPrefill)
    {
      request := None;
      if isOpen && email.Some? {
        var path := BeginParse(email.value);
        EndParse(outcome);
        request := Some(path);
      }
      if !isOpen {
        showReplyComposer := false;
        isTaskCreatorOpen := false;
      }
    }

    /** `handleCreateTaskClick`: prefill from the analysis and open the task creator. */
    method HandleCreateTaskClick()
      modifies this
      ensures taskPrefill == Some(Prefill(summary, entities)) && isTaskCreatorOpen
      ensures summary == old(summary) && entities == old(entities) && phishingData == old(phishingData)
      ensures isLoading == old(isLoading) && error == old(error) && showReplyComposer == old(showReplyComposer)
    {
      taskPrefill := Some(Prefill(summary, entities));
      isTaskCreatorOpen := true;
    }

    /** `handleSummaryUpdate`: only the text changes, and only when there is a summary. */
    method HandleSummaryUpdate(newText: string)
      modifies this
      ensures old(summary).None? ==> summary.None?
      ensures old(summary).Some? ==> summary == Some(old(summary).value.(text := newText))
      ensures entities == old(entities) && phishingData == old(phishingData)
      ensures isLoading == old(isLoading) && error == old(error) && showReplyComposer == old(showReplyComposer)
      ensures isTaskCreatorOpen == old(isTaskCreatorOpen) && taskPrefill == old(taskPrefill)
    {
      if summary.Some? {
        summary := Some(summary.value.(text := newText));
      }
    }

    /** The summary card's `onGenerateReply`: the reply composer is shown. */
    method OpenReplyComposer()
      modifies this
      ensures showReplyComposer
      ensures summary == old(summary) && entities == old(entities) && phishingData == old(phishingData)
      ensures isLoading == old(isLoading) && error == old(error)
      ensures isTaskCreatorOpen == old(isTaskCreatorOpen) && taskPrefill == old(taskPrefill)
    {
      showReplyComposer := true;
    }

    /** The task creator's `onClose`: it closes and keeps its prefill. */
    method CloseTaskCreator()
      modifies this
      ensures !isTaskCreatorOpen && taskPrefill == old(taskPrefill)
      ensures summary == old(summary) && entities == old(entities) && phishingData == old(phishingData)
      ensures isLoading == old(isLoading) && error == old(error) && showReplyComposer == old(showReplyComposer)
    {
      isTaskCreatorOpen := false;
    }
  }
}

/**
 * The reply assistant inside the email view: the user picks a tone and a
 * length, asks the server to draft a reply, and can copy the draft or open it
 * in the mail client, addressed to the original sender.
 */
module ReplyComposer {
  import opened Wrappers
  import opened Sender
  import V = EmailViewModal

  datatype Tone = Formal | Casual | Direct
  datatype Length = Short | Medium | Long

  /** The value each tone travels as. */
  function ToneName(t: Tone): string {
    match t
    case Formal => "formal"
    case Casual => "casual"
    case Direct => "direto"
  }

  function LengthName(l: Length): string {
    match l
    case Short => "curto"
    case Medium => "médio"
    case Long => "longo"
  }

  /** The tone a select value names, if any. */
  function ToneOf(name: string): (r: Option<Tone>)
    ensures r.Some? ==> ToneName(r.value) == name
  {
    if name == "formal" then Some(Formal)
    else if name == "casual" then Some(Casual)
    else if name == "direto" then Some(Direct)
    else None
  }

  function LengthOf(name: string): (r: Option<Length>)
    ensures r.Some? ==> LengthName(r.value) == name
  {
    if name == "curto" then Some(Short)
    else if name == "médio" then Some(Medium)
    else if name == "longo" then Some(Long)
    else None
  }

  /** Every tone and length is read back from the value it travels as. */
  lemma NamesRoundTrip(t: Tone, l: Length)
    ensures ToneOf(ToneName(t)) == Some(t)
    ensures LengthOf(LengthName(l)) == Some(l)
  {
    assert ToneName(Formal)[0] == 'f' && ToneName(Casual)[0] == 'c' && ToneName(Direct)[0] == 'd';
    assert LengthName(Short)[0] == 'c' && LengthName(Medium)[0] == 'm' && LengthName(Long)[0] == 'l';
  }

  const GenerateFailed: string := "Não foi possível gerar a resposta. Tente novamente."

  datatype OriginalMessage = OriginalMessage(from: string, body: string, subject: string)
  datatype GeneratedReply = GeneratedReply(subject: string, body: string)

  /** `POST /api/messages/:id/generate-reply` with only the original body. */
  datatype GenerateRequest = GenerateRequest(path: string, tone: string, length: string, originalMessage: string)

  function GeneratePath(messageId: string): string {
    "/api/messages/" + messageId + "/generate-reply"
  }

  /** The mail client link for a drafted reply: to the sender's address, subject and body escaped. */
  function SendLink(from: string, reply: GeneratedReply, encode: string -> string): (r: V.Mailto)
    ensures r.to == FromAddress(from)
    ensures r.subject == encode(reply.subject) && r.body == encode(reply.body)
  {
    V.Mailto(FromAddress(from), encode(reply.subject), encode(reply.body))
  }

  /** A reply to `name <address>` is sent to the address. */
  lemma SendLinkReachesSender(name: string, address: string, reply: GeneratedReply, encode: string -> string)
    requires PlainName(name) && PlainAddress(address)
    ensures SendLink(Mailbox(name, address), reply, encode).to == address
  {
    MailboxRoundTrip(name, address);
  }

  /** A sender with no `<` gets the reply at the whole `from` string. */
  lemma SendLinkPlainSender(from: string, reply: GeneratedReply, encode: string -> string)
    requires '<' !in from
    ensures SendLink(from, reply, encode).to == from
  {
  }

  /** The server's answer to the draft request. */
  datatype GenerateOutcome = Generated(reply: GeneratedReply) | GenerateError

  class Composer {
    const messageId: string
    const original: OriginalMessage
    var tone: Tone
    var length: Length
    var isLoading: bool
    var generatedReply: Option<GeneratedReply>

    constructor(messageId: string, original: OriginalMessage)
      ensures this.messageId == messageId && this.original == original
      ensures tone == Formal && length == Medium && !isLoading && generatedReply.None?
    {
      this.messageId, this.original := messageId, original;
      tone, length, isLoading, generatedReply := Formal, Medium, false, None;
    }

    method SetTone(t: Tone)
      modifies this
      ensures tone == t && length == old(length) && generatedReply == old(generatedReply)
      ensures isLoading == old(isLoading)
    {
      tone := t;
    }

    method SetLength(l: Length)
      modifies this
      ensures length == l && tone == old(tone) && generatedReply == old(generatedReply)
      ensures isLoading == old(isLoading)
    {
      length := l;
    }

    /**
     * `handleGenerateReply`: the earlier draft is dropped, the request sent,
     * and the new draft kept; a failure leaves no draft and shows an error.
     */
    method HandleGenerateReply(outcome: GenerateOutcome) returns (request: GenerateRequest, errorToast: Option<string>)
      modifies this
      ensures request == GenerateRequest(GeneratePath(messageId), ToneName(tone), LengthName(length), original.body)
      ensures outcome.Generated? ==> generatedReply == Some(outcome.reply) && errorToast.None?
      ensures outcome.GenerateError? ==> generatedReply.None? && errorToast == Some(GenerateFailed)
      ensures !isLoading && tone == old(tone) && length == old(length)
    {
      isLoading := true;
      generatedReply := None;
      request := GenerateRequest(GeneratePath(messageId), ToneName(tone), LengthName(length), original.body);
      errorToast := None;
      match outcome {
        case Generated(reply) =>
          generatedReply := Some(reply);
        case GenerateError =>
          errorToast := Some(GenerateFailed);
      }
      isLoading := false;
    }

    /** `handleCopyToClipboard`: the text written to the clipboard, only for a draft with a body. */
    method HandleCopyToClipboard() returns (copied: Option<string>)
      ensures copied.Some? <==> generatedReply.Some? && generatedReply.value.body != ""
      ensures copied.Some? ==> copied.value == generatedReply.value.body
    {
      copied := None;
      if generatedReply.Some? && generatedReply.value.body != "" {
        copied := Some(generatedReply.value.body);
      }
    }

    /** `handleSendEmail`: the mail client link, only when there is a draft. */
    method HandleSendEmail(encode: string -> string) returns (link: Option<V.Mailto>)
      ensures link.Some? <==> generatedReply.Some?
      ensures link.Some? ==> link.value == SendLink(original.from, generatedReply.value, encode)
    {
      link := None;
      if generatedReply.Some? {
        link := Some(SendLink(original.from, generatedReply.value, encode));
      }
    }
  }
}

/**
 * The e-mail classifier (`classifyEmail`): one chat-completion request per
 * message, whose reply is validated against a closed taxonomy. Every failure
 * becomes the fallback label "Não classificado"; nothing is thrown to callers.
 *
 * The backend call itself is not modelled: `BackendReply` is what the call
 * produced, and `Classification.request` records whether a request was made
 * and with which user message.
 */
module Classification {
  import opened Wrappers
  import opened JsStrings

  /** The fallback label; never produced by the model itself. */
  const Unclassified: string := "Não classificado"

  /** The taxonomy the reply must come from. */
  const Categories: seq<string> := ["Pessoal", "Trabalho", "Promoções", "Notificações", "Spam"]

  /** How much of the body, in UTF-16 code units, goes into the prompt. */
  const BodyPrefixUnits: nat := 2000

  /** The `category` member of the parsed reply object. */
  datatype CategoryField =
    | Absent                 // no such member (undefined)
    | Str(name: string)      // a JSON string
    | NotStr                 // null, a number, a boolean, an array or an object

  /** What the chat-completion call came back with. */
  datatype BackendReply =
    | Threw                            // network or SDK error
    | NoContent                        // `choices[0]?.message?.content` missing or ""
    | Unparseable                      // `JSON.parse` (or reading `.category`) threw
    | Parsed(category: CategoryField)  // a JSON value with its `category` member

  /** The outcome of one `classifyEmail` call. */
  datatype Classification = Classification(category: string, request: Option<string>)

  predicate InTaxonomy(name: string) {
    name in Categories
  }

  /**
   * `body.substring(0, n)`: the longest prefix whose UTF-16 length is at most `n`
   * (a cut through a surrogate pair is not representable and is left out).
   */
  function Utf16Prefix(body: string, n: nat): (r: string)
    ensures r <= body && Utf16Length(r) <= n
    ensures r == body || Utf16Length(r) + Utf16Width(body[|r|]) > n
  {
    if body == [] || Utf16Width(body[0]) > n then []
    else
      var rest := Utf16Prefix(body[1..], n - Utf16Width(body[0]));
      assert ([body[0]] + rest)[1..] == rest;
      [body[0]] + rest
  }

  /** The user message sent to the backend. */
  function UserPrompt(subject: string, body: string): string {
    "Assunto: " + subject + "\n\nCorpo: " + Utf16Prefix(body, BodyPrefixUnits)
  }

  /** The label the reply yields, before the fallback: present only for a taxonomy member. */
  function ValidLabel(reply: BackendReply): (r: Option<string>)
    ensures r.Some? <==> reply.Parsed? && reply.category.Str? && InTaxonomy(reply.category.name)
    ensures r.Some? ==> r.value == reply.category.name
  {
    match reply
    case Parsed(Str(name)) =>
      // `!category || !CATEGORIES.includes(category)`; "" is not in the taxonomy
      if name != "" && name in Categories then Some(name) else None
    case _ => None
  }

  /** `classifyEmail({subject, body})` when the backend would answer `reply`. */
  function Classify(subject: string, body: string, reply: BackendReply): (r: Classification)
    ensures InTaxonomy(r.category) || r.category == Unclassified
    ensures r.category != ""
    ensures r.request.None? <==> subject == "" && body == ""
    ensures r.request.Some? ==> r.request.value == UserPrompt(subject, body)
    ensures r.category != Unclassified <==> r.request.Some? && ValidLabel(reply).Some?
    ensures r.category != Unclassified ==> r.category == ValidLabel(reply).value
  {
    if subject == "" && body == "" then
      Classification(Unclassified, None)
    else
      var prompt := UserPrompt(subject, body);
      match ValidLabel(reply)
      case Some(name) => Classification(name, Some(prompt))
      case None => Classification(Unclassified, Some(prompt))
  }

  /** The fallback label is not itself a taxonomy member, so it is never mistaken for a reply. */
  lemma UnclassifiedOutsideTaxonomy()
    ensures !InTaxonomy(Unclassified)
  {
  }

  /** A label outside the taxonomy is never returned, whatever the reply. */
  lemma InvalidLabelNeverReturned(subject: string, body: string, reply: BackendReply)
    requires reply.Parsed? && reply.category.Str? && !InTaxonomy(reply.category.name)
    ensures Classify(subject, body, reply).category == Unclassified
  {
  }

  /** The prompt carries the whole subject and at most 2000 UTF-16 units of the body, from its start. */
  lemma {:induction false} PromptBounded(subject: string, body: string)
    ensures var p := UserPrompt(subject, body);
            var cut := p[|"Assunto: " + subject + "\n\nCorpo: "|..];
            && StartsWith(p, "Assunto: " + subject)
            && cut <= body && Utf16Length(cut) <= BodyPrefixUnits
            && (Utf16Length(body) <= BodyPrefixUnits ==> cut == body)
  {
    var head := "Assunto: " + subject + "\n\nCorpo: ";
    var p := UserPrompt(subject, body);
    assert p == head + Utf16Prefix(body, BodyPrefixUnits);
    assert p[|head|..] == Utf16Prefix(body, BodyPrefixUnits);
    assert p[..|"Assunto: " + subject|] == "Assunto: " + subject;
    if Utf16Length(body) <= BodyPrefixUnits {
      PrefixWhole(body, BodyPrefixUnits);
    }
  }

  /** A body that fits is sent whole. */
  lemma {:induction false} PrefixWhole(body: string, n: nat)
    requires Utf16Length(body) <= n
    ensures Utf16Prefix(body, n) == body
  {
    if body != [] {
      assert Utf16Length(body) == Utf16Width(body[0]) + Utf16Length(body[1..]);
      PrefixWhole(body[1..], n - Utf16Width(body[0]));
    }
  }
}

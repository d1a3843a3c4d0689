/**
 * The list of recent emails: what it shows (loading, an error, a prompt to
 * connect the Google account, the messages, or an empty notice), how each
 * sender is displayed, which email the view modal shows, and the action that
 * links or re-authenticates the Google account.
 */
module EmailList {
  import opened Wrappers
  import opened JsArrays
  import opened Mail
  import opened Sender

  const LoadingText: string := "Carregando e-mails..."
  const ExpiredText: string := "Sua sessão com o Google expirou. Por favor, reconecte sua conta."
  const ConnectText: string := "Por favor, conecte sua conta do Google para visualizar seus e-mails."
  const ReconnectButton: string := "Reconectar com Google"
  const ConnectButton: string := "Conectar com Google"
  const EmptyText: string := "Nenhum e-mail encontrado para os filtros selecionados."
  const NotSignedIn: string := "Usuário não está logado."
  const CredentialInUse: string := "Esta conta do Google já está vinculada a outro usuário."
  const ConnectFailedPrefix: string := "Falha ao conectar com o Google: "

  /** `user?.providerData.some(p => p.providerId === 'google.com')`; no user is not linked. */
  function IsGoogleLinked(providerIds: Option<seq<string>>): (r: bool)
    ensures r <==> providerIds.Some? && "google.com" in providerIds.value
  {
    providerIds.Some? && Any(providerIds.value, (id: string) => id == "google.com")
  }

  /** One row of the list. */
  datatype Item = Item(id: string, fromName: string, fromInitial: string, subject: string,
                       snippet: string, badge: Option<string>)

  function ItemOf(m: Message): (r: Item)
    ensures r.id == m.id && r.fromName == FromName(m.from) && r.fromInitial == FromInitial(m.from)
    ensures r.subject == m.subject && r.snippet == m.snippet
    ensures r.badge.Some? <==> Truthy(m.category)
    ensures r.badge.Some? ==> r.badge == m.category
  {
    Item(m.id, FromName(m.from), FromInitial(m.from), m.subject, m.snippet,
         if Truthy(m.category) then m.category else None)
  }

  function Items(ms: seq<Message>): (r: seq<Item>)
    ensures |r| == |ms| && forall k :: 0 <= k < |ms| ==> r[k] == ItemOf(ms[k])
  {
    seq(|ms|, k requires 0 <= k < |ms| => ItemOf(ms[k]))
  }

  datatype ListView =
    | Loading(text: string)
    | Failed(error: string)
    | ConnectPrompt(text: string, button: string)
    | Listing(items: seq<Item>)
    | Empty(text: string)

  /** The render precedence: loading, then error, then a missing token, then the list. */
  function Render(ms: seq<Message>, isLoading: bool, error: Option<string>, googleToken: Option<string>,
                  linked: bool, actionError: Option<string>): (r: ListView)
    ensures r.Loading? <==> isLoading
    ensures r.Failed? <==> !isLoading && Truthy(error)
    ensures r.ConnectPrompt? <==> !isLoading && !Truthy(error) && !Truthy(googleToken)
    ensures r.ConnectPrompt? ==>
              r.text == (if Truthy(actionError) then actionError.value else if linked then ExpiredText else ConnectText)
              && r.button == (if linked then ReconnectButton else ConnectButton)
    ensures r.Listing? ==> r.items == Items(ms)
    ensures r.Listing? <==> !isLoading && !Truthy(error) && Truthy(googleToken) && |ms| > 0
    ensures r.Loading? ==> r.text == LoadingText
    ensures r.Failed? ==> r.error == error.value
    ensures r.Empty? ==> r.text == EmptyText
    ensures (r.Listing? || r.Empty?) <==> !isLoading && !Truthy(error) && Truthy(googleToken)
  {
    if isLoading then Loading(LoadingText)
    else if Truthy(error) then Failed(error.value)
    else if !Truthy(googleToken) then
      ConnectPrompt(OrElse(actionError, if linked then ExpiredText else ConnectText),
                    if linked then ReconnectButton else ConnectButton)
    else if |ms| > 0 then Listing(Items(ms))
    else Empty(EmptyText)
  }

  /** Which popup the Google action opens. */
  datatype Popup = Reauthenticate | Link

  /** What the popup came back with. */
  datatype PopupOutcome =
    | PopupOk(accessToken: Option<string>)
    | PopupFailed(code: Option<string>, message: Option<string>)

  /** The message shown for a failed popup. */
  function ActionErrorFor(code: Option<string>, message: Option<string>): (r: string)
    ensures code == Some("auth/credential-already-in-use") ==> r == CredentialInUse
    ensures code != Some("auth/credential-already-in-use") ==>
              r == ConnectFailedPrefix + message.GetOr("undefined")
  {
    if code == Some("auth/credential-already-in-use") then CredentialInUse
    else ConnectFailedPrefix + message.GetOr("undefined")
  }

  class List {
    var actionError: Option<string>
    var selectedEmail: Option<Message>
    var isModalOpen: bool

    constructor()
      ensures actionError.None? && selectedEmail.None? && !isModalOpen
    {
      actionError, selectedEmail, isModalOpen := None, None, false;
    }

    /** `handleEmailClick`: the clicked email goes to the modal, which opens. */
    method HandleEmailClick(email: Message)
      modifies this
      ensures selectedEmail == Some(email) && isModalOpen
      ensures actionError == old(actionError)
    {
      selectedEmail := Some(email);
      isModalOpen := true;
    }

    /** `handleCloseModal`: the modal closes and forgets the email. */
    method HandleCloseModal()
      modifies this
      ensures selectedEmail.None? && !isModalOpen
      ensures actionError == old(actionError)
    {
      isModalOpen := false;
      selectedEmail := None;
    }

    /**
     * `handleGoogleAction`: re-authenticates a linked account, links an
     * unlinked one; a token from the popup is stored (returned here) and
     * clears the error.
     */
    method HandleGoogleAction(signedIn: bool, linked: bool, outcome: PopupOutcome)
      returns (popup: Option<Popup>, stored: Option<string>)
      modifies this
      ensures !signedIn ==> popup.None? && stored.None? && actionError == Some(NotSignedIn)
      ensures signedIn ==> popup == Some(if linked then Reauthenticate else Link)
      ensures signedIn && outcome.PopupOk? && Truthy(outcome.accessToken) ==>
                stored == outcome.accessToken && actionError.None?
      ensures signedIn && outcome.PopupOk? && !Truthy(outcome.accessToken) ==>
                stored.None? && actionError == old(actionError)
      ensures signedIn && outcome.PopupFailed? ==>
                stored.None? && actionError == Some(ActionErrorFor(outcome.code, outcome.message))
      ensures selectedEmail == old(selectedEmail) && isModalOpen == old(isModalOpen)
    {
      popup, stored := None, None;
      if !signedIn {
        actionError := Some(NotSignedIn);
        return;
      }
      popup := Some(if linked then Reauthenticate else Link);
      match outcome {
        case PopupOk(accessToken) =>
          if Truthy(accessToken) {
            stored := accessToken;
            actionError := None;
          }
        case PopupFailed(code, message) =>
          actionError := Some(ActionErrorFor(code, message));
      }
    }
  }

  /** After a failed action, the prompt shows that failure instead of the standard text. */
  lemma PromptShowsActionError(ms: seq<Message>, linked: bool, code: Option<string>, message: Option<string>)
    ensures Render(ms, false, None, None, linked, Some(ActionErrorFor(code, message))).text
            == ActionErrorFor(code, message)
  {
    assert ActionErrorFor(code, message) != "";
  }
}

/**
 * The delete-account dialog: the user must type the confirmation phrase
 * exactly; only then, and only with a signed-in user, is the account deleted.
 * After a deletion the dialog stays in its "deleting" state and the browser is
 * sent to the login page.
 */
module DeleteAccount {
  import opened Wrappers
  import opened JsStrings

  const ExpectedConfirmation: string := "EXCLUIR MINHA CONTA"
  const WrongConfirmation: string := "Texto de confirmação incorreto"
  const NoUser: string := "Nenhum usuário autenticado para excluir."
  const DeleteFailed: string := "Erro ao excluir conta. Pode ser necessário fazer login novamente por segurança."
  const LoginPath: string := "/login"

  /** The confirmation must be the phrase exactly: no trimming, no case folding. */
  function IsConfirmationValid(text: string): (r: bool)
    ensures r <==> |text| == |ExpectedConfirmation| && forall k :: 0 <= k < |text| ==> text[k] == ExpectedConfirmation[k]
  {
    text == ExpectedConfirmation
  }

  /** Any text padded on either side with whitespace is refused. */
  lemma PaddingRefused(s: string, c: char)
    requires IsTrimmable(c)
    ensures !IsConfirmationValid([c] + s) && !IsConfirmationValid(s + [c])
  {
    assert ExpectedConfirmation[0] == 'E' && ExpectedConfirmation[|ExpectedConfirmation| - 1] == 'A';
  }

  /**
   * Lower-casing a text that starts with a capital letter, the phrase itself
   * included, gives a text that is refused.
   */
  lemma LowerCaseRefused(t: string)
    requires t != [] && 'A' <= t[0] <= 'Z'
    ensures !IsConfirmationValid(ToLower(t))
  {
    assert ToLower(t)[0] == LowerChar(t[0]);
  }

  class Dialog {
    var confirmationText: string
    var isDeleting: bool
    var error: string

    constructor()
      ensures confirmationText == "" && !isDeleting && error == ""
    {
      confirmationText, isDeleting, error := "", false, "";
    }

    method SetConfirmationText(text: string)
      modifies this
      ensures confirmationText == text && isDeleting == old(isDeleting) && error == old(error)
    {
      confirmationText := text;
    }

    /**
     * `handleDelete`: returns whether the account deletion was requested and
     * where the browser is sent afterwards.
     */
    method HandleDelete(signedIn: bool, deleteSucceeds: bool) returns (deleteRequested: bool, redirect: Option<string>)
      modifies this
      ensures deleteRequested <==> IsConfirmationValid(confirmationText) && signedIn
      ensures !IsConfirmationValid(confirmationText) ==>
                error == WrongConfirmation && isDeleting == old(isDeleting) && redirect.None?
      ensures IsConfirmationValid(confirmationText) && !signedIn ==>
                error == NoUser && isDeleting == old(isDeleting) && redirect.None?
      ensures deleteRequested && deleteSucceeds ==> isDeleting && error == "" && redirect == Some(LoginPath)
      ensures deleteRequested && !deleteSucceeds ==> !isDeleting && error == DeleteFailed && redirect.None?
      ensures confirmationText == old(confirmationText)
    {
      deleteRequested, redirect := false, None;
      if !IsConfirmationValid(confirmationText) {
        error := WrongConfirmation;
        return;
      }
      if !signedIn {
        error := NoUser;
        return;
      }
      isDeleting := true;
      error := "";
      deleteRequested := true;
      if deleteSucceeds {
        redirect := Some(LoginPath);
      } else {
        error := DeleteFailed;
        isDeleting := false;
      }
    }
  }
}

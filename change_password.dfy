/**
 * The change-password dialog: the new password must be typed twice and be at
 * least six characters long, and the signed-in user must have an email
 * address; only then is the user re-authenticated with the current password
 * and the password changed. The authentication service's answer is a
 * parameter.
 */
module ChangePassword {
  import opened Wrappers
  import opened JsStrings

  datatype Passwords = Passwords(currentPassword: string, newPassword: string, confirmPassword: string)

  const EmptyPasswords: Passwords := Passwords("", "", "")

  const Mismatch: string := "As novas senhas não coincidem."
  const TooShort: string := "A nova senha deve ter pelo menos 6 caracteres."
  const NoUser: string := "Usuário não encontrado."
  const WrongPassword: string := "A senha antiga está incorreta."
  const GenericFailure: string := "Ocorreu um erro ao alterar a senha. Tente novamente."

  /** The shortest accepted new password, in UTF-16 code units. */
  const MinLength: nat := 6

  /** Which input `handleInputChange` was called for (`e.target.name`). */
  datatype Field = Current | New | Confirm

  /** `{ ...prev, [name]: value }`. */
  function WithField(p: Passwords, field: Field, value: string): (r: Passwords)
    ensures field == Current ==> r == Passwords(value, p.newPassword, p.confirmPassword)
    ensures field == New ==> r == Passwords(p.currentPassword, value, p.confirmPassword)
    ensures field == Confirm ==> r == Passwords(p.currentPassword, p.newPassword, value)
  {
    match field
    case Current => p.(currentPassword := value)
    case New => p.(newPassword := value)
    case Confirm => p.(confirmPassword := value)
  }

  /** The validation chain, in order: the first failing check's message, or none. */
  function Validate(p: Passwords, userEmail: Option<string>): (r: Option<string>)
    ensures r.None? <==> p.newPassword == p.confirmPassword && Utf16Length(p.newPassword) >= MinLength
                         && Truthy(userEmail)
    ensures p.newPassword != p.confirmPassword ==> r == Some(Mismatch)
    ensures p.newPassword == p.confirmPassword && Utf16Length(p.newPassword) < MinLength ==> r == Some(TooShort)
    ensures p.newPassword == p.confirmPassword && Utf16Length(p.newPassword) >= MinLength && !Truthy(userEmail) ==>
              r == Some(NoUser)
  {
    if p.newPassword != p.confirmPassword then Some(Mismatch)
    else if Utf16Length(p.newPassword) < MinLength then Some(TooShort)
    else if !Truthy(userEmail) then Some(NoUser)
    else None
  }

  /** A mismatch is reported even when the new password is also too short. */
  lemma MismatchReportedFirst(p: Passwords, userEmail: Option<string>)
    requires p.newPassword != p.confirmPassword && Utf16Length(p.newPassword) < MinLength
    ensures Validate(p, userEmail) == Some(Mismatch)
  {
  }

  /** The message for a failed re-authentication or update. */
  function FailureMessage(code: Option<string>): (r: string)
    ensures r == WrongPassword <==> code == Some("auth/wrong-password")
  {
    if code == Some("auth/wrong-password") then WrongPassword else GenericFailure
  }

  /** The answer to re-authentication followed by the password update. */
  datatype AuthOutcome = Changed | Failed(code: Option<string>)

  /** The request made once validation passes. */
  datatype ChangeRequest = ChangeRequest(email: string, currentPassword: string, newPassword: string)

  class Dialog {
    var passwords: Passwords
    var isSaving: bool
    var error: string

    constructor()
      ensures passwords == EmptyPasswords && !isSaving && error == ""
    {
      passwords, isSaving, error := EmptyPasswords, false, "";
    }

    method HandleInputChange(field: Field, value: string)
      modifies this
      ensures passwords == WithField(old(passwords), field, value)
      ensures error == old(error) && isSaving == old(isSaving)
    {
      passwords := WithField(passwords, field, value);
    }

    /**
     * `handleSave`: returns the request sent to the authentication service
     * (none when validation fails) and whether the dialog was closed.
     */
    method HandleSave(userEmail: Option<string>, outcome: AuthOutcome)
      returns (request: Option<ChangeRequest>, closed: bool)
      modifies this
      ensures request.None? <==> Validate(old(passwords), userEmail).Some?
      ensures request.None? ==>
                error == Validate(old(passwords), userEmail).value && passwords == old(passwords) && !closed
                && isSaving == old(isSaving)
      ensures request.Some? ==>
                request.value == ChangeRequest(userEmail.value, old(passwords).currentPassword, old(passwords).newPassword)
                && !isSaving
      ensures request.Some? && outcome.Changed? ==> closed && passwords == EmptyPasswords && error == ""
      ensures request.Some? && outcome.Failed? ==>
                !closed && passwords == old(passwords) && error == FailureMessage(outcome.code)
    {
      error := "";
      request, closed := None, false;
      var invalid := Validate(passwords, userEmail);
      if invalid.Some? {
        error := invalid.value;
        return;
      }
      isSaving := true;
      request := Some(ChangeRequest(userEmail.value, passwords.currentPassword, passwords.newPassword));
      match outcome {
        case Changed =>
          closed := true;
          passwords := EmptyPasswords;
        case Failed(code) =>
          error := FailureMessage(code);
      }
      isSaving := false;
    }

    /** `handleClose`: the error and every field are cleared. */
    method HandleClose()
      modifies this
      ensures error == "" && passwords == EmptyPasswords
      ensures isSaving == old(isSaving)
    {
      error := "";
      passwords := EmptyPasswords;
    }
  }
}

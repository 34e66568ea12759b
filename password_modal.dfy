/**
 * The password dialog (`src/components/PasswordModal.tsx`): a password field
 * with a show/hide toggle, an error line and a success state. The expected
 * password and the `onSuccess` / `onClose` callbacks are props; the caller
 * (the module grid) supplies them.
 */
module PasswordModal {

  const WrongPasswordError: string := "Password salah! Coba lagi."

  class Modal {
    var password: string
    var showPassword: bool
    var error: string
    var isSuccess: bool

    /** The success line and the error line are never shown together. */
    ghost predicate Valid()
      reads this
    {
      isSuccess ==> error == ""
    }

    constructor ()
      ensures Valid()
      ensures password == "" && !showPassword && error == "" && !isSuccess
    {
      password := "";
      showPassword := false;
      error := "";
      isSuccess := false;
    }

    /** The submit button's `disabled`: an empty field, or access already granted. */
    predicate SubmitDisabled()
      reads this
    {
      password == "" || isSuccess
    }

    /**
     * `handleSubmit`, reachable only while the submit button is enabled. The
     * typed password is compared exactly with `correctPassword`; on a match the
     * dialog shows success and the one-second timer that calls `onSuccess` and
     * then `handleClose` is scheduled (`accepted`); otherwise the error is shown
     * and the field cleared.
     */
    method HandleSubmit(correctPassword: string) returns (accepted: bool)
      requires Valid() && !SubmitDisabled()
      modifies this
      ensures Valid()
      ensures accepted <==> old(password) == correctPassword
      ensures accepted ==> isSuccess && error == "" && password == old(password)
      ensures !accepted ==> !isSuccess && error == WrongPasswordError && password == ""
      ensures showPassword == old(showPassword)
    {
      if password == correctPassword {
        isSuccess := true;
        error := "";
        accepted := true;
      } else {
        error := WrongPasswordError;
        password := "";
        accepted := false;
      }
    }

    /**
     * `handleClose` (the close button, the backdrop, or the success timer):
     * clears the field, the error and the success state, then calls `onClose`.
     * Whether the password is shown is kept.
     */
    method HandleClose()
      requires Valid()
      modifies this
      ensures Valid()
      ensures password == "" && error == "" && !isSuccess
      ensures showPassword == old(showPassword)
    {
      password := "";
      error := "";
      isSuccess := false;
    }

    /** The field's `onChange`: takes the new text and clears the error. */
    method ChangeInput(value: string)
      requires Valid()
      modifies this
      ensures Valid()
      ensures password == value && error == ""
      ensures showPassword == old(showPassword) && isSuccess == old(isSuccess)
    {
      password := value;
      error := "";
    }

    /** The eye button: flips whether the password is shown, nothing else. */
    method ToggleShowPassword()
      requires Valid()
      modifies this
      ensures Valid()
      ensures showPassword == !old(showPassword)
      ensures password == old(password) && error == old(error) && isSuccess == old(isSuccess)
    {
      showPassword := !showPassword;
    }
  }
}

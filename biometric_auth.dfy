/**
 * The architect access dialog (`src/components/BiometricAuth.tsx`): a
 * fingerprint button backed by the biometric hook, and a code that is typed
 * or entered on an on-screen keypad and compared with the master key and the
 * trigger code (props that default to the server's architect keys).
 */
module BiometricAuth {
  import opened JsStrings
  import VerifyModuleAccess

  const DefaultMasterKey: string := "Mr.M_Architect_2025"
  const DefaultTriggerCode: string := "012443410"
  const InvalidCodeError: string := "Kode tidak valid! ⚠️"

  const ClearKey: char := 'C'
  const SubmitKey: char := '✓'

  /** The keypad buttons in grid order; each label is a single character. */
  const KeypadKeys: seq<char> := ['1', '2', '3', '4', '5', '6', '7', '8', '9', ClearKey, '0', SubmitKey]

  /** Twelve distinct buttons: the ten digits, a clear key and a submit key. */
  lemma KeypadLayout()
    ensures |KeypadKeys| == 12
    ensures forall i, j :: 0 <= i < j < |KeypadKeys| ==> KeypadKeys[i] != KeypadKeys[j]
    ensures forall key :: key in KeypadKeys ==> IsDigit(key) || key == ClearKey || key == SubmitKey
    ensures forall d: char :: IsDigit(d) ==> d in KeypadKeys
    ensures ClearKey in KeypadKeys && SubmitKey in KeypadKeys && !IsDigit(ClearKey) && !IsDigit(SubmitKey)
  {
    forall d: char | IsDigit(d)
      ensures d in KeypadKeys
    {
      var i := (d as int) - ('0' as int);
      var k := if i == 0 then 10 else i - 1;
      assert KeypadKeys[k] == d;
    }
  }

  /** The code check of `handleCodeSubmit`: exactly the trigger code or exactly the master key. */
  predicate CodeAccepted(code: string, masterKey: string, triggerCode: string) {
    code == triggerCode || code == masterKey
  }

  /** With the default props, the dialog accepts exactly the codes the server accepts for an architect. */
  lemma DefaultsMatchServer(code: string)
    ensures CodeAccepted(code, DefaultMasterKey, DefaultTriggerCode) <==> VerifyModuleAccess.ArchitectValid(Some(code))
  {
  }

  /**
   * The keypad types only digits, so with the default props the only code it
   * can enter that is accepted is the trigger code: the master key holds letters.
   */
  lemma KeypadOnlyReachesTriggerCode(code: string)
    requires forall i :: 0 <= i < |code| ==> IsDigit(code[i])
    ensures CodeAccepted(code, DefaultMasterKey, DefaultTriggerCode) <==> code == DefaultTriggerCode
  {
    assert !IsDigit(DefaultMasterKey[0]);
  }

  class Dialog {
    const masterKey: string
    const triggerCode: string
    var inputCode: string
    var showKeypad: bool
    var error: string
    var isSuccess: bool

    constructor (masterKey: string := DefaultMasterKey, triggerCode: string := DefaultTriggerCode)
      ensures this.masterKey == masterKey && this.triggerCode == triggerCode
      ensures inputCode == "" && !showKeypad && error == "" && !isSuccess
    {
      this.masterKey := masterKey;
      this.triggerCode := triggerCode;
      inputCode := "";
      showKeypad := false;
      error := "";
      isSuccess := false;
    }

    /**
     * `handleCodeSubmit` (the verify button, or the keypad's submit key); its
     * controls exist only until access is granted. On an accepted code the
     * dialog shows success and schedules the one-second timer that calls
     * `onSuccess` and `handleClose` (`accepted`); otherwise it shows the error
     * and clears the code.
     */
    method HandleCodeSubmit() returns (accepted: bool)
      requires !isSuccess
      modifies this
      ensures accepted <==> CodeAccepted(old(inputCode), masterKey, triggerCode)
      ensures accepted ==> isSuccess && error == "" && inputCode == old(inputCode)
      ensures !accepted ==> !isSuccess && error == InvalidCodeError && inputCode == ""
      ensures showKeypad == old(showKeypad)
    {
      if inputCode == triggerCode || inputCode == masterKey {
        isSuccess := true;
        error := "";
        accepted := true;
      } else {
        error := InvalidCodeError;
        inputCode := "";
        accepted := false;
      }
    }

    /**
     * `handleKeypadPress(key)` for one of the keypad's buttons: the clear key
     * empties the code and the error, the submit key submits, and any other
     * key appends its label to the code.
     */
    method HandleKeypadPress(key: char) returns (accepted: bool)
      requires !isSuccess && showKeypad && key in KeypadKeys
      modifies this
      ensures key == ClearKey ==> !accepted && inputCode == "" && error == "" && !isSuccess
      ensures key == SubmitKey ==>
        && (accepted <==> CodeAccepted(old(inputCode), masterKey, triggerCode))
        && (accepted ==> isSuccess && error == "" && inputCode == old(inputCode))
        && (!accepted ==> !isSuccess && error == InvalidCodeError && inputCode == "")
      ensures key != ClearKey && key != SubmitKey ==>
        IsDigit(key) && !accepted && inputCode == old(inputCode) + [key] && error == old(error) && !isSuccess
      ensures showKeypad
    {
      KeypadLayout();
      if key == ClearKey {
        inputCode := "";
        error := "";
        accepted := false;
      } else if key == SubmitKey {
        accepted := HandleCodeSubmit();
      } else {
        inputCode := inputCode + [key];
        accepted := false;
      }
    }

    /** The code field's `onChange` (only the code: unlike the password dialog, the error stays). */
    method SetInputCode(value: string)
      modifies this
      ensures inputCode == value
      ensures error == old(error) && showKeypad == old(showKeypad) && isSuccess == old(isSuccess)
    {
      inputCode := value;
    }

    /** The keypad button of the text view. */
    method ShowKeypad()
      modifies this
      ensures showKeypad
      ensures inputCode == old(inputCode) && error == old(error) && isSuccess == old(isSuccess)
    {
      showKeypad := true;
    }

    /** The keypad view's button back to text input. */
    method HideKeypad()
      modifies this
      ensures !showKeypad
      ensures inputCode == old(inputCode) && error == old(error) && isSuccess == old(isSuccess)
    {
      showKeypad := false;
    }

    /**
     * `handleBiometricAuth`, given whether the hook's `authenticate()` resolved
     * to true: success then shows and the success timer is scheduled; a failure
     * changes nothing here (the hook keeps its own error).
     */
    method HandleBiometricAuth(authenticated: bool) returns (scheduled: bool)
      modifies this
      ensures scheduled == authenticated
      ensures isSuccess == (old(isSuccess) || authenticated)
      ensures inputCode == old(inputCode) && error == old(error) && showKeypad == old(showKeypad)
    {
      if authenticated {
        isSuccess := true;
      }
      scheduled := authenticated;
    }

    /** `handleClose`: every field back to its initial value, then `onClose`. */
    method HandleClose()
      modifies this
      ensures inputCode == "" && error == "" && !showKeypad && !isSuccess
    {
      inputCode := "";
      error := "";
      showKeypad := false;
      isSuccess := false;
    }
  }
}

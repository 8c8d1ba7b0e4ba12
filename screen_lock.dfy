/** The lock screen shown after five idle minutes: the user types their password to
    unlock, and Enter in the field does the same as the button. */
module ScreenLock {
  import opened Common
  import opened App

  const WrongPasswordAlert: string := "\U{274C} Galat Password! Kripya sahi password dalein."

  /** `passInput === user.password`; a user record without a password never unlocks. */
  predicate Unlocks(passInput: string, user: User) {
    user.password == Some(passInput)
  }

  class LockScreen {
    const shell: Shell
    var passInput: string
    var error: bool

    constructor (shell: Shell)
      ensures this.shell == shell && passInput == "" && !error
    {
      this.shell := shell;
      passInput, error := "", false;
    }

    /** `onChange` of the password field. */
    method Type(text: string)
      modifies this`passInput
      ensures passInput == text
    {
      passInput := text;
    }

    /** `handleUnlock`: the right password clears the lock and the error; a wrong one sets
        the error, empties the field, raises an alert and leaves the lock as it was. */
    method HandleUnlock(user: User) returns (alert: Option<string>)
      modifies this`passInput, this`error, shell`isLocked
      ensures Unlocks(old(passInput), user) ==> !shell.isLocked && !error && passInput == old(passInput) && alert.None?
      ensures !Unlocks(old(passInput), user) ==>
        shell.isLocked == old(shell.isLocked) && error && passInput == "" && alert == Some(WrongPasswordAlert)
    {
      if user.password == Some(passInput) {
        shell.isLocked := false;
        error := false;
        alert := None;
      } else {
        error := true;
        passInput := "";
        alert := Some(WrongPasswordAlert);
      }
    }

    /** `onKeyPress`: Enter unlocks exactly as the button does; any other key does nothing. */
    method KeyPress(key: string, user: User) returns (alert: Option<string>)
      modifies this`passInput, this`error, shell`isLocked
      ensures key == "Enter" && Unlocks(old(passInput), user) ==> !shell.isLocked && !error && passInput == old(passInput) && alert.None?
      ensures key == "Enter" && !Unlocks(old(passInput), user) ==>
        shell.isLocked == old(shell.isLocked) && error && passInput == "" && alert == Some(WrongPasswordAlert)
      ensures key != "Enter" ==> alert.None? && passInput == old(passInput) && error == old(error) && shell.isLocked == old(shell.isLocked)
    {
      alert := None;
      if key == "Enter" {
        alert := HandleUnlock(user);
      }
    }
  }
}

/** The login form: an arithmetic captcha, the trimmed employee id, and the user
    record stored on success. */
module Login {
  import opened Common
  import opened Text
  import opened App
  import Server

  datatype Captcha = Captcha(num1: int, num2: int, total: int)

  /** The body of `POST /api/login`. */
  datatype LoginRequest = LoginRequest(empId: string, password: string)

  /** The server's answer: accepted with the employee row, or rejected (a 401, a 403, a
      network error), with the message of the response body when there is one. */
  datatype LoginResponse = Accepted(user: Server.Employee) | Rejected(message: Option<string>)

  const InvalidCaptcha: string := "\U{274C} Invalid Captcha. Try again!"
  const IdRequired: string := "\U{26A0}\U{FE0F} Employee ID Required!"
  const ConnectionError: string := "\U{26A0}\U{FE0F} Server Connection Error"
  const LoginOk: string := "\U{2705} Login Successful!"

  /** `err.response?.data?.message || ConnectionError`: an absent or empty message
      falls back to the connection error. */
  function ErrorText(msg: Option<string>): string {
    if msg.Some? && msg.value != "" then msg.value else ConnectionError
  }

  /** `parseInt(userCaptcha) !== captcha.total` fails the captcha; NaN never equals. */
  predicate CaptchaPasses(answer: string, c: Captcha) {
    ParseInt(answer) == Some(c.total)
  }

  /** The sum written out in decimal passes. */
  lemma RightSumPasses(c: Captcha)
    requires c.total >= 0
    ensures CaptchaPasses(IntString(c.total), c)
  {
    ParseIntString(c.total);
  }

  /** `parseInt` reads only the leading digits, so an answer with trailing text passes. */
  lemma TrailingTextPasses()
    ensures CaptchaPasses("7 apples", Captcha(3, 4, 7))
    ensures !CaptchaPasses("seven", Captcha(3, 4, 7))
  {
    var answer := "7 apples";
    assert !IsSpace(answer[0]);
    assert TrimStart(answer) == answer;
    assert DigitOf(answer[1]).None?;
    assert DigitRun(answer[1..], 10) == [];
    assert DigitRun(answer, 10) == "7";
    assert DigitsValue("7", 10) == 7;
    assert ParseUnsigned(answer) == Some(7);
    var word := "seven";
    assert !IsSpace(word[0]) && DigitOf(word[0]).None?;
    assert TrimStart(word) == word;
    assert ParseUnsigned(word).None?;
  }

  class LoginForm {
    const shell: Shell
    var empId: string
    var password: string
    var loading: bool
    var captcha: Captcha
    var userCaptcha: string
    var message: Option<string>

    constructor (shell: Shell, d1: nat, d2: nat)
      requires d1 < 10 && d2 < 10
      ensures this.shell == shell && empId == "" && password == "" && !loading && userCaptcha == ""
      ensures captcha == Captcha(d1 + 1, d2 + 1, d1 + d2 + 2) && message.None?
    {
      this.shell := shell;
      empId, password, loading, userCaptcha, message := "", "", false, "", None;
      captcha := Captcha(d1 + 1, d2 + 1, d1 + d2 + 2);
    }

    /** `refreshCaptcha`, with `d1` and `d2` the values of `Math.floor(Math.random() * 10)`:
        two operands from 1 to 10, their sum, and an empty answer. */
    method RefreshCaptcha(d1: nat, d2: nat)
      requires d1 < 10 && d2 < 10
      modifies this`captcha, this`userCaptcha
      ensures 1 <= captcha.num1 <= 10 && 1 <= captcha.num2 <= 10
      ensures captcha.num1 == d1 + 1 && captcha.num2 == d2 + 1
      ensures captcha.total == captcha.num1 + captcha.num2
      ensures userCaptcha == ""
    {
      captcha := Captcha(d1 + 1, d2 + 1, d1 + 1 + d2 + 1);
      userCaptcha := "";
    }

    /** The success branch of `handleSubmit`: store `{...user, currentSessionId,
        loginTime: now}`, set it as the user and go to "/". */
    method Accept(row: Server.Employee, now: string)
      modifies this`loading, this`message, shell`user, shell`stored, shell`location, shell`timerArmed, shell`idleMs
      ensures shell.Valid()
      ensures shell.stored == Some(UserOf(row, now)) && shell.user == shell.stored && shell.location == "/"
      ensures !loading && message == Some(LoginOk)
    {
      var finalUser := UserOf(row, now);
      shell.stored := Some(finalUser);
      shell.SetUser(Some(finalUser));
      loading := false;
      message := Some(LoginOk);
      shell.location := "/";
    }

    /** The `catch` branch of `handleSubmit`: the server's message, or the connection
        error, and a new captcha. */
    method Reject(msg: Option<string>, d1: nat, d2: nat)
      requires d1 < 10 && d2 < 10
      modifies this`loading, this`message, this`captcha, this`userCaptcha
      ensures message == Some(ErrorText(msg))
      ensures captcha == Captcha(d1 + 1, d2 + 1, d1 + d2 + 2) && userCaptcha == "" && !loading
    {
      message := Some(ErrorText(msg));
      RefreshCaptcha(d1, d2);
      loading := false;
    }

    /** The captcha check of `handleSubmit`: a wrong answer shows the error and draws a
        new captcha; a right one changes nothing. */
    method CheckCaptcha(d1: nat, d2: nat) returns (passes: bool)
      requires d1 < 10 && d2 < 10
      modifies this`message, this`captcha, this`userCaptcha
      ensures passes == CaptchaPasses(old(userCaptcha), old(captcha))
      ensures !passes ==> message == Some(InvalidCaptcha) && captcha == Captcha(d1 + 1, d2 + 1, d1 + d2 + 2) && userCaptcha == ""
      ensures passes ==> message == old(message) && captcha == old(captcha) && userCaptcha == old(userCaptcha)
    {
      passes := CaptchaPasses(userCaptcha, captcha);
      if !passes {
        message := Some(InvalidCaptcha);
        RefreshCaptcha(d1, d2);
      }
    }

    /** The request of `handleSubmit` once both checks pass, and what its answer does. */
    method Send(clean: string, response: LoginResponse, now: string, d1: nat, d2: nat) returns (request: LoginRequest)
      requires d1 < 10 && d2 < 10 && shell.Valid()
      modifies this`loading, this`message, this`captcha, this`userCaptcha
      modifies shell`user, shell`stored, shell`location, shell`timerArmed, shell`idleMs
      ensures shell.Valid()
      ensures request == LoginRequest(clean, password) && !loading
      ensures response.Accepted? ==>
        shell.stored == Some(UserOf(response.user, now)) && shell.user == shell.stored
        && shell.location == "/" && message == Some(LoginOk)
      ensures response.Rejected? ==>
        shell.user == old(shell.user) && shell.stored == old(shell.stored)
        && message == Some(ErrorText(response.message))
        && captcha == Captcha(d1 + 1, d2 + 1, d1 + d2 + 2) && userCaptcha == ""
    {
      loading := true;
      request := LoginRequest(clean, password);
      if response.Accepted? {
        Accept(response.user, now);
      } else {
        Reject(response.message, d1, d2);
      }
    }

    /** `handleSubmit`. A wrong captcha sends nothing and draws a new one; a blank id
        sends nothing; otherwise the trimmed id is sent. An accepted login stores
        `{...user, currentSessionId, loginTime: now}` and goes to "/"; a rejected one
        shows the message and draws a new captcha. */
    method HandleSubmit(response: LoginResponse, now: string, d1: nat, d2: nat) returns (request: Option<LoginRequest>)
      requires d1 < 10 && d2 < 10 && shell.Valid()
      modifies this`loading, this`message, this`captcha, this`userCaptcha
      modifies shell`user, shell`stored, shell`location, shell`timerArmed, shell`idleMs
      ensures shell.Valid()
      ensures empId == old(empId) && password == old(password)
      ensures if !CaptchaPasses(old(userCaptcha), old(captcha)) then
          request.None? && message == Some(InvalidCaptcha) && captcha == Captcha(d1 + 1, d2 + 1, d1 + d2 + 2)
          && userCaptcha == "" && shell.user == old(shell.user) && loading == old(loading)
        else if Trim(empId) == "" then
          request.None? && message == Some(IdRequired) && captcha == old(captcha) && shell.user == old(shell.user)
        else
          request == Some(LoginRequest(Trim(empId), password)) && !loading
          && (response.Accepted? ==>
            shell.stored == Some(UserOf(response.user, now)) && shell.user == shell.stored
            && shell.location == "/" && message == Some(LoginOk))
          && (response.Rejected? ==>
            shell.user == old(shell.user) && shell.stored == old(shell.stored)
            && message == Some(ErrorText(response.message))
            && captcha == Captcha(d1 + 1, d2 + 1, d1 + d2 + 2) && userCaptcha == "")
    {
      var passes := CheckCaptcha(d1, d2);
      if !passes {
        request := None;
      } else if Trim(empId) == "" {
        message := Some(IdRequired);
        request := None;
      } else {
        var sent := Send(Trim(empId), response, now, d1, d2);
        request := Some(sent);
      }
    }
  }
}

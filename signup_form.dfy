/** The client's signup form: three checks in a fixed order before any
    request, then the three session keys written from the answer. */
module SignupForm {
  import opened Common
  import opened Http
  import opened Browser

  /** A character JavaScript's `\s` class matches. */
  predicate IsSpace(c: char) {
    c == '\t' || c == '\n' || c == '\U{B}' || c == '\U{C}' || c == '\r' || c == ' ' ||
    c == '\U{A0}' || c == '\U{1680}' || '\U{2000}' <= c <= '\U{200A}' || c == '\U{2028}' || c == '\U{2029}' ||
    c == '\U{202F}' || c == '\U{205F}' || c == '\U{3000}' || c == '\U{FEFF}'
  }

  /** Neither whitespace nor `@` appears in `s`, except the `@` at `at`. */
  predicate PlainExcept(s: string, at: int) {
    forall k :: 0 <= k < |s| && k != at ==> s[k] != '@' && !IsSpace(s[k])
  }

  /** `^[^\s@]+@[^\s@]+\.[^\s@]+$` matches `s` with its `@` at `a` and the
      escaped `.` at `d`. */
  predicate EmailWitness(s: string, a: int, d: int) {
    0 < a && a + 2 <= d && d + 2 <= |s| && s[a] == '@' && s[d] == '.' && PlainExcept(s, a)
  }

  /** The regular expression, stated as the existence of a match. */
  ghost predicate MatchesEmailPattern(s: string) {
    exists a, d :: EmailWitness(s, a, d)
  }

  /** `validateEmail` as a scan: a single `@`, not first, no whitespace at
      all, and a `.` in the domain that is neither its first nor the last
      character of the address. */
  predicate ValidateEmail(email: string) {
    var a := NextAt(email, 0);
    0 < a < |email| && NextAt(email, a + 1) == |email| &&
    (forall k :: 0 <= k < |email| ==> !IsSpace(email[k])) &&
    a + 2 <= |email| - 1 && '.' in email[a + 2..|email| - 1]
  }

  lemma {:induction false} ScanFindsMatch(s: string)
    requires ValidateEmail(s)
    ensures MatchesEmailPattern(s)
  {
    var a := NextAt(s, 0);
    var run := s[a + 2..|s| - 1];
    var j :| 0 <= j < |run| && run[j] == '.';
    var d := a + 2 + j;
    assert s[d] == run[j];
    assert PlainExcept(s, a);
    assert EmailWitness(s, a, d);
  }

  lemma {:induction false} MatchPassesScan(s: string, a: int, d: int)
    requires EmailWitness(s, a, d)
    ensures ValidateEmail(s)
  {
    assert NextAt(s, 0) == a;
    assert NextAt(s, a + 1) == |s|;
    var run := s[a + 2..|s| - 1];
    assert run[d - (a + 2)] == s[d];
  }

  /** The scan accepts exactly the addresses the regular expression matches. */
  lemma {:induction false} ValidateEmailMatchesPattern(s: string)
    ensures ValidateEmail(s) <==> MatchesEmailPattern(s)
  {
    if ValidateEmail(s) {
      ScanFindsMatch(s);
    }
    if MatchesEmailPattern(s) {
      var a, d :| EmailWitness(s, a, d);
      MatchPassesScan(s, a, d);
    }
  }

  /** The pattern spelled out: exactly one `@`, a non-empty local part,
      no whitespace anywhere, and a `.` in the domain with text on both sides. */
  lemma {:induction false} ValidEmailShape(s: string)
    requires ValidateEmail(s)
    ensures exists a :: 0 < a < |s| && s[a] == '@' && (forall k :: 0 <= k < |s| && k != a ==> s[k] != '@')
    ensures forall k :: 0 <= k < |s| ==> !IsSpace(s[k])
    ensures exists d :: NextAt(s, 0) + 2 <= d <= |s| - 2 && s[d] == '.'
  {
    ScanFindsMatch(s);
    var a, d :| EmailWitness(s, a, d);
    assert NextAt(s, 0) == a;
    assert forall k :: 0 <= k < |s| && k != a ==> s[k] != '@';
  }

  /** Any whitespace, even trailing, makes an address invalid. */
  lemma WhitespaceRejected(s: string, k: int)
    requires 0 <= k < |s| && IsSpace(s[k])
    ensures !ValidateEmail(s)
  {
  }

  /** A second `@` makes an address invalid. */
  lemma SecondAtRejected(s: string, i: int, j: int)
    requires 0 <= i < j < |s| && s[i] == '@' && s[j] == '@'
    ensures !ValidateEmail(s)
  {
  }

  const AllFieldsRequiredText: string := "All fields are required."
  const InvalidEmailText: string := "Invalid email format."
  const ShortPasswordText: string := "Password must be at least 6 characters long."
  const SignupFailedText: string := "Signup failed."
  const RegisteredText: string := "User registered successfully!"

  /** The checks before the request, first failure wins; `None` when the
      request is sent. */
  function CheckSignupForm(name: string, email: string, password: string): (r: Option<string>)
    ensures r.None? <==> name != "" && email != "" && password != "" && ValidateEmail(email) && |password| >= 6
    ensures r == Some(AllFieldsRequiredText) <==> name == "" || email == "" || password == ""
    ensures r == Some(InvalidEmailText) <==> name != "" && email != "" && password != "" && !ValidateEmail(email)
    ensures r == Some(ShortPasswordText) <==>
              name != "" && email != "" && password != "" && ValidateEmail(email) && |password| < 6
  {
    if name == "" || email == "" || password == "" then Some(AllFieldsRequiredText)
    else if !ValidateEmail(email) then Some(InvalidEmailText)
    else if |password| < 6 then Some(ShortPasswordText)
    else None
  }

  /** The length check is `< 6`: six characters pass, five do not. */
  lemma PasswordBoundary(name: string, email: string)
    requires name != "" && ValidateEmail(email)
    ensures CheckSignupForm(name, email, "abcdef").None?
    ensures CheckSignupForm(name, email, "abcde") == Some(ShortPasswordText)
  {
  }

  /** The fields the form edits. */
  datatype Field = Name | Email | Password

  class Form {
    var name: string
    var email: string
    var password: string
    var loading: bool
    var message: string
    var messageType: string

    constructor ()
      ensures name == "" && email == "" && password == ""
      ensures !loading && message == "" && messageType == ""
    {
      name, email, password := "", "", "";
      loading := false;
      message, messageType := "", "";
    }

    /** `handleChange`: only the named field takes the new value. */
    method HandleChange(field: Field, value: string)
      modifies this`name, this`email, this`password
      ensures field == Name ==> name == value && email == old(email) && password == old(password)
      ensures field == Email ==> email == value && name == old(name) && password == old(password)
      ensures field == Password ==> password == value && name == old(name) && email == old(email)
    {
      match field
      case Name => name := value;
      case Email => email := value;
      case Password => password := value;
    }

    /** The JSON body posted: the form as it stands. */
    function Payload(): (m: map<string, string>)
      reads this
      ensures m.Keys == {"name", "email", "password"}
      ensures m["name"] == name && m["email"] == email && m["password"] == password
    {
      map["name" := name, "email" := email, "password" := password]
    }

    /** `handleSubmit`. `response` is what the request would come back with;
        `sent` says whether it was made. On a 201 the message is the
        server's or the default, and the three keys are written from the
        answer (the name is not in the server's answer, so it is stored
        as "undefined"); then the dashboard is opened after a delay. */
    method HandleSubmit(storage: Storage, response: Outcome<map<string, string>>) returns (sent: bool, fx: Effects)
      modifies this`loading, this`message, this`messageType, storage
      ensures !loading
      ensures sent <==> CheckSignupForm(name, email, password).None?
      ensures !sent ==>
                message == CheckSignupForm(name, email, password).value && messageType == "error" &&
                storage.items == old(storage.items) && fx == NoEffects
      ensures sent && response.Resolved? && response.status == 201 ==>
                message == OrElse(Get(response.data, "message"), RegisteredText) && messageType == "success" &&
                storage.items == old(storage.items)[AccessToken := StoredText(Get(response.data, "access_token"))]
                                                   [UserId := StoredText(Get(response.data, "user_id"))]
                                                   [UserName := StoredText(Get(response.data, "name"))] &&
                fx == Effects(None, [], Some("/dashboard"))
      ensures sent && response.Resolved? && response.status != 201 ==>
                message == "" && messageType == "" && storage.items == old(storage.items) && fx == NoEffects
      ensures sent && !response.Resolved? ==>
                message == ExplainedFailure(response, SignupFailedText) && messageType == "error" &&
                storage.items == old(storage.items) && fx == NoEffects
    {
      loading := true;
      message := "";
      messageType := "";
      fx := NoEffects;
      var problem := CheckSignupForm(name, email, password);
      if problem.Some? {
        message := problem.value;
        messageType := "error";
        loading := false;
        return false, fx;
      }
      sent := true;
      match response {
        case Resolved(status, data) =>
          if status == 201 {
            message := OrElse(Get(data, "message"), RegisteredText);
            messageType := "success";
            storage.WriteSession(Get(data, "access_token"), Get(data, "user_id"), Get(data, "name"));
            fx := Effects(None, [], Some("/dashboard"));
          }
        case _ =>
          messageType := "error";
          message := ExplainedFailure(response, SignupFailedText);
      }
      loading := false;
    }
  }

  /** A short password is refused before any request, whatever the other
      fields hold, and storage is untouched. */
  method ShortPasswordScenario(storage: Storage, response: Outcome<map<string, string>>,
                               name: string, email: string, password: string)
    requires name != "" && ValidateEmail(email) && 0 < |password| < 6
    modifies storage
    ensures storage.items == old(storage.items)
  {
    var form := new Form();
    form.HandleChange(Name, name);
    form.HandleChange(Email, email);
    form.HandleChange(Password, password);
    var sent, fx := form.HandleSubmit(storage, response);
    assert !sent;
    assert form.message == ShortPasswordText;
  }
}

/** The login form; the admin and the client console carry the same
    handler, differing only in the page they go to afterwards. */
module LoginForm {
  import opened Common
  import opened Http
  import opened Browser

  const LoginFailedText: string := "Login failed"
  const NetworkErrorText: string := "Network error. Please try again."

  /** The message set when the login call rejects. */
  function FailureMessage<T>(response: Outcome<T>): (m: string)
    requires !response.Resolved?
    ensures response.Rejected? && Truthy(Get(response.body, "error")) ==> m == response.body["error"]
    ensures response.Rejected? && !Truthy(Get(response.body, "error")) ==> m == LoginFailedText
    ensures !response.Rejected? ==> m == NetworkErrorText
  {
    if response.Rejected? then OrElse(Get(response.body, "error"), LoginFailedText) else NetworkErrorText
  }

  class Form {
    const home: string
    const hasSetter: bool
    var email: string
    var password: string
    var loading: bool
    var message: string
    var messageType: string

    /** The admin form goes to `/applications` after logging in. */
    constructor ForAdmin(hasSetter: bool)
      ensures home == "/applications" && this.hasSetter == hasSetter
      ensures email == "" && password == "" && !loading && message == "" && messageType == ""
    {
      home := "/applications";
      this.hasSetter := hasSetter;
      email, password := "", "";
      loading := false;
      message, messageType := "", "";
    }

    /** The client form goes to `/dashboard` after logging in. */
    constructor ForClient(hasSetter: bool)
      ensures home == "/dashboard" && this.hasSetter == hasSetter
      ensures email == "" && password == "" && !loading && message == "" && messageType == ""
    {
      home := "/dashboard";
      this.hasSetter := hasSetter;
      email, password := "", "";
      loading := false;
      message, messageType := "", "";
    }

    method ChangeEmail(value: string)
      modifies this`email
      ensures email == value
    {
      email := value;
    }

    method ChangePassword(value: string)
      modifies this`password
      ensures password == value
    {
      password := value;
    }

    /** `handleSubmit`: no field is checked before the request. On HTTP 200
        the three keys are written from the answer, then the flag is set
        (when the setter was passed), `storage` is dispatched and the home
        page opened; a failure writes nothing and sets the error message. */
    method HandleSubmit(storage: Storage, response: Outcome<map<string, string>>) returns (fx: Effects)
      modifies this`loading, this`message, this`messageType, storage
      ensures !loading
      ensures response.Resolved? && response.status == 200 ==>
                storage.items == old(storage.items)[AccessToken := StoredText(Get(response.data, "access_token"))]
                                                   [UserId := StoredText(Get(response.data, "user_id"))]
                                                   [UserName := StoredText(Get(response.data, "name"))] &&
                fx == Effects(if hasSetter then Some(true) else None, [StorageEvent], Some(home)) &&
                message == "" && messageType == ""
      ensures response.Resolved? && response.status != 200 ==>
                storage.items == old(storage.items) && fx == NoEffects && message == "" && messageType == ""
      ensures !response.Resolved? ==>
                storage.items == old(storage.items) && fx == NoEffects &&
                messageType == "error" && message == FailureMessage(response)
    {
      loading := true;
      message := "";
      messageType := "";
      fx := NoEffects;
      match response {
        case Resolved(status, data) =>
          if status == 200 {
            storage.WriteSession(Get(data, "access_token"), Get(data, "user_id"), Get(data, "name"));
            fx := Effects(if hasSetter then Some(true) else None, [StorageEvent], Some(home));
          }
        case _ =>
          messageType := "error";
          message := FailureMessage(response);
      }
      loading := false;
    }
  }
}

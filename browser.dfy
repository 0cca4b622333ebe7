/** The browser pieces the consoles share: `localStorage`, the two window
    events used to announce a change of session, and the effects a handler
    asks of its parent (set the flag, dispatch events, navigate). */
module Browser {
  import opened Common

  const AccessToken: string := "access_token"
  const UserId: string := "user_id"
  const UserName: string := "user_name"

  /** The three keys a session occupies in storage. */
  const SessionKeys: set<string> := {AccessToken, UserId, UserName}

  /** Window events: the `storage` event and the custom `app-logout` event. */
  datatype Event = StorageEvent | AppLogout

  /** What a handler does outside its own component, in order:
      call `setIsLoggedIn` (when given), dispatch events, navigate. */
  datatype Effects = Effects(setIsLoggedIn: Option<bool>, events: seq<Event>, navigateTo: Option<string>)

  const NoEffects: Effects := Effects(None, [], None)

  /** `!!localStorage.getItem('access_token')`. */
  predicate HasSession(items: map<string, string>) {
    AccessToken in items && items[AccessToken] != ""
  }

  /** `localStorage.setItem(k, v)` stores `String(v)`, so an undefined value
      is stored as the text "undefined". */
  function StoredText(v: Option<string>): (r: string)
    ensures v.Some? ==> r == v.value
    ensures v.None? ==> r == "undefined"
  {
    match v
    case None => "undefined"
    case Some(s) => s
  }

  /** The browser's key/value storage. */
  class Storage {
    var items: map<string, string>

    constructor (init: map<string, string>)
      ensures items == init
    {
      items := init;
    }

    function GetItem(key: string): (r: Option<string>)
      reads this
      ensures r.Some? <==> key in items
      ensures r.Some? ==> r.value == items[key]
    {
      if key in items then Some(items[key]) else None
    }

    method SetItem(key: string, value: Option<string>)
      modifies this
      ensures items == old(items)[key := StoredText(value)]
    {
      items := items[key := StoredText(value)];
    }

    method RemoveItem(key: string)
      modifies this
      ensures items == old(items) - {key}
    {
      items := items - {key};
    }

    /** The three `setItem` calls a successful login or signup makes. */
    method WriteSession(token: Option<string>, userId: Option<string>, userName: Option<string>)
      modifies this
      ensures items == old(items)[AccessToken := StoredText(token)][UserId := StoredText(userId)][UserName := StoredText(userName)]
    {
      SetItem(AccessToken, token);
      SetItem(UserId, userId);
      SetItem(UserName, userName);
    }

    /** The three `removeItem` calls a logout makes. */
    method ClearSession()
      modifies this
      ensures items == old(items) - SessionKeys
      ensures !HasSession(items)
    {
      RemoveItem(AccessToken);
      RemoveItem(UserId);
      RemoveItem(UserName);
    }
  }

  /** A stored session figures as logged in even when the server sent no
      token, because the text "undefined" is not empty. */
  lemma MissingTokenStillCountsAsSession(items: map<string, string>)
    ensures HasSession(items[AccessToken := StoredText(None)])
  {
  }
}

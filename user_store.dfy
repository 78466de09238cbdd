/**
 * The user store of the tracking engine (tracker_core/src/store/user_store.rs): the user name shown and
 * whether the user logged in. The OS lookup of the logon name is an input.
 */
module UserStore {
  import opened Wrappers

  /** Why the OS could not give the logon name. */
  datatype LookupError = LookupFailed

  /** `UserActions`. */
  datatype UserAction = NoAction | ChangeUsername(newUsername: string) | InitConfig

  const GuestName: string := "Guest"

  /** The fields of `UserState`. */
  datatype UserView = UserView(username: string, isLogged: bool)

  /** The state a reducer call leaves, from the state before it, the action and the answer of `get_username`. */
  function UserStep(v: UserView, action: UserAction, logonName: Result<string, LookupError>): UserView {
    match action
    case ChangeUsername(name) => v.(username := name)
    case InitConfig => UserView(if logonName.Ok? then logonName.value else v.username, false)
    case NoAction => v
  }

  /** `UserState`. */
  class UserState {
    var username: string
    var isLogged: bool

    function View(): UserView
      reads this
    {
      UserView(username, isLogged)
    }

    /** `UserState::default`: a guest who is not logged in. */
    constructor()
      ensures username == GuestName && !isLogged
    {
      username := GuestName;
      isLogged := false;
    }

    /** `change_username`: the name becomes `newName` (nothing is written when it already is); the login flag stays. */
    method ChangeUsername(newName: string)
      modifies this
      ensures View() == old(View()).(username := newName)
    {
      if username == newName {
        return;
      }
      username := newName;
    }

    /**
     * `init_username`: a logged-in user reaches `todo!()`, reported as `panicked` with nothing changed;
     * otherwise the name becomes the logon name when the OS gives one and stays when it does not.
     */
    method InitUsername(logonName: Result<string, LookupError>) returns (panicked: bool)
      modifies this
      ensures panicked <==> old(isLogged)
      ensures isLogged == old(isLogged)
      ensures !panicked && logonName.Ok? ==> username == logonName.value
      ensures panicked || logonName.Err? ==> username == old(username)
    {
      if isLogged {
        return true;
      }
      panicked := false;
      match logonName {
        case Ok(name) => username := name;
        case Err(_) =>
      }
    }

    /** `reducer`: `InitConfig` clears the login flag before `init_username`, so it never reaches `todo!()`. */
    method Reduce(action: UserAction, logonName: Result<string, LookupError>) returns (panicked: bool)
      modifies this
      ensures View() == UserStep(old(View()), action, logonName)
      ensures !panicked
    {
      panicked := false;
      match action {
        case ChangeUsername(name) =>
          ChangeUsername(name);
        case InitConfig =>
          isLogged := false;
          panicked := InitUsername(logonName);
        case NoAction =>
      }
    }
  }

  // ----- Properties -----

  /**
   * `InitConfig` always leaves the user logged out, a name change keeps the flag, and any other action
   * changes nothing.
   */
  lemma StepLogsOut(v: UserView, action: UserAction, logonName: Result<string, LookupError>)
    ensures UserStep(v, action, logonName).isLogged == (v.isLogged && !action.InitConfig?)
    ensures action.NoAction? ==> UserStep(v, action, logonName) == v
  {
  }

  /** Changing to the current name changes nothing; changing twice is changing once. */
  lemma ChangeUsernameIdempotent(v: UserView, name: string, logonName: Result<string, LookupError>)
    ensures UserStep(v, ChangeUsername(v.username), logonName) == v
    ensures var once := UserStep(v, ChangeUsername(name), logonName);
      UserStep(once, ChangeUsername(name), logonName) == once
  {
  }

  /** A failed logon lookup keeps whatever name was there. */
  lemma InitConfigKeepsNameOnFailure(v: UserView)
    ensures UserStep(v, InitConfig, Err(LookupFailed)) == v.(isLogged := false)
  {
  }
}

/**
 * The client-side store of the signed-in account (lib/redux/slices/userSlice.ts): five optional
 * fields and a flag saying whether an account has been loaded.
 */
module UserSlice {
  import opened Wrappers

  /** The five fields `setUser` copies. */
  datatype UserFields = UserFields(id: Option<string>, email: Option<string>, firstName: Option<string>,
                                   lastName: Option<string>, imageUrl: Option<string>)

  /** A whole state of the store. */
  datatype UserState = UserState(fields: UserFields, isLoaded: bool)

  /** `initialState`: nothing known, nothing loaded. */
  const Initial: UserState := UserState(UserFields(None, None, None, None, None), false)

  class UserStore {
    var id: Option<string>
    var email: Option<string>
    var firstName: Option<string>
    var lastName: Option<string>
    var imageUrl: Option<string>
    var isLoaded: bool

    /** The store's state as one value. */
    function State(): UserState
      reads this
    {
      UserState(UserFields(id, email, firstName, lastName, imageUrl), isLoaded)
    }

    constructor()
      ensures State() == Initial
    {
      id := None;
      email := None;
      firstName := None;
      lastName := None;
      imageUrl := None;
      isLoaded := false;
    }

    /** `setUser`: the payload's five fields, loaded, whatever was there before. */
    method SetUser(p: UserFields)
      modifies this
      ensures State() == UserState(p, true)
    {
      id := p.id;
      email := p.email;
      firstName := p.firstName;
      lastName := p.lastName;
      imageUrl := p.imageUrl;
      isLoaded := true;
    }

    /** `clearUser`: back to the initial state, from any state, so clearing twice is clearing once. */
    method ClearUser()
      modifies this
      ensures State() == Initial
    {
      id := None;
      email := None;
      firstName := None;
      lastName := None;
      imageUrl := None;
      isLoaded := false;
    }
  }
}

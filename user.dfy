/** The signed-in user (store/slices/userSlice.ts): profile and plan limits after Google sign-in. */
module UserSlice {
  import opened Js

  datatype SubscriptionInfo = SubscriptionInfo(planName: string, noteDailyLimit: int, noteMonthlyLimit: int)

  datatype UserInfo = UserInfo(
    id: Option<string>,
    email: string,
    name: string,
    photo: Option<string>,
    subscription: SubscriptionInfo)

  /** The server's sign-in response (its `type` property is `tokenType` here). */
  datatype AuthResponse = AuthResponse(
    token: string,
    tokenType: string,
    userId: string,
    email: string,
    name: string,
    profilePictureUrl: string,
    subscription: SubscriptionInfo)

  const LOGIN_FAILED: string := "Login failed"

  /** The profile built from a sign-in response, field by field. */
  function UserInfoOf(r: AuthResponse): UserInfo {
    UserInfo(
      Some(r.userId),
      r.email,
      r.name,
      Some(r.profilePictureUrl),
      SubscriptionInfo(r.subscription.planName, r.subscription.noteDailyLimit, r.subscription.noteMonthlyLimit))
  }

  /**
   * Two sign-in responses give the same profile exactly when they agree on the user id, email,
   * name, picture and the three plan fields: the token and its type are not kept.
   */
  lemma UserInfoOfKeeps(a: AuthResponse, b: AuthResponse)
    ensures UserInfoOf(a) == UserInfoOf(b) <==>
      && a.userId == b.userId && a.email == b.email && a.name == b.name
      && a.profilePictureUrl == b.profilePictureUrl
      && a.subscription == b.subscription
  {
  }

  /** The profile names the response's user id as `id` and its picture as `photo`. */
  lemma UserInfoOfFields(r: AuthResponse)
    ensures var u := UserInfoOf(r);
      u.id == Some(r.userId) && u.photo == Some(r.profilePictureUrl) && u.subscription == r.subscription
      && u.email == r.email && u.name == r.name
  {
  }

  class UserStore {
    var userInfo: Option<UserInfo>
    var loading: bool
    var error: Option<string>

    constructor ()
      ensures userInfo == None && !loading && error == None
    {
      userInfo, loading, error := None, false, None;
    }

    method SetUserInfo(info: UserInfo)
      modifies this
      ensures userInfo == Some(info)
      ensures loading == old(loading) && error == old(error)
    {
      userInfo := Some(info);
    }

    /** Signing out clears the profile and the error, but not `loading`. */
    method ClearUserInfo()
      modifies this
      ensures userInfo == None && error == None
      ensures loading == old(loading)
    {
      userInfo := None;
      error := None;
    }

    method LoginPending()
      modifies this
      ensures loading && error == None
      ensures userInfo == old(userInfo)
    {
      loading := true;
      error := None;
    }

    method LoginFulfilled(payload: AuthResponse)
      modifies this
      ensures !loading && userInfo == Some(UserInfoOf(payload))
      ensures error == old(error)
    {
      loading := false;
      userInfo := Some(UserInfoOf(payload));
    }

    method LoginRejected(message: Field)
      modifies this
      ensures !loading && error == Some(OrDefault(message, LOGIN_FAILED))
      ensures userInfo == old(userInfo)
    {
      loading := false;
      error := Some(OrDefault(message, LOGIN_FAILED));
    }
  }
}

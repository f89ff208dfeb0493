/** The client-side authentication store: the signed-in account, the shop
    user record, two authentication flags, a loading flag and the last error.
    The sign-in, sign-up and sign-out calls are passed in as their outcomes. */
module Auth {
  import opened Base
  import Store

  /** The signed-in account of the authentication service. */
  datatype AccountUser = AccountUser(uid: string, email: Option<string>)

  class AuthStore {
    var user: Option<AccountUser>
    var smarteenUser: Option<Store.User>
    var isAuthenticated: bool
    var isShopAuthenticated: bool
    var isLoading: bool
    var error: Option<string>

    /** Between actions the store is not loading and is authenticated
        exactly when it holds an account. */
    predicate Valid()
      reads this
    {
      isAuthenticated == user.Some? && !isLoading
    }

    constructor ()
      ensures Valid()
      ensures user.None? && smarteenUser.None? && !isAuthenticated && !isShopAuthenticated && error.None?
    {
      user, smarteenUser := None, None;
      isAuthenticated, isShopAuthenticated, isLoading := false, false, false;
      error := None;
    }

    /** `login` and `register`: clear the error and load; on success store
        the account and set both flags; on failure store the message and
        re-throw, keeping the account. */
    method SignInWith(outcome: Result<AccountUser>, fallback: string) returns (r: Result<AccountUser>)
      requires Valid()
      modifies this
      ensures Valid() && r == outcome && smarteenUser == old(smarteenUser)
      ensures outcome.Ok? ==>
        user == Some(outcome.value) && isAuthenticated && isShopAuthenticated && error.None?
      ensures outcome.Err? ==>
        user == old(user) && isAuthenticated == old(isAuthenticated)
        && isShopAuthenticated == old(isShopAuthenticated) && error == Some(MessageOr(outcome.error, fallback))
    {
      isLoading, error := true, None;
      if outcome.Ok? {
        user, isAuthenticated, isShopAuthenticated, isLoading := Some(outcome.value), true, true, false;
      } else {
        error, isLoading := Some(MessageOr(outcome.error, fallback)), false;
      }
      return outcome;
    }

    method Login(outcome: Result<AccountUser>) returns (r: Result<AccountUser>)
      requires Valid()
      modifies this
      ensures Valid() && r == outcome && smarteenUser == old(smarteenUser)
      ensures outcome.Ok? ==>
        user == Some(outcome.value) && isAuthenticated && isShopAuthenticated && error.None?
      ensures outcome.Err? ==>
        user == old(user) && isAuthenticated == old(isAuthenticated)
        && isShopAuthenticated == old(isShopAuthenticated) && error == Some(MessageOr(outcome.error, "Erreur de connexion"))
    {
      r := SignInWith(outcome, "Erreur de connexion");
    }

    method Register(outcome: Result<AccountUser>) returns (r: Result<AccountUser>)
      requires Valid()
      modifies this
      ensures Valid() && r == outcome && smarteenUser == old(smarteenUser)
      ensures outcome.Ok? ==>
        user == Some(outcome.value) && isAuthenticated && isShopAuthenticated && error.None?
      ensures outcome.Err? ==>
        user == old(user) && isAuthenticated == old(isAuthenticated)
        && isShopAuthenticated == old(isShopAuthenticated) && error == Some(MessageOr(outcome.error, "Erreur d'inscription"))
    {
      r := SignInWith(outcome, "Erreur d'inscription");
    }

    /** `logout`: on success everything is reset; on failure the account is
        kept, the message stored and nothing re-thrown. */
    method Logout(outcome: Outcome)
      requires Valid()
      modifies this
      ensures Valid()
      ensures outcome.Done? ==>
        user.None? && smarteenUser.None? && !isAuthenticated && !isShopAuthenticated && error.None?
      ensures outcome.Failed? ==>
        user == old(user) && smarteenUser == old(smarteenUser) && isAuthenticated == old(isAuthenticated)
        && isShopAuthenticated == old(isShopAuthenticated)
        && error == Some(MessageOr(outcome.error, "Erreur de déconnexion"))
    {
      isLoading := true;
      if outcome.Done? {
        user, smarteenUser := None, None;
        isAuthenticated, isShopAuthenticated, isLoading := false, false, false;
        error := None;
      } else {
        error, isLoading := Some(MessageOr(outcome.error, "Erreur de déconnexion")), false;
      }
    }

    method SetUser(u: Option<AccountUser>, shopAuthenticated: bool)
      requires Valid()
      modifies this
      ensures Valid()
      ensures user == u && isAuthenticated == u.Some? && isShopAuthenticated == shopAuthenticated
      ensures smarteenUser == old(smarteenUser) && error == old(error)
    {
      user, isAuthenticated, isShopAuthenticated := u, u.Some?, shopAuthenticated;
    }

    method SetSmartteenUser(u: Option<Store.User>)
      requires Valid()
      modifies this
      ensures Valid()
      ensures smarteenUser == u
      ensures user == old(user) && isAuthenticated == old(isAuthenticated)
      ensures isShopAuthenticated == old(isShopAuthenticated) && error == old(error)
    {
      smarteenUser := u;
    }

    method ClearError()
      requires Valid()
      modifies this
      ensures Valid()
      ensures error.None?
      ensures user == old(user) && smarteenUser == old(smarteenUser) && isAuthenticated == old(isAuthenticated)
      ensures isShopAuthenticated == old(isShopAuthenticated) && isLoading == old(isLoading)
    {
      error := None;
    }
  }
}

/** The client's session store (frontend/src/store/useAuthStore.js): the
    signed-in user, whether the session is authenticated, and the page
    shown. */
module AuthStore {
  import opened Lists

  /** The signed-in user as the identity provider hands it over; the store
      only keeps it. */
  datatype User = User(uid: string, email: Option<string>)

  class Session {
    var user: Option<User>
    var isAuthenticated: bool
    var currentPage: string

    /** A session is authenticated exactly when it holds a user. */
    predicate Valid()
      reads this
    {
      isAuthenticated <==> user.Some?
    }

    /** The store starts signed out on the home page. */
    constructor ()
      ensures user.None? && !isAuthenticated && currentPage == "home"
      ensures Valid()
    {
      user, isAuthenticated, currentPage := None, false, "home";
    }

    /** `login`: the user kept, the session authenticated, the dashboard
      shown. Passing no user leaves an authenticated session without one. */
    method Login(u: Option<User>)
      modifies this
      ensures user == u && isAuthenticated && currentPage == "dashboard"
      ensures Valid() <==> u.Some?
    {
      user, isAuthenticated, currentPage := u, true, "dashboard";
    }

    /** `logout`: back to the signed-out home page. */
    method Logout()
      modifies this
      ensures user.None? && !isAuthenticated && currentPage == "home"
      ensures Valid()
    {
      user, isAuthenticated, currentPage := None, false, "home";
    }

    /** `setCurrentPage`: only the page changes. */
    method SetCurrentPage(page: string)
      modifies this
      ensures currentPage == page
      ensures user == old(user) && isAuthenticated == old(isAuthenticated)
      ensures old(Valid()) ==> Valid()
    {
      currentPage := page;
    }
  }
}

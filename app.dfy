/** The app shell: which role is active, and which page that role sees. */
module AppRoot {
  import opened Types
  import opened Storage

  /** The three pages the shell can render. */
  datatype Page = Landing | ClientPage | WorkerPage

  /** The page for the active role: the landing page when nobody is signed
      in, the client's page for a client, and the worker's board otherwise. */
  function PageFor(role: Role): (p: Page)
    ensures p == Landing <==> role == NoRole
    ensures p == ClientPage <==> role == Client
    ensures p == WorkerPage <==> role == Worker
  {
    match role
    case NoRole => Landing
    case Client => ClientPage
    case Worker => WorkerPage
  }

  /** The shell's state: `currentRole` and `isLoggingIn`. */
  class App {
    const store: MockStore
    var currentRole: Role
    var isLoggingIn: bool

    /** First render: nobody signed in, so the landing page shows. */
    constructor (store: MockStore)
      ensures this.store == store && currentRole == NoRole && !isLoggingIn
      ensures Shown() == Landing
    {
      this.store := store;
      currentRole := NoRole;
      isLoggingIn := false;
    }

    /** The page the shell renders now. */
    function Shown(): Page
      reads this
    {
      PageFor(currentRole)
    }

    /** `initUser`: a stored profile restores its role; with none stored,
        or when the read rejects, the role stays as it is. */
    method InitUser()
      modifies this`currentRole
      ensures store.available && store.userItem.Some? ==> currentRole == store.userItem.value.role
      ensures !(store.available && store.userItem.Some?) ==> currentRole == old(currentRole)
    {
      var user := store.GetUser();
      if user.Ok? && user.value.Some? {
        currentRole := user.value.value.role;
      }
    }

    /** `handleLogin`: a successful login makes `role` the active role; a
        failed one leaves it; either way the login flag ends cleared. */
    method HandleLogin(role: Role)
      modifies this`currentRole, this`isLoggingIn, store`userItem
      ensures store.available ==> currentRole == role && store.userItem == Some(ProfileFor(role))
      ensures !store.available ==> currentRole == old(currentRole) && store.userItem == old(store.userItem)
      ensures !isLoggingIn
    {
      isLoggingIn := true;
      var user := store.Login(role);
      if user.Ok? {
        currentRole := role;
      }
      isLoggingIn := false;
    }

    /** `handleLogout`: clears the session and returns to the landing page;
        when the store rejects, the handler stops before the role changes. */
    method HandleLogout()
      modifies this`currentRole, store`userItem
      ensures store.available ==> store.userItem == None && currentRole == NoRole && Shown() == Landing
      ensures !store.available ==> store.userItem == old(store.userItem) && currentRole == old(currentRole)
    {
      var done := store.Logout();
      if done.Ok? {
        currentRole := NoRole;
      }
    }
  }
}

/** The `create_initial_admin` management command of
    api/users/management/commands/create_initial_admin.py: when the user
    table is empty it creates one superuser from the settings (or the
    defaults) and gives it the admin role. The command writes a report line
    and never raises. */
module InitialAdmin {

  import opened Common
  import opened Permissions

  /** A stored user. */
  datatype UserRow = UserRow(username: string, email: string, password: string, isSuperuser: bool, isStaff: bool, role: string)

  /** Where the creation fails, for the `except Exception` branch:
      `create_superuser` itself, or the save that sets the role. */
  datatype Failure = NoFailure | CreateFails | RoleSaveFails

  /** The line the command writes. */
  datatype Report = AlreadyExists | Created(username: string) | Failed

  /** The configured credentials, falling back to the defaults. */
  function Setting(settings: map<string, string>, name: string, default: string): (v: string)
    ensures name in settings ==> v == settings[name]
    ensures name !in settings ==> v == default
  {
    if name in settings then settings[name] else default
  }

  /** `create_superuser(...)`: a superuser with the model's default role. */
  function NewSuperuser(username: string, email: string, password: string): (u: UserRow)
    ensures u.isSuperuser && u.isStaff && u.role == UserRole
  {
    UserRow(username, email, password, true, true, UserRole)
  }

  /** `Command.handle`: the users after the command and its report. */
  function Handle(users: seq<UserRow>, settings: map<string, string>, failure: Failure): (r: (seq<UserRow>, Report))
    ensures users != [] ==> r == (users, AlreadyExists)
    ensures r.1.Failed? <==> users == [] && failure != NoFailure
    ensures |users| <= |r.0| <= |users| + 1 && r.0[..|users|] == users
  {
    if users != [] then (users, AlreadyExists)
    else
      var username := Setting(settings, "INITIAL_ADMIN_USERNAME", "admin");
      var password := Setting(settings, "INITIAL_ADMIN_PASSWORD", "password");
      var email := Setting(settings, "INITIAL_ADMIN_EMAIL", "admin@example.com");
      match failure
      case CreateFails => (users, Failed)
      case RoleSaveFails => (users + [NewSuperuser(username, email, password)], Failed)
      case NoFailure => (users + [NewSuperuser(username, email, password).(role := AdminRole)], Created(username))
  }

  /** With no users and no failure, exactly one user is created: a superuser
      with the configured (or default) username, email and password and the
      admin role. */
  lemma HandleCreatesAdmin(settings: map<string, string>)
    ensures var (after, report) := Handle([], settings, NoFailure);
      |after| == 1
      && after[0].username == Setting(settings, "INITIAL_ADMIN_USERNAME", "admin")
      && after[0].email == Setting(settings, "INITIAL_ADMIN_EMAIL", "admin@example.com")
      && after[0].password == Setting(settings, "INITIAL_ADMIN_PASSWORD", "password")
      && after[0].isSuperuser && after[0].role == AdminRole
      && report == Created(after[0].username)
  {
  }

  /** Once a run has left a user, running again changes nothing; whatever
      fails, two runs together create at most one user. */
  lemma HandleIdempotent(users: seq<UserRow>, settings: map<string, string>, first: Failure, second: Failure)
    ensures var once := Handle(users, settings, first).0;
      once != [] ==> Handle(once, settings, second) == (once, AlreadyExists)
    ensures |Handle(Handle(users, settings, first).0, settings, second).0| <= |users| + 1
  {
  }

  /** The user table the command runs against. */
  class UserStore {
    var users: seq<UserRow>

    constructor ()
      ensures users == []
    {
      users := [];
    }
  }

  /** The command as it runs against the store. */
  method HandleCommand(store: UserStore, settings: map<string, string>, failure: Failure) returns (report: Report)
    modifies store
    ensures (store.users, report) == Handle(old(store.users), settings, failure)
  {
    if store.users != [] {
      return AlreadyExists;
    }
    var username := Setting(settings, "INITIAL_ADMIN_USERNAME", "admin");
    var password := Setting(settings, "INITIAL_ADMIN_PASSWORD", "password");
    var email := Setting(settings, "INITIAL_ADMIN_EMAIL", "admin@example.com");
    if failure == CreateFails {
      return Failed;
    }
    var admin := NewSuperuser(username, email, password);
    store.users := store.users + [admin];
    if failure == RoleSaveFails {
      // The created user keeps its default role; the error is reported.
      return Failed;
    }
    admin := admin.(role := AdminRole);
    store.users := store.users[|store.users| - 1 := admin];
    assert store.users == old(store.users) + [admin];
    report := Created(username);
  }
}

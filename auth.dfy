/**
 * Authorisation (checkbox451_bot/auth.py): the sign-in mode, the users and
 * roles kept in the database, sign-in, and the role guard put in front of
 * the bot's handlers. The database is modelled as two maps: the users by
 * Telegram id, each with the roles it was given, and the set of role rows;
 * a role's users are read back through the users' roles, as the
 * `user_roles` association does.
 */
module Auth {
  import opened Wrappers
  import opened Text

  const Admin: string := "ADMIN"
  const Cashier: string := "CASHIER"
  const Supervisor: string := "SUPERVISOR"

  /** The prompt a user without the role is sent. */
  const AuthRequired: string := "Потрібна авторизація"

  // ----------------------------------------------------------- sign mode

  /** Whether new users may sign in: ON always, ONE for one sign-in, OFF never. */
  datatype SignMode = On | One | Off

  /** The enum's members in declaration order, the order iterating it follows. */
  const Modes: seq<SignMode> := [On, One, Off]

  function Value(m: SignMode): string {
    match m
    case On => "on"
    case One => "one"
    case Off => "off"
  }

  /** SignMode.enabled: sign-in is open in modes ON and ONE. */
  function Enabled(m: SignMode): (b: bool)
    ensures b <==> m != Off
  {
    m == On || m == One
  }

  /** The first member of ms whose value is item. */
  function FirstWithValue(ms: seq<SignMode>, item: string): (r: Option<SignMode>)
    ensures r.Some? ==> r.value in ms && Value(r.value) == item
    ensures r.None? ==> forall m | m in ms :: Value(m) != item
  {
    if ms == [] then None
    else if Value(ms[0]) == item then Some(ms[0])
    else FirstWithValue(ms[1..], item)
  }

  /**
   * SignMode.mode: the member whose value is item; any other text raises
   * ValueError("invalid mode").
   */
  function Mode(item: string): (r: Result<SignMode>)
    ensures r.Ok? <==> item == "on" || item == "one" || item == "off"
    ensures r.Ok? ==> Value(r.value) == item
    ensures r.Err? ==> r.error == ValueError("invalid mode")
  {
    match FirstWithValue(Modes, item)
    case None =>
      assert On in Modes && One in Modes && Off in Modes;
      Err(ValueError("invalid mode"))
    case Some(m) => Ok(m)
  }

  /** Reading a mode's own value gives the mode back. */
  lemma ModeRoundTrip(m: SignMode)
    ensures Mode(Value(m)) == Ok(m)
  {
    assert m in Modes;
    match m
    case On =>
    case One => assert Value(On) != "one";
    case Off => assert Value(On) != "off" && Value(One) != "off";
  }

  // ----------------------------------------------------------- the store

  /** The fields of a shared Telegram contact that a user row is made of. */
  datatype Contact = Contact(userId: int, phone: string, firstName: string, lastName: Option<string>)

  /** A user row with the roles it holds, in the order they were given. */
  datatype User = User(userId: int, phone: string, firstName: string, lastName: Option<string>, roles: seq<string>)

  /** The sign mode, the users by id, and the names of the role rows. */
  datatype Store = Store(mode: SignMode, users: map<int, User>, roles: set<string>)

  /** Every role a user holds has its row: the association's foreign key. */
  ghost predicate Valid(st: Store) {
    forall id | id in st.users :: forall r | r in st.users[id].roles :: r in st.roles
  }

  /** role.users: the ids of the users holding the role. */
  function Holders(users: map<int, User>, name: string): set<int> {
    set id | id in users && name in users[id].roles
  }

  /** has_role: whether the user exists and holds the role. */
  predicate HasRole(users: map<int, User>, id: int, name: string) {
    id in users && name in users[id].roles
  }

  function NewUser(c: Contact): User {
    User(c.userId, c.phone, c.firstName, c.lastName, [])
  }

  /** add_user: an existing user is kept as it is; a missing one is made from the contact. */
  function WithUser(users: map<int, User>, c: Contact): map<int, User> {
    if c.userId in users then users else users[c.userId := NewUser(c)]
  }

  /** get_role: the role's row exists afterwards, made if it was missing. */
  function WithRole(st: Store, name: string): Store {
    st.(roles := st.roles + {name})
  }

  /** The user's roles with one more appended: user.roles.append(role). */
  function Granted(users: map<int, User>, id: int, name: string): map<int, User>
    requires id in users
  {
    users[id := users[id].(roles := users[id].roles + [name])]
  }

  /** add_role: the name must be one of the three roles. */
  function RoleAdded(st: Store, id: int, name: string): (Store, Option<Error>)
    requires id in st.users
  {
    if !(name in [Admin, Cashier, Supervisor]) then (st, Some(ValueError("invalid role: " + name)))
    else
      var withRow := WithRole(st, name);
      (withRow.(users := Granted(withRow.users, id, name)), None)
  }

  /** The condition sign_in and require share: sign-in is open, or there is no admin yet. */
  predicate Open(st: Store) {
    Enabled(st.mode) || Holders(st.users, Admin) == {}
  }

  /** Evaluating Open: the ADMIN role's row is read, and made, only when sign-in is closed. */
  function Gated(st: Store): Store {
    if Enabled(st.mode) then st else WithRole(st, Admin)
  }

  /**
   * sign_in(contact): when Open, the contact's user (existing or new) is
   * returned, a ONE mode is spent, and a phone on the admin list is given
   * ADMIN; otherwise nothing is returned.
   */
  function SignedIn(st: Store, admins: seq<string>, c: Contact): (Store, Option<User>) {
    var checked := Gated(st);
    if !Open(st) then (checked, None)
    else
      var users := WithUser(checked.users, c);
      var mode := if checked.mode == One then Off else checked.mode;
      var user := users[c.userId];
      if user.phone in admins then
        var given := RoleAdded(Store(mode, users, checked.roles), c.userId, Admin).0;
        (given, Some(given.users[c.userId]))
      else (Store(mode, users, checked.roles), Some(user))
  }

  /** What the role guard does with a message from a user. */
  datatype Access = RunHandler | AskToSignIn(chat: int, text: string) | Silent

  /**
   * require(role)'s wrapper: the handler runs for a holder of the role; to
   * anyone else the prompt is sent when sign-in is Open, and nothing
   * happens otherwise.
   */
  function Guard(st: Store, id: int, name: string): Access {
    if HasRole(st.users, id, name) then RunHandler
    else if Open(st) then AskToSignIn(id, AuthRequired)
    else Silent
  }

  /** The guard's effect on the store: Open is evaluated only for a user without the role. */
  function Guarded(st: Store, id: int, name: string): Store {
    if HasRole(st.users, id, name) then st else Gated(st)
  }

  // ------------------------------------------------------------ lemmas

  /** add_user keeps an existing user unchanged and otherwise adds the contact as a user with no roles. */
  lemma WithUserSpec(users: map<int, User>, c: Contact)
    ensures WithUser(users, c).Keys == users.Keys + {c.userId}
    ensures forall id | id in users :: WithUser(users, c)[id] == users[id]
    ensures c.userId !in users ==> WithUser(users, c)[c.userId] == NewUser(c) && NewUser(c).roles == []
  {
  }

  /** add_role rejects a name other than ADMIN, CASHIER and SUPERVISOR and then changes nothing. */
  lemma AddRoleRejects(st: Store, id: int, name: string)
    requires id in st.users
    ensures RoleAdded(st, id, name).1.Some? <==> name != Admin && name != Cashier && name != Supervisor
    ensures RoleAdded(st, id, name).1.Some? ==> RoleAdded(st, id, name).0 == st
  {
  }

  /**
   * A role that add_role accepts is held by the user afterwards, its row
   * exists, and every other role's holders are unchanged.
   */
  lemma AddRoleGrants(st: Store, id: int, name: string)
    requires id in st.users
    requires RoleAdded(st, id, name).1.None?
    ensures var after := RoleAdded(st, id, name).0;
            HasRole(after.users, id, name) && name in after.roles && after.mode == st.mode
            && Holders(after.users, name) == Holders(st.users, name) + {id}
            && forall r | r != name :: Holders(after.users, r) == Holders(st.users, r)
  {
    var after := RoleAdded(st, id, name).0;
    assert after.users == Granted(st.users, id, name);
    forall r
      ensures Holders(after.users, r) == Holders(st.users, r) + (if r == name then {id} else {})
    {
      forall u | u in after.users
        ensures r in after.users[u].roles <==> r in st.users[u].roles || (u == id && r == name)
      {
        if u == id {
          assert after.users[u].roles == st.users[u].roles + [name];
        }
      }
    }
  }

  /** add_role keeps every user's roles backed by a row. */
  lemma AddRoleValid(st: Store, id: int, name: string)
    requires id in st.users && Valid(st)
    ensures Valid(RoleAdded(st, id, name).0)
  {
    var after := RoleAdded(st, id, name).0;
    if RoleAdded(st, id, name).1.None? {
      forall u | u in after.users
        ensures forall r | r in after.users[u].roles :: r in after.roles
      {
        if u == id {
          assert after.users[u].roles == st.users[u].roles + [name];
        }
      }
    }
  }

  /** A user is returned exactly when sign-in is Open. */
  lemma SignInGate(st: Store, admins: seq<string>, c: Contact)
    ensures SignedIn(st, admins, c).1.Some? <==> Open(st)
  {
  }

  /** A refused sign-in touches nothing: the ADMIN row it reads exists when an admin does. */
  lemma SignInRefusedKeeps(st: Store, admins: seq<string>, c: Contact)
    requires Valid(st) && !Open(st)
    ensures SignedIn(st, admins, c).0 == st
  {
    if forall id | id in st.users :: Admin !in st.users[id].roles {
      assert false;
    }
    var id :| id in st.users && Admin in st.users[id].roles;
    assert st.roles + {Admin} == st.roles;
  }

  /** A successful sign-in in mode ONE switches the mode to OFF, and no other mode changes. */
  lemma SignInSpendsOne(st: Store, admins: seq<string>, c: Contact)
    ensures SignedIn(st, admins, c).0.mode == if Open(st) && st.mode == One then Off else st.mode
  {
  }

  /**
   * A successful sign-in returns the contact's stored user: the existing
   * row when there was one, else a new row from the contact. It holds
   * ADMIN afterwards exactly when it did before or its stored phone is on
   * the admin list.
   */
  lemma SignInRegisters(st: Store, admins: seq<string>, c: Contact)
    requires Open(st)
    ensures var (after, user) := SignedIn(st, admins, c);
            var stored := if c.userId in st.users then st.users[c.userId] else NewUser(c);
            c.userId in after.users && user == Some(after.users[c.userId])
            && after.users[c.userId].phone == stored.phone
            && after.users[c.userId].firstName == stored.firstName
            && after.users[c.userId].lastName == stored.lastName
            && (HasRole(after.users, c.userId, Admin) <==> Admin in stored.roles || stored.phone in admins)
  {
    var users := WithUser(Gated(st).users, c);
    var stored := if c.userId in st.users then st.users[c.userId] else NewUser(c);
    assert users[c.userId] == stored;
  }

  /** Sign-in leaves every other user as it was and adds at most the contact's. */
  lemma SignInKeepsOthers(st: Store, admins: seq<string>, c: Contact)
    ensures var after := SignedIn(st, admins, c).0;
            after.users.Keys == st.users.Keys + (if Open(st) then {c.userId} else {})
            && forall id | id in st.users && id != c.userId :: after.users[id] == st.users[id]
  {
  }

  /** Sign-in keeps every user's roles backed by a row. */
  lemma SignInValid(st: Store, admins: seq<string>, c: Contact)
    requires Valid(st)
    ensures Valid(SignedIn(st, admins, c).0)
  {
    var checked := Gated(st);
    assert Valid(checked);
    if Open(st) {
      var users := WithUser(checked.users, c);
      var mode := if checked.mode == One then Off else checked.mode;
      var plain := Store(mode, users, checked.roles);
      assert Valid(plain);
      if users[c.userId].phone in admins {
        AddRoleValid(plain, c.userId, Admin);
      }
    }
  }

  /** The guard runs the handler exactly for a holder of the role. */
  lemma GuardRuns(st: Store, id: int, name: string)
    ensures Guard(st, id, name) == RunHandler <==> HasRole(st.users, id, name)
    ensures Guard(st, id, name).AskToSignIn? ==> Guard(st, id, name) == AskToSignIn(id, AuthRequired)
  {
  }

  /**
   * The guard prompts a user exactly when it would turn them away and a
   * sign-in would then be accepted, whatever contact they share.
   */
  lemma GuardPromptsOnlyWhenSignInOpen(st: Store, admins: seq<string>, c: Contact, id: int, name: string)
    ensures Guard(st, id, name).AskToSignIn? <==> !HasRole(st.users, id, name) && SignedIn(st, admins, c).1.Some?
  {
    SignInGate(st, admins, c);
  }

  /** The guard changes at most the ADMIN role's row and keeps the store valid. */
  lemma GuardedKeeps(st: Store, id: int, name: string)
    requires Valid(st)
    ensures var after := Guarded(st, id, name);
            after.mode == st.mode && after.users == st.users
            && after.roles - st.roles <= {Admin} && Valid(after)
  {
  }

  // ------------------------------------------------------------ the class

  /**
   * The live authorisation state: the class-level sign mode, the admin
   * phones read from the ADMIN variable at start-up, and the database.
   */
  class Authority {
    const admins: seq<string>
    var mode: SignMode
    var users: map<int, User>
    var roles: set<string>

    function State(): Store
      reads this
    {
      Store(mode, users, roles)
    }

    /**
     * init() over the ADMIN variable's text and an existing database; the
     * sign mode reads OFF until it is set.
     */
    constructor(adminVariable: string, users0: map<int, User>, roles0: set<string>)
      ensures admins == CommaList(adminVariable)
      ensures State() == Store(Off, users0, roles0)
    {
      admins := CommaList(adminVariable);
      mode, users, roles := Off, users0, roles0;
    }

    /** SignMode.set. */
    method SetMode(m: SignMode)
      modifies this
      ensures State() == old(State()).(mode := m)
    {
      mode := m;
    }

    /** get_role(name): the role's users, its row made when missing. */
    method GetRole(name: string) returns (holders: set<int>)
      modifies this
      ensures State() == WithRole(old(State()), name)
      ensures holders == Holders(users, name)
    {
      roles := roles + {name};
      holders := Holders(users, name);
    }

    /** add_user(contact): the stored user, made from the contact when missing. */
    method AddUser(c: Contact) returns (user: User)
      modifies this
      ensures State() == old(State()).(users := WithUser(old(users), c))
      ensures c.userId in users && user == users[c.userId]
    {
      if c.userId !in users {
        users := users[c.userId := NewUser(c)];
      }
      user := users[c.userId];
    }

    /** add_role(user, name): the error for an unknown name, else the role appended to the user's. */
    method AddRole(id: int, name: string) returns (err: Option<Error>)
      requires id in users
      modifies this
      ensures State() == RoleAdded(old(State()), id, name).0
      ensures err == RoleAdded(old(State()), id, name).1
    {
      if !(name in [Admin, Cashier, Supervisor]) {
        return Some(ValueError("invalid role: " + name));
      }
      var _ := GetRole(name);
      var user := users[id];
      users := users[id := user.(roles := user.roles + [name])];
      err := None;
    }

    /** Open, evaluated as the source does: get_role(ADMIN) only when sign-in is closed. */
    method CheckOpen() returns (open: bool)
      modifies this
      ensures State() == Gated(old(State()))
      ensures open == Open(old(State()))
    {
      open := Enabled(mode);
      if !open {
        var holders := GetRole(Admin);
        open := holders == {};
      }
    }

    /** sign_in(contact). */
    method SignIn(c: Contact) returns (user: Option<User>)
      modifies this
      ensures State() == SignedIn(old(State()), admins, c).0
      ensures user == SignedIn(old(State()), admins, c).1
    {
      var open := CheckOpen();
      if !open {
        return None;
      }
      var u := AddUser(c);
      if mode == One {
        SetMode(Off);
      }
      if u.phone in admins {
        var _ := AddRole(c.userId, Admin);
        u := users[c.userId];
      }
      user := Some(u);
    }

    /** require(name)'s wrapper for a message from user id. */
    method Require(id: int, name: string) returns (access: Access)
      modifies this
      ensures access == Guard(old(State()), id, name)
      ensures State() == Guarded(old(State()), id, name)
    {
      if HasRole(users, id, name) {
        return RunHandler;
      }
      var open := CheckOpen();
      access := if open then AskToSignIn(id, AuthRequired) else Silent;
    }
  }
}

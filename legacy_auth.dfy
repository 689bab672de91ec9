/**
 * The older bot's authorisation (checkbox451_bot/checkbox451_bot/auth.py):
 * phone lists per role read once from the environment, and the users who
 * signed in with a listed phone, each with the roles it matched.
 */
module LegacyAuth {
  import opened Text

  const Admin: string := "ADMIN"
  const Cashier: string := "CASHIER"
  const Supervisor: string := "SUPERVISOR"

  /** The roles in the order _init fills the dict, which its iteration follows. */
  const RoleOrder: seq<string> := [Admin, Cashier, Supervisor]

  /** A shared contact: the Telegram user id and the phone as Telegram sends it. */
  datatype Contact = Contact(userId: int, phone: string)

  /** What the guard does with a message. */
  datatype Access = RunHandler | AskToSignIn

  /** os.environ.get(name, ""). */
  function EnvGet(env: map<string, string>, name: string): string {
    if name in env then env[name] else ""
  }

  /** The phone list _init stores for a role: the variable split on commas, empty entries dropped. */
  function Listed(env: map<string, string>, role: string): seq<string> {
    CommaList(EnvGet(env, role))
  }

  /** Every role has its list. */
  ghost predicate Complete(roles: map<string, seq<string>>) {
    forall r | r in RoleOrder :: r in roles
  }

  /** The position of x in xs, or |xs| when x is absent. */
  function Rank(xs: seq<string>, x: string): nat {
    if xs == [] || xs[0] == x then 0 else 1 + Rank(xs[1..], x)
  }

  /**
   * `[r for r, phones in _roles.items() if phone in phones]` over the roles
   * in order: every role whose list holds the phone.
   */
  function Matching(roles: map<string, seq<string>>, order: seq<string>, phone: string): seq<string>
    requires forall k | k in order :: k in roles
    decreases order, phone  // `phone` keeps calls on the literal RoleOrder from being unrolled
  {
    if order == [] then []
    else (if phone in roles[order[0]] then [order[0]] else []) + Matching(roles, order[1..], phone)
  }

  /** The roles sign_in gives a contact: its phone with the leading "+" signs removed. */
  function RolesOf(roles: map<string, seq<string>>, c: Contact): seq<string>
    requires Complete(roles)
  {
    Matching(roles, RoleOrder, LStripChar(c.phone, '+'))
  }

  /** sign_in's update: the contact is registered with the roles it matched, when there are any. */
  function Registered(users: map<int, seq<string>>, id: int, matched: seq<string>): map<int, seq<string>> {
    if matched != [] then users[id := matched] else users
  }

  /** The matched roles are the ones whose list holds the phone. */
  lemma {:induction false} MatchingSpec(roles: map<string, seq<string>>, order: seq<string>, phone: string)
    requires forall k | k in order :: k in roles
    ensures forall x :: x in Matching(roles, order, phone) <==> x in order && phone in roles[x]
  {
    if order != [] {
      MatchingSpec(roles, order[1..], phone);
      var head := if phone in roles[order[0]] then [order[0]] else [];
      assert Matching(roles, order, phone) == head + Matching(roles, order[1..], phone);
      assert forall x :: x in order <==> x == order[0] || x in order[1..];
    }
  }

  /** r lists its entries in the order they have in order. */
  ghost predicate InOrder(order: seq<string>, r: seq<string>) {
    forall i, j | 0 <= i < j < |r| :: Rank(order, r[i]) < Rank(order, r[j])
  }

  /** Past the head of a list without repeats, positions shift by one. */
  lemma RankTail(order: seq<string>, x: string)
    requires forall i, j | 0 <= i < j < |order| :: order[i] != order[j]
    requires order != [] && x in order[1..]
    ensures x != order[0] && Rank(order, x) == 1 + Rank(order[1..], x)
  {
    var k :| 0 <= k < |order[1..]| && order[1..][k] == x;
    assert order[k + 1] == x;
  }

  /** Matched roles keep the order of the list they are taken from. */
  lemma {:induction false} MatchingInOrder(roles: map<string, seq<string>>, order: seq<string>, phone: string)
    requires forall k | k in order :: k in roles
    requires forall i, j | 0 <= i < j < |order| :: order[i] != order[j]
    ensures InOrder(order, Matching(roles, order, phone))
  {
    if order != [] {
      var rest := Matching(roles, order[1..], phone);
      MatchingInOrder(roles, order[1..], phone);
      assert InOrder(order[1..], rest);
      MatchingSpec(roles, order[1..], phone);
      var head := if phone in roles[order[0]] then [order[0]] else [];
      var r := Matching(roles, order, phone);
      assert r == head + rest;
      forall i, j | 0 <= i < j < |r|
        ensures Rank(order, r[i]) < Rank(order, r[j])
      {
        var j' := j - |head|;
        assert r[j] == rest[j'] && r[j] in rest;
        RankTail(order, r[j]);
        if i >= |head| {
          assert r[i] == rest[i - |head|] && r[i] in rest;
          RankTail(order, r[i]);
        } else {
          assert r[i] == order[0];
        }
      }
    }
  }

  /**
   * A legacy user's roles are exactly the roles whose list holds its phone
   * without the leading "+", in ADMIN, CASHIER, SUPERVISOR order.
   */
  lemma RolesOfSpec(roles: map<string, seq<string>>, c: Contact)
    requires Complete(roles)
    ensures var p := LStripChar(c.phone, '+');
            var r := RolesOf(roles, c);
            (forall x :: x in r <==> x in RoleOrder && p in roles[x])
            && InOrder(RoleOrder, r)
  {
    assert RoleOrder[0] != RoleOrder[1] && RoleOrder[0] != RoleOrder[2] && RoleOrder[1] != RoleOrder[2];
    MatchingSpec(roles, RoleOrder, LStripChar(c.phone, '+'));
    MatchingInOrder(roles, RoleOrder, LStripChar(c.phone, '+'));
  }

  /** A leading "+" makes no difference to the roles a phone gets. */
  lemma PlusIgnored(roles: map<string, seq<string>>, id: int, phone: string)
    requires Complete(roles)
    ensures RolesOf(roles, Contact(id, "+" + phone)) == RolesOf(roles, Contact(id, phone))
  {
    assert ("+" + phone)[1..] == phone;
  }

  /** Phone lists never hold the empty phone, so a phone of only "+" signs gets no role. */
  lemma EmptyPhoneNoRole(env: map<string, string>, roles: map<string, seq<string>>, c: Contact)
    requires Complete(roles)
    requires forall r | r in RoleOrder :: roles[r] == Listed(env, r)
    requires forall i | 0 <= i < |c.phone| :: c.phone[i] == '+'
    ensures RolesOf(roles, c) == []
  {
    var p := LStripChar(c.phone, '+');
    assert p == [];
    forall x | x in RoleOrder
      ensures p !in roles[x]
    {
      assert roles[x] == Listed(env, x);
    }
    NothingMatches(roles, RoleOrder, p);
  }

  /** A phone on none of the lists matches no role. */
  lemma {:induction false} NothingMatches(roles: map<string, seq<string>>, order: seq<string>, phone: string)
    requires forall k | k in order :: k in roles
    requires forall k | k in order :: phone !in roles[k]
    ensures Matching(roles, order, phone) == []
  {
    if order != [] {
      NothingMatches(roles, order[1..], phone);
    }
  }

  /**
   * sign_in registers the contact exactly when some role matched, with
   * those roles, and touches no other user.
   */
  lemma RegisteredSpec(users: map<int, seq<string>>, id: int, matched: seq<string>)
    ensures var after := Registered(users, id, matched);
            (matched != [] ==> id in after && after[id] == matched)
            && (matched == [] ==> after == users)
            && forall other | other != id :: (other in after <==> other in users) && (other in users ==> after[other] == users[other])
  {
  }

  /** The module's state: the role lists and the signed-in users. */
  class Registry {
    var roles: map<string, seq<string>>
    var users: map<int, seq<string>>

    /** _init: each role's list from its variable, read once; nobody is signed in yet. */
    constructor(env: map<string, string>)
      ensures Complete(roles)
      ensures roles.Keys == set r | r in RoleOrder
      ensures forall r | r in RoleOrder :: roles[r] == Listed(env, r)
      ensures users == map[]
    {
      roles, users := map[], map[];
      new;
      for i := 0 to |RoleOrder|
        invariant roles.Keys == set r | r in RoleOrder[..i]
        invariant forall r | r in RoleOrder[..i] :: roles[r] == Listed(env, r)
        invariant users == map[]
      {
        var role := RoleOrder[i];
        roles := roles[role := CommaList(EnvGet(env, role))];
        assert RoleOrder[..i + 1] == RoleOrder[..i] + [role];
      }
      assert RoleOrder[..|RoleOrder|] == RoleOrder;
    }

    /** sign_in(contact): the contact's roles, and the contact registered when it has any. */
    method SignIn(c: Contact) returns (userRoles: seq<string>)
      requires Complete(roles)
      modifies this
      ensures roles == old(roles)
      ensures userRoles == RolesOf(roles, c)
      ensures users == Registered(old(users), c.userId, userRoles)
    {
      userRoles := RolesOf(roles, c);
      users := Registered(users, c.userId, userRoles);
    }

    /** require(handler)'s wrapper: the handler runs for a signed-in user, anyone else is prompted. */
    method Require(userId: int) returns (access: Access)
      ensures access == RunHandler <==> userId in users
      ensures access == AskToSignIn <==> userId !in users
    {
      access := if userId in users then RunHandler else AskToSignIn;
    }
  }
}

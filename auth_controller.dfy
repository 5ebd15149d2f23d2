/** The account handlers of controllers/authController.js over the `users` and
    `password_resets` tables. Password hashing is abstracted away: a stored password
    matches exactly the text it was set to. Signed tokens and random reset tokens are
    produced outside and passed in; times are passed in as `now`. */
module AuthController {
  import opened Wrappers
  import opened TodoModel

  /** One hour, in milliseconds: how long a reset token stays valid. */
  const ResetLifetime: int := 3600000

  datatype User = User(
    id: Uuid,
    email: string,
    password: string,
    name: string,
    isActive: bool,
    lastLogin: Option<int>)

  datatype PasswordReset = PasswordReset(
    id: Uuid,
    userId: Uuid,
    token: string,
    expiresAt: int,
    usedAt: Option<int>)

  /** `User.findOne({ where: { email } })` finds a row. */
  predicate EmailTaken(users: map<Uuid, User>, email: string) {
    exists k | k in users :: users[k].email == email
  }

  /** No two accounts share an email. */
  predicate EmailsUnique(users: map<Uuid, User>) {
    forall a, b | a in users && b in users && users[a].email == users[b].email :: a == b
  }

  /** No two reset rows share a token. */
  predicate TokensUnique(resets: map<Uuid, PasswordReset>) {
    forall a, b | a in resets && b in resets && resets[a].token == resets[b].token :: a == b
  }

  /** The account `register` creates: active, never logged in. */
  function NewUser(id: Uuid, email: string, password: string, name: string): (u: User)
    ensures u.id == id && u.email == email && u.password == password && u.name == name
    ensures u.isActive && u.lastLogin == None
  {
    User(id, email, password, name, true, None)
  }

  /** Registering an email no account holds keeps emails unique. */
  lemma RegisterKeepsEmailsUnique(users: map<Uuid, User>, id: Uuid, email: string, password: string, name: string)
    requires EmailsUnique(users) && id !in users && !EmailTaken(users, email)
    ensures EmailsUnique(users[id := NewUser(id, email, password, name)])
    ensures EmailTaken(users[id := NewUser(id, email, password, name)], email)
  {
    var u := NewUser(id, email, password, name);
    assert users[id := u][id].email == email;
  }

  /** `updateProfile`'s change to the caller's row: a truthy email replaces the old one,
      a truthy name the old name. */
  function ProfileUpdated(u: User, name: Option<string>, email: Option<string>): (v: User)
    ensures Truthy(email) ==> v.email == email.value
    ensures !Truthy(email) ==> v.email == u.email
    ensures Truthy(name) ==> v.name == name.value
    ensures !Truthy(name) ==> v.name == u.name
    ensures v.(email := u.email, name := u.name) == u
  {
    u.(email := if Truthy(email) then email.value else u.email,
       name := if Truthy(name) then name.value else u.name)
  }

  /** The conflict check lets through only an email that is the caller's own or held by
      nobody, and then emails stay unique. */
  lemma ProfileUpdateKeepsEmailsUnique(users: map<Uuid, User>, id: Uuid, name: Option<string>, email: Option<string>)
    requires EmailsUnique(users) && id in users && users[id].id == id
    requires !(Truthy(email) && email.value != users[id].email && EmailTaken(users, email.value))
    ensures EmailsUnique(users[id := ProfileUpdated(users[id], name, email)])
  {
  }

  /** The row `forgotPassword` inserts: valid for an hour, not yet used. */
  function NewReset(id: Uuid, userId: Uuid, token: string, now: int): (p: PasswordReset)
    ensures p.expiresAt == now + ResetLifetime && p.usedAt == None
  {
    PasswordReset(id, userId, token, now + ResetLifetime, None)
  }

  /** `resetPassword` accepts the token at `now`: an unused row with that token whose
      expiry is not before `now`. */
  predicate RedeemableRow(p: PasswordReset, token: string, now: int) {
    p.token == token && p.usedAt == None && !(p.expiresAt < now)
  }

  predicate Redeemable(resets: map<Uuid, PasswordReset>, token: string, now: int) {
    exists k | k in resets :: RedeemableRow(resets[k], token, now)
  }

  /** The reset table after row `k` is used at `now`. */
  function Redeemed(resets: map<Uuid, PasswordReset>, k: Uuid, now: int): (r: map<Uuid, PasswordReset>)
    requires k in resets
    ensures r.Keys == resets.Keys && r[k].usedAt == Some(now)
  {
    resets[k := resets[k].(usedAt := Some(now))]
  }

  /** A fresh token is accepted up to and including the instant it expires, one hour after
      it was issued, and refused from then on. */
  lemma ResetValidForOneHour(resets: map<Uuid, PasswordReset>, id: Uuid, userId: Uuid, token: string, issued: int, at: int)
    requires id !in resets && forall k | k in resets :: resets[k].token != token
    ensures Redeemable(resets[id := NewReset(id, userId, token, issued)], token, at) <==> at <= issued + ResetLifetime
  {
    var r := resets[id := NewReset(id, userId, token, issued)];
    if at <= issued + ResetLifetime {
      assert RedeemableRow(r[id], token, at);
    }
  }

  /** Once used, a token is refused at every later request. */
  lemma RedeemedTokenIsSpent(resets: map<Uuid, PasswordReset>, k: Uuid, now: int, later: int)
    requires TokensUnique(resets) && k in resets
    ensures !Redeemable(Redeemed(resets, k, now), resets[k].token, later)
  {
  }

  class AccountStore {
    /** The `users` table, by id. */
    var users: map<Uuid, User>
    /** The `password_resets` table, by id. */
    var resets: map<Uuid, PasswordReset>

    ghost predicate Valid()
      reads this
    {
      (forall k | k in users :: users[k].id == k) &&
      (forall k | k in resets :: resets[k].id == k && resets[k].userId in users) &&
      EmailsUnique(users) && TokensUnique(resets)
    }

    constructor ()
      ensures Valid() && users == map[] && resets == map[]
    {
      users := map[];
      resets := map[];
    }

    /** `POST /auth/register`. */
    method Register(email: string, password: string, name: string, newId: Uuid) returns (r: Reply<User>)
      requires Valid() && newId !in users
      modifies this`users
      ensures Valid()
      ensures old(EmailTaken(users, email)) ==> r == Reject(409, "Email already exists") && users == old(users)
      ensures !old(EmailTaken(users, email)) ==>
        r == Done(NewUser(newId, email, password, name)) && users == old(users)[newId := r.value]
    {
      if exists k | k in users :: users[k].email == email {
        return Reject(409, "Email already exists");
      }
      RegisterKeepsEmailsUnique(users, newId, email, password, name);
      var u := NewUser(newId, email, password, name);
      users := users[newId := u];
      r := Done(u);
    }

    /** `POST /auth/login`: an unknown email and a wrong password get the same answer.
        The account's `isActive` flag is not consulted. */
    method Login(email: string, password: string, now: int) returns (r: Reply<User>)
      requires Valid()
      modifies this`users
      ensures Valid()
      ensures !old(EmailTaken(users, email)) ==> r == Reject(401, "Invalid email or password") && users == old(users)
      ensures forall k | k in old(users) && old(users)[k].email == email ::
        if old(users)[k].password != password then
          r == Reject(401, "Invalid email or password") && users == old(users)
        else
          users == old(users)[k := old(users)[k].(lastLogin := Some(now))] && r == Done(users[k])
    {
      if !(exists k | k in users :: users[k].email == email) {
        return Reject(401, "Invalid email or password");
      }
      var k :| k in users && users[k].email == email;
      if users[k].password != password {
        return Reject(401, "Invalid email or password");
      }
      var u := users[k].(lastLogin := Some(now));
      users := users[k := u];
      r := Done(u);
    }

    /** `PUT /auth/me` for the signed-in account `me`. */
    method UpdateProfile(me: Uuid, name: Option<string>, email: Option<string>) returns (r: Reply<User>)
      requires Valid() && me in users && users[me].isActive
      modifies this`users
      ensures Valid()
      ensures old(Truthy(email) && email.value != users[me].email && EmailTaken(users, email.value)) ==>
        r == Reject(409, "Email already in use") && users == old(users)
      ensures !old(Truthy(email) && email.value != users[me].email && EmailTaken(users, email.value)) ==>
        users == old(users)[me := ProfileUpdated(old(users)[me], name, email)] && r == Done(users[me])
    {
      if Truthy(email) && email.value != users[me].email && exists k | k in users :: users[k].email == email.value {
        return Reject(409, "Email already in use");
      }
      ProfileUpdateKeepsEmailsUnique(users, me, name, email);
      var u := ProfileUpdated(users[me], name, email);
      users := users[me := u];
      r := Done(u);
    }

    /** `PUT /auth/me/password`. */
    method ChangePassword(me: Uuid, currentPassword: string, newPassword: string) returns (r: Reply<string>)
      requires Valid() && me in users && users[me].isActive
      modifies this`users
      ensures Valid()
      ensures old(users[me].password) != currentPassword ==>
        r == Reject(401, "Current password is incorrect") && users == old(users)
      ensures old(users[me].password) == currentPassword ==>
        users == old(users)[me := old(users)[me].(password := newPassword)] &&
        r == Done("Password changed successfully")
    {
      if users[me].password != currentPassword {
        return Reject(401, "Current password is incorrect");
      }
      users := users[me := users[me].(password := newPassword)];
      r := Done("Password changed successfully");
    }

    /** `POST /auth/forgot-password`: the same answer whether or not the email is known;
        only a known one gets a reset row. `token` is the random token, which no row holds yet. */
    method ForgotPassword(email: string, token: string, newId: Uuid, now: int) returns (r: Reply<string>)
      requires Valid() && newId !in resets && forall k | k in resets :: resets[k].token != token
      modifies this`resets
      ensures Valid()
      ensures r == Done("If the email exists, a reset link will be sent")
      ensures !EmailTaken(users, email) ==> resets == old(resets)
      ensures forall k | k in users && users[k].email == email ::
        resets == old(resets)[newId := NewReset(newId, k, token, now)]
    {
      r := Done("If the email exists, a reset link will be sent");
      if !(exists k | k in users :: users[k].email == email) {
        return;
      }
      var k :| k in users && users[k].email == email;
      resets := resets[newId := NewReset(newId, k, token, now)];
    }

    /** `POST /auth/reset-password`: redeem an unused, unexpired token for its account. */
    method ResetPassword(token: string, password: string, now: int) returns (r: Reply<string>)
      requires Valid()
      modifies this
      ensures Valid()
      ensures !old(Redeemable(resets, token, now)) ==>
        r == Reject(400, "Invalid or expired reset token") && users == old(users) && resets == old(resets)
      ensures forall k | k in old(resets) && RedeemableRow(old(resets)[k], token, now) ::
        var u := old(resets)[k].userId;
        users == old(users)[u := old(users)[u].(password := password)] &&
        resets == Redeemed(old(resets), k, now) &&
        r == Done("Password reset successfully")
    {
      if !(exists k | k in resets :: RedeemableRow(resets[k], token, now)) {
        return Reject(400, "Invalid or expired reset token");
      }
      var k :| k in resets && RedeemableRow(resets[k], token, now);
      var u := resets[k].userId;
      users := users[u := users[u].(password := password)];
      resets := Redeemed(resets, k, now);
      r := Done("Password reset successfully");
    }

    /** `DELETE /auth/me`: the account is only switched off; no row is removed. */
    method DeleteAccount(me: Uuid) returns (r: Reply<string>)
      requires Valid() && me in users && users[me].isActive
      modifies this`users
      ensures Valid()
      ensures users == old(users)[me := old(users)[me].(isActive := false)]
      ensures r == Done("Account deleted successfully")
    {
      users := users[me := users[me].(isActive := false)];
      r := Done("Account deleted successfully");
    }
  }
}

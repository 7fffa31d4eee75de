/** User registration: the user table as a sequence of records, a new
    record inserted only when no record has its email yet. The password
    hash comes from an external hashing library and is an argument here. */
module Users {
  import opened Ledger

  datatype User = User(userName: string, email: string, profile: map<string, string>, password: string)

  /** The lookup `findOne({ email })` finds a record. This is `HasEmail` of
      module Ledger over the user record type. */
  predicate EmailTaken(users: seq<User>, email: string) {
    exists i :: 0 <= i < |users| && users[i].email == email
  }

  predicate DistinctEmails(users: seq<User>) {
    forall i, j :: 0 <= i < j < |users| ==> users[i].email != users[j].email
  }

  /** How many records carry the email (`CountEmail` over user records). */
  function UsersWith(users: seq<User>, email: string): nat {
    if users == [] then 0 else (if users[0].email == email then 1 else 0) + UsersWith(users[1..], email)
  }

  /** The table after a registration attempt, or why it is unchanged. */
  function Insert(users: seq<User>, u: User): (r: Result<seq<User>>)
    ensures r.Err? <==> EmailTaken(users, u.email)
    ensures r.Err? ==> r.error == UserExists
    ensures r.Ok? ==> |r.value| == |users| + 1 && r.value[..|users|] == users && r.value[|users|] == u
  {
    if EmailTaken(users, u.email) then Err(UserExists) else Ok(users + [u])
  }

  /** A taken email is rejected and leaves the table as it was; a free one
      adds exactly the new record at the end and keeps emails distinct. */
  lemma InsertKeepsDistinct(users: seq<User>, u: User)
    requires DistinctEmails(users)
    ensures Insert(users, u).Err? <==> EmailTaken(users, u.email)
    ensures Insert(users, u).Ok? ==>
      && Insert(users, u).value == users + [u]
      && DistinctEmails(Insert(users, u).value)
  {
  }

  lemma {:induction false} UsersWithAppend(users: seq<User>, u: User, email: string)
    ensures UsersWith(users + [u], email) == UsersWith(users, email) + (if u.email == email then 1 else 0)
  {
    if users == [] {
      assert [u][1..] == [];
    } else {
      assert (users + [u])[1..] == users[1..] + [u];
      UsersWithAppend(users[1..], u, email);
    }
  }

  /** The count is zero exactly when no record carries the email. */
  lemma {:induction false} UsersWithCountsTaken(users: seq<User>, email: string)
    ensures UsersWith(users, email) == 0 <==> !EmailTaken(users, email)
  {
    if users != [] {
      UsersWithCountsTaken(users[1..], email);
      if EmailTaken(users[1..], email) {
        var i :| 0 <= i < |users[1..]| && users[1..][i].email == email;
        assert users[i + 1].email == email;
      }
      if EmailTaken(users, email) && users[0].email != email {
        var i :| 0 <= i < |users| && users[i].email == email;
        assert users[1..][i - 1].email == email;
      }
    }
  }

  /** Registering twice with one email: the first attempt on a table
      without that email succeeds, the second fails, and exactly one record
      carries the email. */
  lemma RegisterTwice(users: seq<User>, u: User, v: User)
    requires !EmailTaken(users, u.email)
    requires v.email == u.email
    ensures Insert(users, u).Ok?
    ensures Insert(Insert(users, u).value, v) == Err(UserExists)
    ensures UsersWith(Insert(users, u).value, u.email) == 1
  {
    var us := users + [u];
    assert us[|users|].email == v.email;
    UsersWithCountsTaken(users, u.email);
    UsersWithAppend(users, u, u.email);
  }

  /** Sequential registrations; a rejected attempt keeps the table. */
  function RegisterAll(users: seq<User>, attempts: seq<User>): seq<User>
    decreases |attempts|
  {
    if attempts == [] then users
    else
      var next := match Insert(users, attempts[0]) case Ok(us) => us case Err(_) => users;
      RegisterAll(next, attempts[1..])
  }

  /** Under sequential calls emails stay pairwise distinct, and the table
      never grows by more than the number of attempts. */
  lemma {:induction false} RegisterAllDistinct(users: seq<User>, attempts: seq<User>)
    requires DistinctEmails(users)
    ensures DistinctEmails(RegisterAll(users, attempts))
    ensures |users| <= |RegisterAll(users, attempts)| <= |users| + |attempts|
    decreases |attempts|
  {
    if attempts != [] {
      InsertKeepsDistinct(users, attempts[0]);
      var next := match Insert(users, attempts[0]) case Ok(us) => us case Err(_) => users;
      RegisterAllDistinct(next, attempts[1..]);
    }
  }

  /** The user collection, updated in place by registration. */
  class UserCollection {
    var users: seq<User>

    constructor ()
      ensures users == []
    {
      users := [];
    }

    /** Reject a taken email; otherwise insert one record whose password
        field is the hash computed outside. */
    method Register(userName: string, email: string, passwordHash: string, profile: map<string, string>)
      returns (o: Outcome)
      modifies this
      ensures match Insert(old(users), User(userName, email, profile, passwordHash))
        case Ok(us) => o == Pass && users == us
        case Err(x) => o == Fail(x) && users == old(users)
      ensures old(DistinctEmails(users)) ==> DistinctEmails(users)
    {
      var u := User(userName, email, profile, passwordHash);
      ghost var before := users;
      if exists i :: 0 <= i < |users| && users[i].email == email {
        return Fail(UserExists);
      }
      users := users + [u];
      o := Pass;
      if DistinctEmails(before) {
        InsertKeepsDistinct(before, u);
      }
    }
  }
}

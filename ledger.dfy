/** The entities of a tour's shared ledger: friends, expenses and the tour
    document that owns both, plus the error outcomes of the tour and user
    operations. A document field that the store may lack (`friends`,
    `expenses`, `organizerBy`) is an `Option`. */
module Ledger {

  datatype Option<+T> = None | Some(value: T)

  /** The failures the handlers report. */
  datatype Error =
    | TourNotFound    // "Tour not found" (404)
    | FriendNotFound  // "Friend not found in the tour" (404)
    | InternalError   // an exception caught by the handler (500), e.g. reading a missing friends list
    | UserExists      // "User already exists" (400)

  datatype Result<+T> = Ok(value: T) | Err(error: Error)

  /** The result of an in-place update that returns nothing on success. */
  datatype Outcome = Pass | Fail(error: Error)

  /** A participant of a tour. `profile` stands for the remaining fields of
      the request body the friend was added from. */
  datatype Friend = Friend(email: string, profile: map<string, string>, balance: real)

  /** One recorded payment; `email` names the friend who fronted it. */
  datatype Expense = Expense(payer: string, amount: real, details: string, email: string)

  /** A tour document. `fields` stands for the descriptive fields (name,
      itinerary, dates, cost, ...) that the ledger operations never touch. */
  datatype Tour = Tour(
    id: string,
    organizerBy: Option<string>,
    fields: map<string, string>,
    friends: Option<seq<Friend>>,
    expenses: Option<seq<Expense>>)

  /** The friend list, a missing one read as empty. */
  function FriendList(t: Tour): seq<Friend> {
    if t.friends.Some? then t.friends.value else []
  }

  /** The expense list, a missing one read as empty. */
  function ExpenseList(t: Tour): seq<Expense> {
    if t.expenses.Some? then t.expenses.value else []
  }

  /** The sum of all balances of a friend list. */
  function Total(fs: seq<Friend>): real {
    if fs == [] then 0.0 else fs[0].balance + Total(fs[1..])
  }

  /** How many entries of a friend list carry the given email. */
  function CountEmail(fs: seq<Friend>, email: string): nat {
    if fs == [] then 0 else (if fs[0].email == email then 1 else 0) + CountEmail(fs[1..], email)
  }

  /** Some entry carries the email. (The user table of module Users has its
      own record type, so it keeps its own `EmailTaken` and `UsersWith`.) */
  predicate HasEmail(fs: seq<Friend>, email: string) {
    exists i :: 0 <= i < |fs| && fs[i].email == email
  }

  lemma {:induction false} CountEmailPositive(fs: seq<Friend>, email: string)
    ensures CountEmail(fs, email) > 0 <==> HasEmail(fs, email)
  {
    if fs != [] {
      CountEmailPositive(fs[1..], email);
      if HasEmail(fs[1..], email) {
        var i :| 0 <= i < |fs[1..]| && fs[1..][i].email == email;
        assert fs[i + 1].email == email;
      }
      if HasEmail(fs, email) && fs[0].email != email {
        var i :| 0 <= i < |fs| && fs[i].email == email;
        assert fs[1..][i - 1].email == email;
      }
    }
  }

  lemma {:induction false} CountEmailConcat(a: seq<Friend>, b: seq<Friend>, email: string)
    ensures CountEmail(a + b, email) == CountEmail(a, email) + CountEmail(b, email)
  {
    if a != [] {
      assert (a + b)[1..] == a[1..] + b;
      CountEmailConcat(a[1..], b, email);
    } else {
      assert a + b == b;
    }
  }
}

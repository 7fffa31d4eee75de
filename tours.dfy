/** The tour handlers that read a tour, transform it in memory and write it
    back: add a friend, remove a friend, add an expense. The store's read is
    the `found` argument (None when no tour has the id) and the store's
    write is the `Ok` result; on `Err` nothing is written. */
module Tours {
  import opened Ledger
  import opened Settlement

  // ---------------------------------------------------------------------
  // Add friend: a fresh document whose friend list is the old one (a
  // missing list read as empty) with the request body appended.
  // ---------------------------------------------------------------------

  function AddFriend(found: Option<Tour>, f: Friend): (r: Result<Tour>)
    ensures found.None? <==> r == Err(TourNotFound)
    ensures found.Some? ==> r.Ok? && r.value.friends.Some?
    ensures found.Some? ==>
      var fs, fs' := FriendList(found.value), r.value.friends.value;
      && |fs'| == |fs| + 1
      && fs'[..|fs|] == fs
      && fs'[|fs|] == f
      && r.value.(friends := found.value.friends) == found.value
  {
    match found
    case None => Err(TourNotFound)
    case Some(t) => Ok(t.(friends := Some(FriendList(t) + [f])))
  }

  /** There is no de-duplication: the new friend's email occurs once more
      than before, even when it was already on the list. */
  lemma AddFriendKeepsDuplicates(t: Tour, f: Friend)
    ensures CountEmail(AddFriend(Some(t), f).value.friends.value, f.email) ==
      CountEmail(FriendList(t), f.email) + 1
  {
    CountEmailConcat(FriendList(t), [f], f.email);
    assert CountEmail([f], f.email) == 1 by {
      assert [f][1..] == [];
    }
  }

  // ---------------------------------------------------------------------
  // Remove friend: findIndex on the email, then splice out that entry.
  // ---------------------------------------------------------------------

  /** The first index whose entry carries the email, if any. */
  function FirstMatch(fs: seq<Friend>, email: string): (r: Option<nat>)
    ensures r.None? <==> !HasEmail(fs, email)
    ensures r.Some? ==>
      && r.value < |fs|
      && fs[r.value].email == email
      && forall j :: 0 <= j < r.value ==> fs[j].email != email
  {
    if fs == [] then None
    else if fs[0].email == email then Some(0)
    else match FirstMatch(fs[1..], email)
      case None =>
        assert forall j :: 1 <= j < |fs| ==> fs[j].email == fs[1..][j - 1].email;
        None
      case Some(k) =>
        assert fs[k + 1] == fs[1..][k];
        assert forall j :: 1 <= j < k + 1 ==> fs[j] == fs[1..][j - 1];
        Some(k + 1)
  }

  /** `Array.prototype.findIndex` on the email: -1 when no entry matches. */
  method FindFriendIndex(fs: seq<Friend>, email: string) returns (i: int)
    ensures -1 <= i < |fs|
    ensures i == -1 <==> !HasEmail(fs, email)
    ensures i != -1 ==> FirstMatch(fs, email) == Some(i)
  {
    i := 0;
    while i < |fs|
      invariant 0 <= i <= |fs|
      invariant forall j :: 0 <= j < i ==> fs[j].email != email
    {
      if fs[i].email == email {
        return;
      }
      i := i + 1;
    }
    i := -1;
  }

  /** What the remove-friend handler writes back, or why it writes nothing.
      Reading `findIndex` of a missing friend list throws, which the handler
      reports as an internal error. */
  function FriendRemoved(found: Option<Tour>, email: string): (r: Result<Tour>)
    ensures r.Ok? <==> found.Some? && found.value.friends.Some? && HasEmail(found.value.friends.value, email)
  {
    match found
    case None => Err(TourNotFound)
    case Some(t) =>
      if t.friends.None? then Err(InternalError)
      else
        var fs := t.friends.value;
        match FirstMatch(fs, email)
        case None => Err(FriendNotFound)
        case Some(i) => Ok(t.(friends := Some(fs[..i] + fs[i + 1..])))
  }

  /** No entry with the email: "friend not found", nothing written. */
  lemma RemoveFriendMissing(t: Tour, email: string)
    requires t.friends.Some? && !HasEmail(t.friends.value, email)
    ensures FriendRemoved(Some(t), email) == Err(FriendNotFound)
    ensures FriendRemoved(None, email) == Err(TourNotFound)
  {
  }

  /** With i the first index carrying the email, exactly that entry is spliced
      out and every other field of the tour is kept. */
  lemma RemoveFriendFirst(t: Tour, email: string, i: nat)
    requires t.friends.Some? && i < |t.friends.value|
    requires t.friends.value[i].email == email
    requires forall j :: 0 <= j < i ==> t.friends.value[j].email != email
    ensures FriendRemoved(Some(t), email) ==
      Ok(t.(friends := Some(t.friends.value[..i] + t.friends.value[i + 1..])))
  {
  }

  /** A successful removal shortens the list by one, drops exactly one
      occurrence of the email (later duplicates stay), leaves the count of
      every other email alone and keeps the remaining entries as a
      sub-multiset of the old list. */
  lemma RemoveFriendCounts(t: Tour, email: string)
    requires t.friends.Some? && HasEmail(t.friends.value, email)
    ensures FriendRemoved(Some(t), email).Ok?
    ensures
      var fs, fs' := t.friends.value, FriendRemoved(Some(t), email).value.friends.value;
      && |fs'| == |fs| - 1
      && CountEmail(fs', email) == CountEmail(fs, email) - 1
      && (forall e :: e != email ==> CountEmail(fs', e) == CountEmail(fs, e))
      && exists i :: 0 <= i < |fs| && fs[i].email == email && multiset(fs') + multiset{fs[i]} == multiset(fs)
  {
    var fs := t.friends.value;
    var i := FirstMatch(fs, email).value;
    var fs' := fs[..i] + fs[i + 1..];
    assert FriendRemoved(Some(t), email).value.friends.value == fs';
    assert fs == fs[..i] + ([fs[i]] + fs[i + 1..]);
    forall e
      ensures CountEmail(fs, e) == CountEmail(fs', e) + (if fs[i].email == e then 1 else 0)
    {
      CountEmailConcat(fs[..i], [fs[i]] + fs[i + 1..], e);
      CountEmailConcat([fs[i]], fs[i + 1..], e);
      assert ([fs[i]] + fs[i + 1..])[1..] == fs[i + 1..];
      CountEmailConcat(fs[..i], fs[i + 1..], e);
    }
    assert multiset(fs) == multiset(fs[..i]) + multiset{fs[i]} + multiset(fs[i + 1..]);
  }

  /** Adding a friend whose email is new and then removing that email gives
      back the original friend list. */
  lemma AddThenRemoveFriend(t: Tour, f: Friend)
    requires !HasEmail(FriendList(t), f.email)
    ensures FriendRemoved(Some(AddFriend(Some(t), f).value), f.email) ==
      Ok(t.(friends := Some(FriendList(t))))
  {
    var fs := FriendList(t);
    var t' := AddFriend(Some(t), f).value;
    assert t'.friends.value == fs + [f];
    RemoveFriendFirst(t', f.email, |fs|);
    assert (fs + [f])[..|fs|] + (fs + [f])[|fs| + 1..] == fs;
  }

  // ---------------------------------------------------------------------
  // Add expense: create the expense list if missing, push the expense,
  // then settle the equal split over the friend list.
  // ---------------------------------------------------------------------

  /** What the add-expense handler writes back, or why it writes nothing.
      Reading the length of a missing friend list throws, which the handler
      reports as an internal error. */
  function ExpenseAdded(found: Option<Tour>, e: Expense): (r: Result<Tour>)
    ensures r.Ok? <==> found.Some? && found.value.friends.Some?
    ensures r.Ok? ==> r.value.friends.Some? && |r.value.friends.value| == |found.value.friends.value|
  {
    match found
    case None => Err(TourNotFound)
    case Some(t) =>
      if t.friends.None? then Err(InternalError)
      else Ok(t.(expenses := Some(ExpenseList(t) + [e]),
                 friends := Some(Split(t.friends.value, e.email, e.amount))))
  }

  /** The handler fails exactly when the tour or its friend list is missing;
      otherwise exactly one expense is appended at the end (after an empty
      list is created if there was none) and the earlier expenses, the id,
      the organizer and the descriptive fields are kept. */
  lemma AddExpenseAppends(found: Option<Tour>, e: Expense)
    ensures found.None? ==> ExpenseAdded(found, e) == Err(TourNotFound)
    ensures found.Some? && found.value.friends.None? ==> ExpenseAdded(found, e) == Err(InternalError)
    ensures found.Some? && found.value.friends.Some? ==>
      && ExpenseAdded(found, e).Ok?
      && var t, t' := found.value, ExpenseAdded(found, e).value;
      && t'.expenses.Some?
      && |t'.expenses.value| == |ExpenseList(t)| + 1
      && t'.expenses.value[..|ExpenseList(t)|] == ExpenseList(t)
      && t'.expenses.value[|ExpenseList(t)|] == e
      && t'.id == t.id && t'.organizerBy == t.organizerBy && t'.fields == t.fields
  {
  }

  /** With n friends, each friend whose email is the expense's email ends at
      balance + (amount - amount/n), each other friend at balance - amount/n;
      length, order, emails and profiles are kept. */
  lemma AddExpenseBalances(t: Tour, e: Expense, i: nat)
    requires t.friends.Some? && i < |t.friends.value|
    ensures ExpenseAdded(Some(t), e).Ok?
    ensures
      var fs, fs' := t.friends.value, ExpenseAdded(Some(t), e).value.friends.value;
      var n := |fs| as real;
      && |fs'| == |fs|
      && fs'[i].email == fs[i].email
      && fs'[i].profile == fs[i].profile
      && fs'[i].balance ==
        if fs[i].email == e.email then fs[i].balance + (e.amount - e.amount / n)
        else fs[i].balance - e.amount / n
  {
    SplitAt(t.friends.value, e.email, e.amount, i);
  }

  /** With k friends matching the payer email, the total of the balances
      changes by (k - 1) * amount: kept when exactly one matches, down by the
      amount when none does. */
  lemma AddExpenseTotal(t: Tour, e: Expense)
    requires t.friends.Some? && |t.friends.value| > 0
    ensures ExpenseAdded(Some(t), e).Ok?
    ensures
      var fs, fs' := t.friends.value, ExpenseAdded(Some(t), e).value.friends.value;
      && Total(fs') == Total(fs) + (CountEmail(fs, e.email) as real) * e.amount - e.amount
      && (CountEmail(fs, e.email) == 1 ==> Total(fs') == Total(fs))
      && (!HasEmail(fs, e.email) ==> Total(fs') == Total(fs) - e.amount)
  {
    var fs := t.friends.value;
    SplitTotal(fs, e.email, e.amount);
    if CountEmail(fs, e.email) == 1 {
      SplitKeepsTotal(fs, e.email, e.amount);
    }
    if !HasEmail(fs, e.email) {
      CountEmailPositive(fs, e.email);
      SplitLosesCredit(fs, e.email, e.amount);
    }
  }

  /** On a tour with an empty friend list only the expense list changes. */
  lemma AddExpenseNoFriends(t: Tour, e: Expense)
    requires t.friends == Some([])
    ensures ExpenseAdded(Some(t), e) == Ok(t.(expenses := Some(ExpenseList(t) + [e])))
  {
  }

  /** Several add-expense requests served one after another. */
  function AddExpenses(t: Tour, es: seq<Expense>): (r: Result<Tour>)
    ensures r.Ok? <==> es == [] || t.friends.Some?
    ensures r.Ok? && t.friends.Some? ==> r.value.friends.Some? && |r.value.friends.value| == |t.friends.value|
    decreases |es|
  {
    if es == [] then Ok(t)
    else match ExpenseAdded(Some(t), es[0])
      case Err(x) => Err(x)
      case Ok(t') => AddExpenses(t', es[1..])
  }

  /** Zero-sum ledger over a history: when every expense's email belongs to
      exactly one friend, serialized add-expense requests keep the friend
      list's length and total (so a zero total stays zero) and append the
      expenses in order. */
  lemma {:induction false} AddExpensesKeepTotal(t: Tour, es: seq<Expense>)
    requires t.friends.Some?
    requires forall k :: 0 <= k < |es| ==> CountEmail(t.friends.value, es[k].email) == 1
    ensures AddExpenses(t, es).Ok?
    ensures AddExpenses(t, es).value.friends.Some?
    ensures |AddExpenses(t, es).value.friends.value| == |t.friends.value|
    ensures Total(AddExpenses(t, es).value.friends.value) == Total(t.friends.value)
    ensures ExpenseList(AddExpenses(t, es).value) == ExpenseList(t) + es
    decreases |es|
  {
    if es != [] {
      var fs := t.friends.value;
      var t' := ExpenseAdded(Some(t), es[0]).value;
      SplitKeepsTotal(fs, es[0].email, es[0].amount);
      forall k | 0 <= k < |es[1..]|
        ensures CountEmail(t'.friends.value, es[1..][k].email) == 1
      {
        SplitCount(fs, es[0].email, es[0].amount, es[1..][k].email);
        assert es[1..][k] == es[k + 1];
      }
      SplitCount(fs, es[0].email, es[0].amount, es[0].email);
      AddExpensesKeepTotal(t', es[1..]);
      assert ExpenseList(t') == ExpenseList(t) + [es[0]];
      assert ExpenseList(t) + [es[0]] + es[1..] == ExpenseList(t) + es;
    }
  }

  // ---------------------------------------------------------------------
  // The loaded document, updated in place by the two handlers that mutate
  // it before writing it back.
  // ---------------------------------------------------------------------

  class TourDocument {
    var id: string
    var organizerBy: Option<string>
    var fields: map<string, string>
    var friends: Option<seq<Friend>>
    var expenses: Option<seq<Expense>>

    /** The document as the store would receive it. */
    function Value(): Tour
      reads this
    {
      Tour(id, organizerBy, fields, friends, expenses)
    }

    constructor (t: Tour)
      ensures Value() == t
    {
      id, organizerBy, fields := t.id, t.organizerBy, t.fields;
      friends, expenses := t.friends, t.expenses;
    }

    /** Push the expense, then walk the friends crediting the payer and
        debiting everyone else. When the friend list is missing the push has
        already happened in memory when the length read fails. */
    method AddExpense(payer: string, amount: real, details: string, email: string) returns (o: Outcome)
      modifies this
      ensures
        var e := Expense(payer, amount, details, email);
        match ExpenseAdded(Some(old(Value())), e)
        case Ok(t) => o == Pass && Value() == t
        case Err(x) =>
          o == Fail(x) && Value() == old(Value()).(expenses := Some(ExpenseList(old(Value())) + [e]))
    {
      ghost var loaded := Value();
      if expenses.None? {
        expenses := Some([]);
      }
      expenses := Some(expenses.value + [Expense(payer, amount, details, email)]);
      assert expenses.value == ExpenseList(loaded) + [Expense(payer, amount, details, email)];
      if friends.None? {
        return Fail(InternalError);
      }
      var fs := friends.value;
      ghost var before := fs;
      var n := |fs|;
      if n > 0 {
        var share := amount / (n as real);
        var i := 0;
        while i < n
          invariant 0 <= i <= n == |fs|
          invariant forall j :: 0 <= j < i ==> fs[j] == Settled(before[j], email, amount, share)
          invariant forall j :: i <= j < n ==> fs[j] == before[j]
        {
          if fs[i].email == email {
            fs := fs[i := fs[i].(balance := fs[i].balance + (amount - share))];
          } else {
            fs := fs[i := fs[i].(balance := fs[i].balance - share)];
          }
          i := i + 1;
        }
        forall j | 0 <= j < n
          ensures |SettleAll(before, email, amount, share)| == n
          ensures fs[j] == SettleAll(before, email, amount, share)[j]
        {
          SettleAllAt(before, email, amount, share, j);
        }
        assert fs == Split(before, email, amount);
        friends := Some(fs);
      }
      o := Pass;
    }

    /** Find the first friend with the email and splice it out. */
    method RemoveFriend(email: string) returns (o: Outcome)
      modifies this
      ensures
        match FriendRemoved(Some(old(Value())), email)
        case Ok(t) => o == Pass && Value() == t
        case Err(x) => o == Fail(x) && Value() == old(Value())
    {
      if friends.None? {
        return Fail(InternalError);
      }
      var i := FindFriendIndex(friends.value, email);
      if i == -1 {
        return Fail(FriendNotFound);
      }
      var fs := friends.value;
      assert FriendRemoved(Some(Value()), email) == Ok(Value().(friends := Some(fs[..i] + fs[i + 1..])));
      friends := Some(fs[..i] + fs[i + 1..]);
      o := Pass;
    }
  }

  /** The add-expense handler: read, update the loaded document in place,
      and return what is written back. */
  method HandleAddExpense(found: Option<Tour>, payer: string, amount: real, details: string, email: string)
    returns (r: Result<Tour>)
    ensures r == ExpenseAdded(found, Expense(payer, amount, details, email))
  {
    if found.None? {
      return Err(TourNotFound);
    }
    var doc := new TourDocument(found.value);
    var o := doc.AddExpense(payer, amount, details, email);
    r := if o.Pass? then Ok(doc.Value()) else Err(o.error);
  }

  /** The remove-friend handler: read, splice the loaded document in place,
      and return what is written back. */
  method HandleRemoveFriend(found: Option<Tour>, email: string) returns (r: Result<Tour>)
    ensures r == FriendRemoved(found, email)
  {
    if found.None? {
      return Err(TourNotFound);
    }
    var doc := new TourDocument(found.value);
    var o := doc.RemoveFriend(email);
    r := if o.Pass? then Ok(doc.Value()) else Err(o.error);
  }
}

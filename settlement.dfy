/** The equal-split settlement that adding an expense applies to a tour's
    friend list: with n friends, the friend whose email is the expense's
    email is credited `amount - amount/n` and every other friend is debited
    `amount/n`. Amounts and balances are exact reals. */
module Settlement {
  import opened Ledger

  /** One friend's new entry, given the per-person share. */
  function Settled(f: Friend, email: string, amount: real, share: real): Friend {
    if f.email == email then f.(balance := f.balance + (amount - share))
    else f.(balance := f.balance - share)
  }

  /** Every entry settled with the same share, in order. */
  function SettleAll(fs: seq<Friend>, email: string, amount: real, share: real): (r: seq<Friend>)
    ensures |r| == |fs|
  {
    if fs == [] then [] else [Settled(fs[0], email, amount, share)] + SettleAll(fs[1..], email, amount, share)
  }

  /** The split applied to a friend list. With no friends there is nothing
      to visit, so the list stays as it is. */
  function Split(fs: seq<Friend>, email: string, amount: real): (r: seq<Friend>)
    ensures |r| == |fs|
  {
    if |fs| == 0 then fs else SettleAll(fs, email, amount, amount / (|fs| as real))
  }

  lemma {:induction false} SettleAllAt(fs: seq<Friend>, email: string, amount: real, share: real, i: nat)
    requires i < |fs|
    ensures |SettleAll(fs, email, amount, share)| == |fs|
    ensures SettleAll(fs, email, amount, share)[i] == Settled(fs[i], email, amount, share)
  {
    if i > 0 {
      SettleAllAt(fs[1..], email, amount, share, i - 1);
    } else if |fs| > 1 {
      SettleAllAt(fs[1..], email, amount, share, 0);
    }
  }

  /** Entry by entry: the split keeps length, order, emails and profiles and
      changes each balance by the credit or the debit. */
  lemma SplitAt(fs: seq<Friend>, email: string, amount: real, i: nat)
    requires i < |fs|
    ensures |Split(fs, email, amount)| == |fs|
    ensures Split(fs, email, amount)[i].email == fs[i].email
    ensures Split(fs, email, amount)[i].profile == fs[i].profile
    ensures Split(fs, email, amount)[i].balance ==
      if fs[i].email == email then fs[i].balance + (amount - amount / (|fs| as real))
      else fs[i].balance - amount / (|fs| as real)
  {
    SettleAllAt(fs, email, amount, amount / (|fs| as real), i);
  }

  /** Settling with share s moves the total by k*amount - n*s, where k friends
      match the email and n friends are visited. */
  lemma {:induction false} SettleAllTotal(fs: seq<Friend>, email: string, amount: real, share: real)
    ensures Total(SettleAll(fs, email, amount, share)) ==
      Total(fs) + (CountEmail(fs, email) as real) * amount - (|fs| as real) * share
  {
    if fs != [] {
      SettleAllTotal(fs[1..], email, amount, share);
      assert SettleAll(fs, email, amount, share)[1..] == SettleAll(fs[1..], email, amount, share);
      var k := CountEmail(fs[1..], email) as real;
      var n := |fs[1..]| as real;
      assert |fs| as real == n + 1.0;
      PlusOneTimes(n, share);
      if fs[0].email == email {
        assert CountEmail(fs, email) as real == k + 1.0;
        PlusOneTimes(k, amount);
      } else {
        assert CountEmail(fs, email) as real == k;
      }
    }
  }

  lemma PlusOneTimes(x: real, y: real)
    ensures (x + 1.0) * y == x * y + y
  {
  }

  /** Conservation: with n > 0 friends of whom k match the email, the total
      of all balances changes by exactly k * amount - amount, i.e. by
      (k - 1) * amount. */
  lemma SplitTotal(fs: seq<Friend>, email: string, amount: real)
    requires |fs| > 0
    ensures Total(Split(fs, email, amount)) == Total(fs) + (CountEmail(fs, email) as real) * amount - amount
  {
    var n := |fs| as real;
    SettleAllTotal(fs, email, amount, amount / n);
    assert n * (amount / n) == amount;
  }

  /** Zero-sum ledger: when exactly one friend is the payer, the split keeps
      the total; in particular a zero total stays zero. */
  lemma SplitKeepsTotal(fs: seq<Friend>, email: string, amount: real)
    requires CountEmail(fs, email) == 1
    ensures Total(Split(fs, email, amount)) == Total(fs)
  {
    CountEmailPositive(fs, email);
    SplitTotal(fs, email, amount);
  }

  /** When no friend is the payer, the payer's credit is lost: the total of
      the balances drops by the whole amount. */
  lemma SplitLosesCredit(fs: seq<Friend>, email: string, amount: real)
    requires |fs| > 0 && CountEmail(fs, email) == 0
    ensures Total(Split(fs, email, amount)) == Total(fs) - amount
  {
    SplitTotal(fs, email, amount);
    assert (CountEmail(fs, email) as real) * amount == 0.0;
  }

  /** The split keeps every email, so it keeps how often each one occurs. */
  lemma {:induction false} SettleAllCount(fs: seq<Friend>, email: string, amount: real, share: real, e: string)
    ensures CountEmail(SettleAll(fs, email, amount, share), e) == CountEmail(fs, e)
  {
    if fs != [] {
      SettleAllCount(fs[1..], email, amount, share, e);
      assert SettleAll(fs, email, amount, share)[1..] == SettleAll(fs[1..], email, amount, share);
    }
  }

  lemma SplitCount(fs: seq<Friend>, email: string, amount: real, e: string)
    ensures |Split(fs, email, amount)| == |fs|
    ensures CountEmail(Split(fs, email, amount), e) == CountEmail(fs, e)
  {
    if |fs| > 0 {
      SettleAllCount(fs, email, amount, amount / (|fs| as real), e);
      SettleAllAt(fs, email, amount, amount / (|fs| as real), 0);
    }
  }

  /** Three friends at zero, the first pays 90: the shares are 30, the payer
      ends at 60, the others at -30, and the total stays 0. */
  lemma SplitNinetyThreeWays(a: Friend, b: Friend, c: Friend)
    requires a.balance == 0.0 && b.balance == 0.0 && c.balance == 0.0
    requires b.email != a.email && c.email != a.email
    ensures Split([a, b, c], a.email, 90.0) ==
      [a.(balance := 60.0), b.(balance := -30.0), c.(balance := -30.0)]
    ensures Total(Split([a, b, c], a.email, 90.0)) == 0.0
  {
    var fs := [a, b, c];
    SplitAt(fs, a.email, 90.0, 0);
    SplitAt(fs, a.email, 90.0, 1);
    SplitAt(fs, a.email, 90.0, 2);
    var r := Split(fs, a.email, 90.0);
    assert r == [r[0], r[1], r[2]];
    assert r[0] == a.(balance := 60.0);
    assert r[1] == b.(balance := -30.0);
    assert r[2] == c.(balance := -30.0);
    assert r[1..][1..] == [r[2]];
    assert Total(r[1..][1..]) == -30.0;
    assert Total(r[1..]) == -60.0;
  }
}

/** Listing the tours of one email: a tour is listed when its organizer is
    that email or one of its friends carries it, in the store's order. */
module Lookup {
  import opened Ledger

  /** The query `$or` of an `organizerBy` match and an `$elemMatch` on the
      friends' emails. A tour without a friend list matches only through its
      organizer. */
  predicate BelongsTo(t: Tour, email: string) {
    t.organizerBy == Some(email) || HasEmail(FriendList(t), email)
  }

  function ToursFor(tours: seq<Tour>, email: string): (r: seq<Tour>)
    ensures |r| <= |tours|
    ensures forall i :: 0 <= i < |r| ==> BelongsTo(r[i], email) && r[i] in tours
    ensures forall i :: 0 <= i < |tours| && BelongsTo(tours[i], email) ==> tours[i] in r
  {
    if tours == [] then []
    else
      var rest := ToursFor(tours[1..], email);
      assert forall i :: 1 <= i < |tours| ==> tours[i] == tours[1..][i - 1];
      if BelongsTo(tours[0], email) then [tours[0]] + rest else rest
  }

  /** The filter distributes over concatenation, so it keeps the store's
      order: whatever precedes in the store precedes in the listing. */
  lemma {:induction false} ToursForConcat(a: seq<Tour>, b: seq<Tour>, email: string)
    ensures ToursFor(a + b, email) == ToursFor(a, email) + ToursFor(b, email)
  {
    if a == [] {
      assert a + b == b;
    } else {
      assert (a + b)[1..] == a[1..] + b;
      ToursForConcat(a[1..], b, email);
    }
  }

  /** When every tour belongs the listing is the whole store; when none does
      it is empty. */
  lemma {:induction false} ToursForExtremes(tours: seq<Tour>, email: string)
    ensures (forall i :: 0 <= i < |tours| ==> BelongsTo(tours[i], email)) ==> ToursFor(tours, email) == tours
    ensures (forall i :: 0 <= i < |tours| ==> !BelongsTo(tours[i], email)) ==> ToursFor(tours, email) == []
  {
    if tours != [] {
      ToursForExtremes(tours[1..], email);
      assert forall i :: 1 <= i < |tours| ==> tours[i] == tours[1..][i - 1];
      assert tours == [tours[0]] + tours[1..];
    }
  }
}

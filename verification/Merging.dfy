/** What a person's submissions add up to: first answers to the fixed questions, newest answers to the rest. */
module Merging {
  import opened Base
  import opened Contacts
  import opened Leads

  /** A lead created from the first submission and merged with the others, in order. */
  function MergeAll(ps: seq<Profile>): Profile
    requires ps != []
  {
    if |ps| == 1 then ps[0] else MergeProfile(MergeAll(ps[..|ps| - 1]), ps[|ps| - 1])
  }

  /** `known` is the first value anybody gave, or nobody gave one. */
  predicate FirstGiven<T(==)>(known: Option<T>, n: nat, given: int -> Option<T>) {
    match known
    case None => forall i :: 0 <= i < n ==> given(i).None?
    case Some(_) => exists i: nat :: i < n && given(i) == known && forall j :: 0 <= j < i ==> given(j).None?
  }

  lemma FirstGivenNext<T>(known: Option<T>, n: nat, given: int -> Option<T>)
    requires FirstGiven(known, n, given)
    ensures FirstGiven(known.OrElse(given(n)), n + 1, given)
  {
    if known.Some? {
      var i: nat :| i < n && given(i) == known && forall j :: 0 <= j < i ==> given(j).None?;
      assert i < n + 1 && given(i) == known;
    } else {
      assert given(n).Some? ==> n < n + 1 && forall j :: 0 <= j < n ==> given(j).None?;
    }
  }

  /** Position `i` of the submissions, or a blank. */
  function At(ps: seq<Profile>, i: int): Profile {
    if 0 <= i < |ps| then ps[i]
    else Profile(None, None, Contact(None, None), None, None, None, map[], false, false)
  }

  /** Every fixed field holds the first value given for it. */
  predicate FirstAnswersKept(merged: Profile, n: nat, ps: seq<Profile>) {
    && FirstGiven(merged.firstName, n, i => At(ps, i).firstName)
    && FirstGiven(merged.lastName, n, i => At(ps, i).lastName)
    && FirstGiven(merged.contact.email, n, i => At(ps, i).contact.email)
    && FirstGiven(merged.contact.phone, n, i => At(ps, i).contact.phone)
    && FirstGiven(merged.company, n, i => At(ps, i).company)
    && FirstGiven(merged.timezone, n, i => At(ps, i).timezone)
    && FirstGiven(merged.utm, n, i => At(ps, i).utm)
  }

  lemma FirstGivenOnce<T>(given: int -> Option<T>)
    ensures FirstGiven(given(0), 1, given)
  {
    assert given(0).Some? ==> 0 < 1 && given(0) == given(0);
  }

  lemma FirstAnswersOnce(ps: seq<Profile>)
    ensures FirstAnswersKept(At(ps, 0), 1, ps)
  {
    FirstGivenOnce(i => At(ps, i).firstName);
    FirstGivenOnce(i => At(ps, i).lastName);
    FirstGivenOnce(i => At(ps, i).contact.email);
    FirstGivenOnce(i => At(ps, i).contact.phone);
    FirstGivenOnce(i => At(ps, i).company);
    FirstGivenOnce(i => At(ps, i).timezone);
    FirstGivenOnce(i => At(ps, i).utm);
  }

  lemma FirstAnswersNext(merged: Profile, n: nat, ps: seq<Profile>)
    requires FirstAnswersKept(merged, n, ps)
    ensures FirstAnswersKept(MergeProfile(merged, At(ps, n)), n + 1, ps)
  {
    FirstGivenNext(merged.firstName, n, i => At(ps, i).firstName);
    FirstGivenNext(merged.lastName, n, i => At(ps, i).lastName);
    FirstGivenNext(merged.contact.email, n, i => At(ps, i).contact.email);
    FirstGivenNext(merged.contact.phone, n, i => At(ps, i).contact.phone);
    FirstGivenNext(merged.company, n, i => At(ps, i).company);
    FirstGivenNext(merged.timezone, n, i => At(ps, i).timezone);
    FirstGivenNext(merged.utm, n, i => At(ps, i).utm);
  }

  /** The answer to the question `k`, if the profile has one. */
  function Answer(p: Profile, k: string): Option<string> {
    if k in p.fields then Some(p.fields[k]) else None
  }

  /** `known` is the newest value anybody gave, or nobody gave one. */
  predicate NewestGiven<T(==)>(known: Option<T>, n: nat, given: int -> Option<T>) {
    match known
    case None => forall i :: 0 <= i < n ==> given(i).None?
    case Some(_) => exists i: nat :: i < n && given(i) == known && forall j :: i < j < n ==> given(j).None?
  }

  lemma NewestGivenNext<T>(known: Option<T>, n: nat, given: int -> Option<T>)
    requires n > 0 ==> NewestGiven(known, n, given)
    requires n == 0 ==> known.None?
    ensures NewestGiven(given(n).OrElse(known), n + 1, given)
  {
    if given(n).Some? {
      assert n < n + 1 && given(n) == given(n).OrElse(known);
    } else if known.Some? {
      var i: nat :| i < n && given(i) == known && forall j :: i < j < n ==> given(j).None?;
      assert i < n + 1 && given(i) == known;
    }
  }

  lemma MergeAllNext(ps: seq<Profile>, n: nat)
    requires 1 < n <= |ps|
    ensures MergeAll(ps[..n]) == MergeProfile(MergeAll(ps[..n - 1]), At(ps, n - 1))
  {
    assert ps[..n][..n - 1] == ps[..n - 1];
  }

  /** After any number of submissions every fixed field holds the first value given for it. */
  lemma {:induction false} FirstTouchWins(ps: seq<Profile>, n: nat)
    requires 0 < n <= |ps|
    ensures FirstAnswersKept(MergeAll(ps[..n]), n, ps)
  {
    if n == 1 {
      assert MergeAll(ps[..1]) == At(ps, 0);
      FirstAnswersOnce(ps);
    } else {
      FirstTouchWins(ps, n - 1);
      MergeAllNext(ps, n);
      FirstAnswersNext(MergeAll(ps[..n - 1]), n - 1, ps);
    }
  }

  /** After any number of submissions the answer to a free question is the newest one given. */
  lemma {:induction false} NewestAnswerWins(ps: seq<Profile>, n: nat, k: string)
    requires 0 < n <= |ps|
    ensures NewestGiven(Answer(MergeAll(ps[..n]), k), n, i => Answer(At(ps, i), k))
  {
    if n == 1 {
      assert MergeAll(ps[..1]) == At(ps, 0);
      NewestGivenNext(None, 0, i => Answer(At(ps, i), k));
    } else {
      NewestAnswerWins(ps, n - 1, k);
      MergeAllNext(ps, n);
      NewestGivenNext(Answer(MergeAll(ps[..n - 1]), k), n - 1, i => Answer(At(ps, i), k));
    }
  }

  /** After any number of submissions consent stands exactly when one of them gave it. */
  lemma {:induction false} ConsentIsSticky(ps: seq<Profile>, n: nat)
    requires 0 < n <= |ps|
    ensures MergeAll(ps[..n]).consentEmail <==> exists i :: 0 <= i < n && ps[i].consentEmail
    ensures MergeAll(ps[..n]).consentMessaging <==> exists i :: 0 <= i < n && ps[i].consentMessaging
  {
    if n == 1 {
      assert MergeAll(ps[..1]) == ps[0];
    } else {
      ConsentIsSticky(ps, n - 1);
      MergeAllNext(ps, n);
      assert At(ps, n - 1) == ps[n - 1];
    }
  }
}

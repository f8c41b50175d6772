/** The admin lead list: newest first, keyset-paginated on (createdAt, id). */
module Paging {
  import opened Base
  import opened Order

  // ----- Cursors -----

  /**
   How times are printed in a cursor (`toISOString` and `new Date`), taken as given. The
   surrounding base64url step loses nothing and is left out.
   */
  datatype TimeFormat = TimeFormat(show: int -> string, parse: string -> Option<int>) {
    ghost predicate Lawful() {
      forall t :: parse(show(t)) == Some(t) && '|' !in show(t)
    }
  }

  function EncodeCursor(f: TimeFormat, lead: Stamp): string {
    f.show(lead.at) + "|" + lead.id
  }

  /** The text up to the first '|', or all of it. */
  function UpToBar(s: string): string {
    if s == "" || s[0] == '|' then "" else [s[0]] + UpToBar(s[1..])
  }

  /** The first two '|'-separated fields; the id may not be missing or empty. */
  function DecodeCursor(f: TimeFormat, cursor: string): Option<Stamp> {
    var at := UpToBar(cursor);
    if |at| >= |cursor| then None
    else
      var id := UpToBar(cursor[|at| + 1..]);
      match f.parse(at)
      case None => None
      case Some(t) => if id == "" then None else Some(Stamp(t, id))
  }

  lemma {:induction false} UpToBarJoin(a: string, rest: string)
    requires '|' !in a
    ensures UpToBar(a + "|" + rest) == a
  {
    if a == "" {
      assert ("" + "|" + rest)[0] == '|';
    } else {
      assert (a + "|" + rest)[1..] == a[1..] + "|" + rest;
      UpToBarJoin(a[1..], rest);
    }
  }

  lemma {:induction false} UpToBarWhole(s: string)
    ensures UpToBar(s) == s <==> '|' !in s
    ensures '|' !in UpToBar(s) && |UpToBar(s)| <= |s|
  {
    if s == "" {
    } else {
      UpToBarWhole(s[1..]);
      assert s == [s[0]] + s[1..];
    }
  }

  /** Decoding inverts encoding exactly for the ids that are not empty and hold no '|'. */
  lemma CursorRoundTrip(f: TimeFormat, lead: Stamp)
    requires f.Lawful()
    ensures DecodeCursor(f, EncodeCursor(f, lead)) == Some(lead) <==> lead.id != "" && '|' !in lead.id
  {
    var at := f.show(lead.at);
    assert f.parse(at) == Some(lead.at) && '|' !in at;
    UpToBarJoin(at, lead.id);
    assert EncodeCursor(f, lead)[|at| + 1..] == lead.id;
    UpToBarWhole(lead.id);
  }

  /** A cursor is a time, a bar and an id; whatever follows a second bar is ignored, anything else is no cursor. */
  lemma CursorsAreTimeAndId(f: TimeFormat, at: string, id: string, rest: string)
    requires '|' !in at && '|' !in id
    ensures DecodeCursor(f, at).None?
    ensures
      var stamp := if f.parse(at).Some? && id != "" then Some(Stamp(f.parse(at).value, id)) else None;
      DecodeCursor(f, at + "|" + id) == stamp && DecodeCursor(f, at + "|" + id + "|" + rest) == stamp
  {
    UpToBarWhole(at);
    UpToBarWhole(id);
    UpToBarJoin(at, id);
    UpToBarJoin(id, rest);
    UpToBarJoin(at, id + "|" + rest);
    assert at + "|" + id + "|" + rest == at + "|" + (id + "|" + rest);
    assert (at + "|" + id)[|at| + 1..] == id;
    assert (at + "|" + (id + "|" + rest))[|at| + 1..] == id + "|" + rest;
  }

  // ----- The list -----

  /** `s` from newest to oldest, strictly. */
  predicate Descending(s: seq<Stamp>) {
    forall i, j :: 0 <= i < j < |s| ==> Before(s[j], s[i])
  }

  lemma NewestExists(leads: set<Stamp>)
    requires leads != {}
    ensures exists m :: m in leads && forall x :: x in leads && x != m ==> Before(x, m)
  {
    var m :| m in leads;
    if leads - {m} != {} {
      NewestExists(leads - {m});
      var n :| n in leads - {m} && forall x :: x in leads - {m} && x != n ==> Before(x, n);
      BeforeTotal(m, n);
      if Before(n, m) {
        forall x | x in leads && x != m ensures Before(x, m) {
          if x != n { BeforeTransitive(x, n, m); }
        }
        assert m in leads && forall x :: x in leads && x != m ==> Before(x, m);
      } else {
        assert n in leads && forall x :: x in leads && x != n ==> Before(x, n);
      }
    } else {
      assert leads == {m};
      assert m in leads && forall x :: x in leads && x != m ==> Before(x, m);
    }
  }

  /** The leads, newest first: the whole list a reader wants to see. */
  ghost function Listing(leads: set<Stamp>): seq<Stamp> {
    if leads == {} then []
    else
      NewestExists(leads);
      var m :| m in leads && forall x :: x in leads && x != m ==> Before(x, m);
      [m] + Listing(leads - {m})
  }

  lemma {:induction false} ListingIsSorted(leads: set<Stamp>)
    ensures Descending(Listing(leads))
    ensures |Listing(leads)| == |leads|
    ensures forall x :: x in Listing(leads) <==> x in leads
  {
    if leads == {} {
    } else {
      var m := Listing(leads)[0];
      ListingIsSorted(leads - {m});
      var rest := Listing(leads - {m});
      assert Listing(leads) == [m] + rest;
      assert forall i :: 0 <= i < |rest| ==> rest[i] in leads - {m};
    }
  }

  /** The leads strictly older than the cursor. */
  ghost function After(leads: set<Stamp>, cursor: Option<Stamp>): set<Stamp> {
    set x | x in leads && (cursor.Some? ==> Before(x, cursor.value))
  }

  datatype Page = Page(leads: seq<Stamp>, next: Option<Stamp>)

  /** One page: `limit + 1` rows are fetched, and the extra one only tells that there is more. */
  ghost function FetchPage(leads: set<Stamp>, limit: nat, cursor: Option<Stamp>): Page
    requires limit >= 1
  {
    var all := Listing(After(leads, cursor));
    var rows := all[..Min(limit + 1, |all|)];
    var page := rows[..Min(limit, |rows|)];
    Page(page, if |rows| > limit then Some(page[|page| - 1]) else None)
  }

  datatype ListResult = InvalidCursor | Listed(leads: seq<Stamp>, nextCursor: Option<string>)

  /** `listLeads`: like FetchPage, but cursors travel as strings. */
  ghost function ListLeads(f: TimeFormat, leads: set<Stamp>, limit: nat, cursor: Option<string>): ListResult
    requires limit >= 1
  {
    var after := if cursor.Some? && cursor.value != "" then DecodeCursor(f, cursor.value) else None;
    if cursor.Some? && cursor.value != "" && after.None? then InvalidCursor
    else
      var page := FetchPage(leads, limit, after);
      Listed(page.leads, if page.next.Some? then Some(EncodeCursor(f, page.next.value)) else None)
  }

  /** A text without a bar, a time or an id is refused; an empty one starts at the newest lead. */
  lemma InvalidCursorsAreRefused(f: TimeFormat, leads: set<Stamp>, limit: nat, at: string, id: string)
    requires limit >= 1 && '|' !in at && '|' !in id
    ensures
      var list := ListLeads(f, leads, limit, Some(at));
      if at != "" then list.InvalidCursor? else list.Listed? && list.leads == FetchPage(leads, limit, None).leads
    ensures
      var list := ListLeads(f, leads, limit, Some(at + "|" + id));
      if f.parse(at).None? || id == "" then list.InvalidCursor?
      else list.Listed? && list.leads == FetchPage(leads, limit, Some(Stamp(f.parse(at).value, id))).leads
  {
    CursorsAreTimeAndId(f, at, id, "");
  }

  /** What a page holds, whatever the table looks like by then. */
  lemma PageFacts(leads: set<Stamp>, limit: nat, cursor: Option<Stamp>)
    requires limit >= 1
    ensures
      var page := FetchPage(leads, limit, cursor);
      && page.leads == Listing(After(leads, cursor))[..|page.leads|]
      && Descending(page.leads)
      && (forall x :: x in page.leads ==> x in After(leads, cursor))
      && (page.next.None? ==> forall x :: x in After(leads, cursor) ==> x in page.leads)
      && (page.next.Some? ==>
            && |page.leads| == limit && page.next.value == page.leads[limit - 1]
            && (forall x :: x in page.leads ==> x == page.next.value || Before(page.next.value, x))
            && (forall x :: x in After(leads, cursor) ==> x in page.leads || Before(x, page.next.value)))
  {
    var all := Listing(After(leads, cursor));
    ListingIsSorted(After(leads, cursor));
    var page := FetchPage(leads, limit, cursor);
    assert page.leads == all[..|page.leads|];
    assert forall i :: 0 <= i < |page.leads| ==> page.leads[i] == all[i];
    forall x | x in After(leads, cursor)
      ensures x in page.leads || (page.next.Some? && Before(x, page.next.value))
    {
      var i :| 0 <= i < |all| && all[i] == x;
      if i < |page.leads| {
        assert page.leads[i] == x;
      } else if page.next.Some? {
        assert Before(all[i], all[limit - 1]);
      }
    }
  }

  /** Following `nextCursor` string by string is following the cursors themselves. */
  lemma CursorsAreFaithful(f: TimeFormat, leads: set<Stamp>, later: set<Stamp>, limit: nat, cursor: Option<Stamp>)
    requires f.Lawful() && limit >= 1
    requires forall x :: x in leads ==> x.id != "" && '|' !in x.id
    requires FetchPage(leads, limit, cursor).next.Some?
    ensures
      var next := FetchPage(leads, limit, cursor).next.value;
      ListLeads(f, later, limit, Some(EncodeCursor(f, next)))
      == var page := FetchPage(later, limit, Some(next));
         Listed(page.leads, if page.next.Some? then Some(EncodeCursor(f, page.next.value)) else None)
  {
    PageFacts(leads, limit, cursor);
    var next := FetchPage(leads, limit, cursor).next.value;
    assert next in FetchPage(leads, limit, cursor).leads;
    assert next in After(leads, cursor);
    CursorRoundTrip(f, next);
    assert EncodeCursor(f, next)[|f.show(next.at)|] == '|';
  }

  /**
   Reads pages from `tables[0]`, `tables[1]`, … : leads may come and go between two pages. `done`
   says that the last page had no next cursor.
   */
  ghost function Follow(tables: seq<set<Stamp>>, limit: nat, cursor: Option<Stamp>): (seq<Stamp>, bool)
    requires limit >= 1
  {
    if tables == [] then ([], false)
    else
      var page := FetchPage(tables[0], limit, cursor);
      if page.next.None? then (page.leads, true)
      else
        var (rest, done) := Follow(tables[1..], limit, page.next);
        (page.leads + rest, done)
  }

  /** The lead was there at every read. */
  ghost predicate InAll(x: Stamp, tables: seq<set<Stamp>>) {
    forall i :: 0 <= i < |tables| ==> x in tables[i]
  }

  /**
   Under any inserts and deletes between pages nothing is shown twice, and once the reader is
   done every lead that was there all along was shown.
   */
  lemma {:induction false} PagesAreStable(tables: seq<set<Stamp>>, limit: nat, cursor: Option<Stamp>)
    requires limit >= 1
    ensures
      var (shown, done) := Follow(tables, limit, cursor);
      && Descending(shown)
      && (forall x :: x in shown ==> cursor.Some? ==> Before(x, cursor.value))
      && (done ==> forall x :: InAll(x, tables) && (cursor.Some? ==> Before(x, cursor.value)) ==> x in shown)
  {
    if tables == [] {
    } else {
      var page := FetchPage(tables[0], limit, cursor);
      PageFacts(tables[0], limit, cursor);
      if page.next.Some? {
        PagesAreStable(tables[1..], limit, page.next);
        var (rest, done) := Follow(tables[1..], limit, page.next);
        assert page.next.value in page.leads;
        AppendDescending(page.leads, rest, page.next.value);
        forall x | x in rest && cursor.Some? ensures Before(x, cursor.value) {
          BeforeTransitive(x, page.next.value, cursor.value);
        }
        forall x | done && InAll(x, tables) && (cursor.Some? ==> Before(x, cursor.value))
          ensures x in page.leads + rest
        {
          assert x in After(tables[0], cursor);
          assert forall i :: 0 <= i < |tables[1..]| ==> tables[1..][i] == tables[i + 1];
        }
      }
    }
  }

  lemma AppendDescending(a: seq<Stamp>, b: seq<Stamp>, pivot: Stamp)
    requires Descending(a) && Descending(b)
    requires forall x :: x in a ==> x == pivot || Before(pivot, x)
    requires forall x :: x in b ==> Before(x, pivot)
    ensures Descending(a + b)
  {
    var s := a + b;
    forall i, j | 0 <= i < j < |s| ensures Before(s[j], s[i]) {
      if i < |a| <= j {
        assert s[i] in a && s[j] in b;
        if s[i] != pivot { BeforeTransitive(s[j], pivot, s[i]); }
      }
    }
  }

  /** Two descending lists of the same leads are the same list. */
  lemma {:induction false} DescendingUnique(a: seq<Stamp>, b: seq<Stamp>)
    requires Descending(a) && Descending(b)
    requires forall x :: x in a <==> x in b
    ensures a == b
  {
    assert b != [] ==> b[0] in b;
    if a == [] {
    } else {
      assert a[0] in b;
      BeforeTotal(a[0], b[0]);
      assert a[0] == b[0];
      BeforeTotal(a[0], a[0]);
      forall x ensures x in a[1..] <==> x in b[1..] {
        assert x in a <==> x == a[0] || x in a[1..];
        assert x in b <==> x == b[0] || x in b[1..];
        assert a[0] !in a[1..] && b[0] !in b[1..];
      }
      DescendingUnique(a[1..], b[1..]);
    }
  }

  /** On an unchanging table the reader finishes, and the pages concatenate to the whole list. */
  lemma PagesAreTheList(leads: set<Stamp>, tables: seq<set<Stamp>>, limit: nat)
    requires limit >= 1
    requires forall i :: 0 <= i < |tables| ==> tables[i] == leads
    requires |tables| > |leads|
    ensures Follow(tables, limit, None) == (Listing(leads), true)
  {
    assert After(leads, None) == leads;
    FollowFinishes(leads, tables, limit, None);
    PagesAreStable(tables, limit, None);
    ListingIsSorted(leads);
    var shown := Follow(tables, limit, None).0;
    forall x | x in leads ensures x in shown {
      assert InAll(x, tables);
    }
    DescendingUnique(shown, Listing(leads));
  }

  lemma {:induction false} FollowFinishes(leads: set<Stamp>, tables: seq<set<Stamp>>, limit: nat, cursor: Option<Stamp>)
    requires limit >= 1
    requires forall i :: 0 <= i < |tables| ==> tables[i] == leads
    requires |tables| > |After(leads, cursor)|
    ensures
      var (shown, done) := Follow(tables, limit, cursor);
      done && forall x :: x in shown ==> x in After(leads, cursor)
    decreases |tables|
  {
    var page := FetchPage(tables[0], limit, cursor);
    PageFacts(tables[0], limit, cursor);
    if page.next.Some? {
      var next := page.next.value;
      assert next in page.leads && next in After(leads, cursor);
      BeforeTotal(next, next);
      forall x | x in After(leads, page.next) ensures x in After(leads, cursor) - {next} {
        if cursor.Some? { BeforeTransitive(x, next, cursor.value); }
      }
      assert After(leads, page.next) <= After(leads, cursor) - {next};
      SubsetSize(After(leads, page.next), After(leads, cursor) - {next});
      FollowFinishes(leads, tables[1..], limit, page.next);
    }
  }

  lemma {:induction false} SubsetSize(a: set<Stamp>, b: set<Stamp>)
    requires a <= b
    ensures |a| <= |b|
  {
    if a == {} {
    } else {
      var x :| x in a;
      SubsetSize(a - {x}, b - {x});
    }
  }
}

/** The total order on (createdAt, id) used by every keyset query, and finite sets listed in it. */
module Order {

  /** Strings compared character by character (a prefix comes first). */
  predicate Less(a: string, b: string) {
    b != "" && (a == "" || a[0] < b[0] || (a[0] == b[0] && Less(a[1..], b[1..])))
  }

  lemma {:induction false} LessTotal(a: string, b: string)
    ensures Less(a, b) || a == b || Less(b, a)
    ensures !(Less(a, b) && Less(b, a)) && !Less(a, a)
  {
    if a == "" {
    } else if b == "" {
      LessTotal(a[1..], a[1..]);
    } else {
      LessTotal(a[1..], b[1..]);
      LessTotal(a[1..], a[1..]);
      assert a == [a[0]] + a[1..] && b == [b[0]] + b[1..];
    }
  }

  lemma {:induction false} LessTransitive(a: string, b: string, c: string)
    requires Less(a, b) && Less(b, c)
    ensures Less(a, c)
  {
    if a == "" {
    } else if a[0] == b[0] == c[0] {
      LessTransitive(a[1..], b[1..], c[1..]);
    }
  }

  datatype Stamp = Stamp(at: int, id: string)

  predicate Before(a: Stamp, b: Stamp) {
    a.at < b.at || (a.at == b.at && Less(a.id, b.id))
  }

  lemma BeforeTotal(a: Stamp, b: Stamp)
    ensures Before(a, b) || a == b || Before(b, a)
    ensures !(Before(a, b) && Before(b, a)) && !Before(a, a)
  {
    LessTotal(a.id, b.id);
    LessTotal(a.id, a.id);
  }

  lemma BeforeTransitive(a: Stamp, b: Stamp, c: Stamp)
    requires Before(a, b) && Before(b, c)
    ensures Before(a, c)
  {
    if a.at == b.at == c.at { LessTransitive(a.id, b.id, c.id); }
  }
}

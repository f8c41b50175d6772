/**
 Dedupe keys, job ids and the metrics parser.

 The rest of the project uses `Key` as a structured value. This module prints keys the way the
 program does and proves that nothing is lost by printing: different keys give different strings.
 `E` is the type that names an enrollment; printing needs it to be a string.
 */
module Keys {
  import opened Base

  datatype Key<E> =
    | Captured(source: string, externalId: string)
    | Scored(capturedEvent: string)
    | FirstContact(lead: string, channel: Channel)
    | RepAlert(lead: string)
    | FollowUp(enrollment: E, step: int)
    | RepReply(replyEvent: string)
    | Reply(channel: Channel, externalId: string)
    | Crm(eventId: string)
    | Failed(message: Key<E>)

  /** The keys of `message.send` jobs. */
  predicate IsMessageKey<E>(k: Key<E>) {
    k.FirstContact? || k.RepAlert? || k.FollowUp? || k.RepReply?
  }

  // ----- Decimal numbers -----

  const DIGITS: string := "0123456789"

  predicate IsDigit(c: char) {
    '0' <= c <= '9'
  }

  predicate AllDigits(s: string) {
    forall i :: 0 <= i < |s| ==> IsDigit(s[i])
  }

  function PrintNat(n: nat): string {
    if n < 10 then [DIGITS[n]] else PrintNat(n / 10) + [DIGITS[n % 10]]
  }

  function PrintInt(n: int): string {
    if n < 0 then "-" + PrintNat(-n) else PrintNat(n)
  }

  function ParseNat(s: string): nat
    requires AllDigits(s)
  {
    if s == "" then 0 else 10 * ParseNat(s[..|s| - 1]) + (s[|s| - 1] as int - '0' as int)
  }

  lemma {:induction false} ParsePrintNat(n: nat)
    ensures PrintNat(n) != "" && AllDigits(PrintNat(n))
    ensures ParseNat(PrintNat(n)) == n
  {
    if n >= 10 {
      ParsePrintNat(n / 10);
      assert PrintNat(n)[..|PrintNat(n)| - 1] == PrintNat(n / 10);
    } else {
      assert PrintNat(n)[..0] == "";
    }
  }

  lemma PrintIntShape(n: int)
    ensures PrintInt(n) != ""
    ensures IsDigit(PrintInt(n)[|PrintInt(n)| - 1])
    ensures forall c :: c in PrintInt(n) ==> IsDigit(c) || c == '-'
    ensures n >= 0 <==> AllDigits(PrintInt(n))
    ensures n < 0 ==> PrintInt(n)[0] == '-' && AllDigits(PrintInt(n)[1..])
  {
    ParsePrintNat(if n < 0 then -n else n);
    if n < 0 {
      assert PrintInt(n)[1..] == PrintNat(-n);
      assert PrintInt(n)[0] == '-';
    }
  }

  lemma PrintIntInjective(a: int, b: int)
    requires PrintInt(a) == PrintInt(b)
    ensures a == b
  {
    PrintIntShape(a);
    PrintIntShape(b);
    ParsePrintNat(if a < 0 then -a else a);
    ParsePrintNat(if b < 0 then -b else b);
    if a < 0 {
      assert PrintInt(a)[1..] == PrintNat(-a) && PrintInt(b)[1..] == PrintNat(-b);
    }
  }

  // ----- Printing and splitting -----

  function PrintChannel(c: Channel): string {
    match c
    case Email => "email"
    case Whatsapp => "whatsapp"
    case Sms => "sms"
  }

  function Print(k: Key<string>): string {
    match k
    case Captured(source, externalId) => source + ":" + externalId
    case Scored(e) => "scored" + ":" + e
    case FirstContact(lead, channel) => "first-contact" + ":" + (lead + ":" + PrintChannel(channel))
    case RepAlert(lead) => "rep-alert" + ":" + lead
    case FollowUp(e, step) => "follow-up" + ":" + (e + ":" + PrintInt(step))
    case RepReply(e) => "rep-reply" + ":" + e
    case Reply(channel, externalId) => "reply" + ":" + (PrintChannel(channel) + ":" + externalId)
    case Crm(e) => "crm" + ":" + ("hubspot" + ":" + e)
    case Failed(m) => Print(m) + ":failed"
  }

  predicate Has(s: string, c: char) {
    c in s
  }

  /** Heads used by the program itself; a form provider must not be named like one. */
  predicate Reserved(head: string) {
    head == "scored" || head == "first-contact" || head == "rep-alert" || head == "follow-up"
    || head == "rep-reply" || head == "reply" || head == "crm"
  }

  /**
   Keys the program can build. Ids issued by the database contain no ':'; ids chosen by outside
   systems (form submissions, provider messages, CRM events) may contain anything.
   */
  predicate WellFormed(k: Key<string>) {
    match k
    case Captured(source, _) => !Has(source, ':') && !Reserved(source)
    case Scored(e) => !Has(e, ':')
    case FirstContact(lead, _) => !Has(lead, ':')
    case RepAlert(lead) => !Has(lead, ':')
    case FollowUp(e, _) => !Has(e, ':') && e != ""
    case RepReply(e) => !Has(e, ':')
    case Reply(_, _) => true
    case Crm(_) => true
    case Failed(m) => IsMessageKey(m) && WellFormed(m)
  }

  /** The text before and after the first ':'. */
  function SplitFirst(s: string): Option<(string, string)> {
    if s == "" then None
    else if s[0] == ':' then Some(("", s[1..]))
    else
      match SplitFirst(s[1..])
      case None => None
      case Some((head, rest)) => Some(([s[0]] + head, rest))
  }

  lemma {:induction false} SplitFirstJoin(head: string, rest: string)
    requires !Has(head, ':')
    ensures SplitFirst(head + ":" + rest) == Some((head, rest))
  {
    var s := head + ":" + rest;
    if head == "" {
      assert s[0] == ':' && s[1..] == rest;
    } else {
      assert head[0] != ':';
      assert s[1..] == head[1..] + ":" + rest;
      SplitFirstJoin(head[1..], rest);
      assert [head[0]] + head[1..] == head;
    }
  }

  lemma JoinInjective(a: string, b: string, c: string, d: string)
    requires !Has(a, ':') && !Has(c, ':')
    requires a + ":" + b == c + ":" + d
    ensures a == c && b == d
  {
    SplitFirstJoin(a, b);
    SplitFirstJoin(c, d);
  }

  /** The first ':'-separated field of a printed key and the rest. */
  function Head(k: Key<string>): string {
    match k
    case Captured(source, _) => source
    case Scored(_) => "scored"
    case FirstContact(_, _) => "first-contact"
    case RepAlert(_) => "rep-alert"
    case FollowUp(_, _) => "follow-up"
    case RepReply(_) => "rep-reply"
    case Reply(_, _) => "reply"
    case Crm(_) => "crm"
    case Failed(m) => Head(m)
  }

  function Rest(k: Key<string>): string {
    match k
    case Captured(_, externalId) => externalId
    case Scored(e) => e
    case FirstContact(lead, channel) => lead + ":" + PrintChannel(channel)
    case RepAlert(lead) => lead
    case FollowUp(e, step) => e + ":" + PrintInt(step)
    case RepReply(e) => e
    case Reply(channel, externalId) => PrintChannel(channel) + ":" + externalId
    case Crm(e) => "hubspot" + ":" + e
    case Failed(m) => Rest(m) + ":" + "failed"
  }

  lemma PrintedHead(k: Key<string>)
    requires WellFormed(k)
    ensures !Has(Head(k), ':')
    ensures Print(k) == Head(k) + ":" + Rest(k)
    ensures SplitFirst(Print(k)) == Some((Head(k), Rest(k)))
  {
    if k.Failed? {
      assert Print(k.message) == Head(k.message) + ":" + Rest(k.message);
      assert Print(k) == Head(k) + ":" + Rest(k);
    }
    SplitFirstJoin(Head(k), Rest(k));
  }

  lemma ChannelHasNoColon(c: Channel)
    ensures !Has(PrintChannel(c), ':')
  {
  }

  /** The last field of a message key: colon-free, and it determines what it prints. */
  lemma MessageRestInjective(a: Key<string>, b: Key<string>)
    requires IsMessageKey(a) && IsMessageKey(b) && WellFormed(a) && WellFormed(b)
    requires Head(a) == Head(b) && Rest(a) == Rest(b)
    ensures a == b
  {
    if a.FirstContact? {
      JoinInjective(a.lead, PrintChannel(a.channel), b.lead, PrintChannel(b.channel));
      assert "email" != "whatsapp" && "email" != "sms" && "whatsapp" != "sms" by {
        assert |"email"| == 5 && |"whatsapp"| == 8 && |"sms"| == 3;
      }
    } else if a.FollowUp? {
      JoinInjective(a.enrollment, PrintInt(a.step), b.enrollment, PrintInt(b.step));
      PrintIntInjective(a.step, b.step);
    }
  }

  /** `Rest(m) + ":failed"` is never the rest of a message key: it has one ':' too many. */
  lemma FailedRestIsDifferent(m: Key<string>, k: Key<string>)
    requires IsMessageKey(m) && IsMessageKey(k) && WellFormed(m) && WellFormed(k)
    requires Head(m) == Head(k)
    ensures Rest(m) + ":" + "failed" != Rest(k)
  {
    var long := Rest(m) + ":" + "failed";
    if m.FirstContact? {
      var tail := PrintChannel(m.channel) + ":" + "failed";
      assert long == m.lead + ":" + tail;
      assert tail[|PrintChannel(m.channel)|] == ':';
      SplitFirstJoin(m.lead, tail);
      SplitFirstJoin(k.lead, PrintChannel(k.channel));
      ChannelHasNoColon(k.channel);
    } else if m.FollowUp? {
      var tail := PrintInt(m.step) + ":" + "failed";
      assert long == m.enrollment + ":" + tail;
      assert tail[|PrintInt(m.step)|] == ':';
      SplitFirstJoin(m.enrollment, tail);
      SplitFirstJoin(k.enrollment, PrintInt(k.step));
      PrintIntShape(k.step);
    } else {
      assert long[|Rest(m)|] == ':';
      assert Has(long, ':');
    }
  }

  /** Every family is injective and the families are pairwise disjoint, `:failed` included. */
  lemma PrintInjective(a: Key<string>, b: Key<string>)
    requires WellFormed(a) && WellFormed(b)
    ensures Print(a) == Print(b) <==> a == b
  {
    if Print(a) == Print(b) {
      PrintedHead(a);
      PrintedHead(b);
      assert Head(a) == Head(b) && Rest(a) == Rest(b);
      if a.Failed? && b.Failed? {
        assert Rest(a.message) == Rest(a)[..|Rest(a)| - 7];
        assert Rest(b.message) == Rest(b)[..|Rest(b)| - 7];
        MessageRestInjective(a.message, b.message);
      } else if a.Failed? {
        if IsMessageKey(b) { FailedRestIsDifferent(a.message, b); }
      } else if b.Failed? {
        if IsMessageKey(a) { FailedRestIsDifferent(b.message, a); }
      } else if IsMessageKey(a) && IsMessageKey(b) {
        MessageRestInjective(a, b);
      } else if a.Reply? && b.Reply? {
        ChannelHasNoColon(a.channel);
        ChannelHasNoColon(b.channel);
        JoinInjective(PrintChannel(a.channel), a.externalId, PrintChannel(b.channel), b.externalId);
        assert |"email"| == 5 && |"whatsapp"| == 8 && |"sms"| == 3;
      } else if a.Crm? && b.Crm? {
        JoinInjective("hubspot", a.eventId, "hubspot", b.eventId);
      }
    }
  }

  // ----- Job ids -----

  /** BullMQ job ids can't contain ':'. */
  function MessageJobId(dedupeKey: string): string {
    seq(|dedupeKey|, i requires 0 <= i < |dedupeKey| => if dedupeKey[i] == ':' then '_' else dedupeKey[i])
  }

  /** The ids of a message key contain no '_' either. */
  predicate NoUnderscore(k: Key<string>) {
    match k
    case FirstContact(lead, _) => !Has(lead, '_')
    case RepAlert(lead) => !Has(lead, '_')
    case FollowUp(e, _) => !Has(e, '_')
    case RepReply(e) => !Has(e, '_')
    case _ => true
  }

  lemma ReplaceInjective(s: string, t: string)
    requires !Has(s, '_') && !Has(t, '_')
    requires MessageJobId(s) == MessageJobId(t)
    ensures s == t
  {
    assert |s| == |MessageJobId(s)| == |MessageJobId(t)| == |t|;
    forall i | 0 <= i < |s| ensures s[i] == t[i] {
      assert MessageJobId(s)[i] == MessageJobId(t)[i];
      assert s[i] in s && t[i] in t;
    }
  }

  lemma MessageKeyHasNoUnderscore(k: Key<string>)
    requires IsMessageKey(k) && NoUnderscore(k)
    ensures !Has(Print(k), '_')
  {
    if k.FollowUp? { PrintIntShape(k.step); }
  }

  lemma MessageJobIdInjective(a: Key<string>, b: Key<string>)
    requires IsMessageKey(a) && IsMessageKey(b) && WellFormed(a) && WellFormed(b)
    requires NoUnderscore(a) && NoUnderscore(b)
    ensures MessageJobId(Print(a)) == MessageJobId(Print(b)) <==> a == b
    ensures !Has(MessageJobId(Print(a)), ':')
  {
    if MessageJobId(Print(a)) == MessageJobId(Print(b)) {
      MessageKeyHasNoUnderscore(a);
      MessageKeyHasNoUnderscore(b);
      ReplaceInjective(Print(a), Print(b));
      PrintInjective(a, b);
    }
  }

  function FollowUpJobId(enrollment: string, step: int, runAt: int): string {
    "followup-" + (enrollment + "-" + PrintInt(step)) + "-" + PrintInt(runAt)
  }

  predicate EndsInDash(s: string) {
    s != "" && s[|s| - 1] == '-'
  }

  /** How many digits `s` ends with. */
  function TrailingDigits(s: string): nat {
    if s == "" || !IsDigit(s[|s| - 1]) then 0 else 1 + TrailingDigits(s[..|s| - 1])
  }

  /** The length of the number `s` ends with: its digits, and a second '-' before them is its sign. */
  function LastNumberLength(s: string): nat {
    var n := TrailingDigits(s);
    if n + 2 <= |s| && s[|s| - n - 2] == '-' then n + 1 else n
  }

  lemma {:induction false} TrailingDigitsAppend(a: string, d: string)
    requires a == "" || !IsDigit(a[|a| - 1])
    requires AllDigits(d)
    ensures TrailingDigits(a + d) == |d|
  {
    if d == "" {
      assert a + d == a;
    } else {
      assert (a + d)[..|a + d| - 1] == a + d[..|d| - 1];
      TrailingDigitsAppend(a, d[..|d| - 1]);
    }
  }

  lemma LastNumberLengthIs(a: string, x: int)
    requires !EndsInDash(a)
    ensures LastNumberLength(a + "-" + PrintInt(x)) == |PrintInt(x)|
  {
    PrintIntShape(x);
    var digits := PrintNat(if x < 0 then -x else x);
    ParsePrintNat(if x < 0 then -x else x);
    var before := if x < 0 then a + "-" + "-" else a + "-";
    assert a + "-" + PrintInt(x) == before + digits;
    TrailingDigitsAppend(before, digits);
  }

  /** A number after a '-' is read back from the right, sign included. */
  lemma DashIntInjective(a: string, x: int, b: string, y: int)
    requires !EndsInDash(a) && !EndsInDash(b)
    requires a + "-" + PrintInt(x) == b + "-" + PrintInt(y)
    ensures a == b && x == y
  {
    LastNumberLengthIs(a, x);
    LastNumberLengthIs(b, y);
    var s := a + "-" + PrintInt(x);
    assert a == s[..|a|] && b == s[..|b|];
    assert PrintInt(x) == s[|a| + 1..] && PrintInt(y) == s[|b| + 1..];
    PrintIntInjective(x, y);
  }

  /** Different step jobs get different ids, for every step and time, negative ones included. */
  lemma FollowUpJobIdInjective(e: string, step: int, runAt: int, e': string, step': int, runAt': int)
    requires !EndsInDash(e) && !EndsInDash(e')
    ensures FollowUpJobId(e, step, runAt) == FollowUpJobId(e', step', runAt')
       <==> e == e' && step == step' && runAt == runAt'
  {
    if FollowUpJobId(e, step, runAt) == FollowUpJobId(e', step', runAt') {
      var a, b := "followup-" + (e + "-" + PrintInt(step)), "followup-" + (e' + "-" + PrintInt(step'));
      PrintIntShape(step);
      PrintIntShape(step');
      assert a[|a| - 1] == PrintInt(step)[|PrintInt(step)| - 1];
      assert b[|b| - 1] == PrintInt(step')[|PrintInt(step')| - 1];
      assert a + "-" + PrintInt(runAt) == b + "-" + PrintInt(runAt');
      DashIntInjective(a, runAt, b, runAt');
      assert a[9..] == e + "-" + PrintInt(step) && b[9..] == e' + "-" + PrintInt(step');
      DashIntInjective(e, step, e', step');
    }
  }

  /** An id that ends in '-' can be confused with a negative step, so the condition is needed. */
  lemma FollowUpJobIdNeedsTheCondition()
    ensures FollowUpJobId("a-", 1, 0) == FollowUpJobId("a", -1, 0)
  {
    assert PrintInt(-1) == "-" + PrintInt(1);
    assert ("a-" + "-") + PrintInt(1) == "a" + "-" + PrintInt(-1);
  }

  // ----- The metrics parser -----

  /** The step in a key that matches `^follow-up:[^:]+:[0-9]+$`. */
  function MetricsStep(dedupeKey: string): Option<int> {
    match SplitFirst(dedupeKey)
    case None => None
    case Some((head, rest)) =>
      if head != "follow-up" then None
      else
        match SplitFirst(rest)
        case None => None
        case Some((enrollment, digits)) =>
          if enrollment != "" && digits != "" && AllDigits(digits) then Some(ParseNat(digits)) else None
  }

  /** Among all the keys the program builds, the parser finds exactly the follow-ups and their step. */
  lemma MetricsRecoversStep(k: Key<string>, n: int)
    requires WellFormed(k)
    ensures MetricsStep(Print(k)) == Some(n) <==> k.FollowUp? && k.step == n && n >= 0
  {
    PrintedHead(k);
    if k.FollowUp? {
      SplitFirstJoin(k.enrollment, PrintInt(k.step));
      PrintIntShape(k.step);
      if k.step >= 0 { ParsePrintNat(k.step); }
    } else if k.Failed? && k.message.FollowUp? {
      var m := k.message;
      var digits := PrintInt(m.step) + ":" + "failed";
      assert Rest(k) == m.enrollment + ":" + digits;
      SplitFirstJoin(m.enrollment, digits);
      assert digits[|PrintInt(m.step)|] == ':';
    }
  }
}

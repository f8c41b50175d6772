/** A person's addresses: how submissions match leads, merge into them, and name their locks. */
module Contacts {
  import opened Base

  datatype Contact = Contact(email: Option<string>, phone: Option<string>)

  /** An address counts only when it is present and not empty. */
  predicate Given(address: Option<string>) {
    address.Some? && address.value != ""
  }

  predicate SameGiven(a: Option<string>, b: Option<string>) {
    Given(a) && a == b
  }

  /** The lead matches a submission by email or by phone. */
  predicate Shares(lead: Contact, input: Contact) {
    SameGiven(input.email, lead.email) || SameGiven(input.phone, lead.phone)
  }

  /** The merge keeps an address once it is set. */
  function Merge(lead: Contact, input: Contact): Contact {
    Contact(lead.email.OrElse(input.email), lead.phone.OrElse(input.phone))
  }

  function EmailKey(address: Option<string>): string
    requires address.Some?
  {
    "email:" + address.value
  }

  function PhoneKey(address: Option<string>): string
    requires address.Some?
  {
    "phone:" + address.value
  }

  function KeysOf(c: Contact): set<string> {
    (if Given(c.email) then {EmailKey(c.email)} else {}) + (if Given(c.phone) then {PhoneKey(c.phone)} else {})
  }

  lemma MatchesShareAKey(c: Contact, d: Contact)
    requires Shares(c, d)
    ensures exists key :: key in KeysOf(c) && key in KeysOf(d)
  {
    var key := if SameGiven(d.email, c.email) then EmailKey(d.email) else PhoneKey(d.phone);
    assert key in KeysOf(c) && key in KeysOf(d);
  }
}

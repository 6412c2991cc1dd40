/** Which tenant a console login belongs to: the owner of the email's domain. */
module Tenancy {
  import opened Wrappers
  import opened Models

  /** Where the last '@' is, or the length when there is none. */
  function LastAt(s: string): nat
    ensures LastAt(s) <= |s|
    ensures LastAt(s) < |s| ==> s[LastAt(s)] == '@' && '@' !in s[LastAt(s) + 1..]
    ensures LastAt(s) == |s| ==> '@' !in s
  {
    if s == [] then 0
    else if LastAt(s[1..]) < |s| - 1 then LastAt(s[1..]) + 1
    else if s[0] == '@' then 0
    else |s|
  }

  /** "" when there is no '@', or nothing before it. */
  function EmailDomain(email: string): string {
    var e := NormaliseEmail(email);
    var at := LastAt(e);
    if at == |e| || at == 0 then "" else e[at + 1..]
  }

  /** The domain is what follows the last '@' of the normalised address, if something precedes it. */
  lemma DomainIsTheRest(email: string, d: string)
    requires d != ""
    ensures EmailDomain(email) == d <==> '@' !in d && exists local :: local != "" && NormaliseEmail(email) == local + "@" + d
  {
    var e := NormaliseEmail(email);
    hide NormaliseEmail;
    if EmailDomain(email) == d {
      assert e == e[..LastAt(e)] + "@" + d;
    }
    if local :| local != "" && e == local + "@" + d && '@' !in d {
      assert e[|local|] == '@';
      assert e[|local| + 1..] == d;
      assert LastAt(e) == |local|;
    }
  }

  function TenantForOperatorEmail(d: Directory, email: string): Option<Id> {
    var domain := EmailDomain(email);
    if domain == "" || domain !in d.domains || d.domains[domain] !in d.tenants then None
    else Some(d.domains[domain])
  }
}

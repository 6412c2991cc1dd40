/** Creating and editing tenants on the database: platform operators' requests. */
module TenantService {
  import opened Wrappers
  import opened Models
  import opened Admin
  import opened Database
  import opened SeedService
  import Seed

  class TenantService {
    const db: Tables
    const seed: SeedService

    constructor (db: Tables, seed: SeedService)
      ensures this.db == db && this.seed == seed
    {
      this.db, this.seed := db, seed;
    }

    /** The first transaction of a creation, before the starter policy is written. */
    method MayCreate(t: Id, domains: seq<string>) returns (r: Result<()>)
      ensures r.Ok? <==> t !in db.tenants && !AnyDomainTaken(db.domains, domains)
      ensures r.Err? ==> r.status == 409
    {
      if t in db.tenants {
        return Err(409, "tenant_id already exists");
      }
      for i := 0 to |domains|
        invariant forall x :: x in domains[..i] ==> x !in db.domains
      {
        assert domains[..i + 1] == domains[..i] + [domains[i]];
        if domains[i] in db.domains {
          assert domains[i] in domains;
          return Err(409, "domain already registered");
        }
      }
      assert domains[..|domains|] == domains;
      r := Ok(());
    }

    method OwnedElsewhere(t: Id, domains: seq<string>) returns (taken: bool)
      ensures taken <==> DomainOwnedElsewhere(db.domains, t, domains)
    {
      for i := 0 to |domains|
        invariant forall x :: x in domains[..i] ==> x !in db.domains || db.domains[x] == t
      {
        assert domains[..i + 1] == domains[..i] + [domains[i]];
        if domains[i] in db.domains && db.domains[domains[i]] != t {
          assert domains[i] in domains;
          return true;
        }
      }
      assert domains[..|domains|] == domains;
      taken := false;
    }

    method AddDomains(t: Id, domains: seq<string>) returns (ok: bool)
      requires forall x :: x in domains ==> x !in db.domains
      modifies db`domains
      ensures ok <==> !Repeats(domains)
      ensures ok ==> db.domains == old(db.domains) + map x | x in domains :: t
    {
      for i := 0 to |domains|
        invariant !Repeats(domains[..i])
        invariant db.domains == old(db.domains) + map x | x in domains[..i] :: t
      {
        assert domains[..i + 1] == domains[..i] + [domains[i]];
        assert domains[i] in domains;
        if domains[i] in db.domains {
          var j :| 0 <= j < i && domains[j] == domains[i];
          return false;
        }
        db.domains := db.domains[domains[i] := t];
      }
      assert domains[..|domains|] == domains;
      ok := true;
    }

    /** A domain owned elsewhere is refused; the tenant's own are deleted, and the wanted ones added one by one. */
    method SetDomains(t: Id, domains: seq<string>) returns (r: Result<()>)
      modifies db`domains
      ensures DomainOwnedElsewhere(old(db.domains), t, domains) ==> r == Err(409, "domain already registered")
      ensures !DomainOwnedElsewhere(old(db.domains), t, domains) && Repeats(domains) ==> r == Err(500, "integrity error")
      ensures !DomainOwnedElsewhere(old(db.domains), t, domains) && !Repeats(domains) ==>
        r == Ok(()) && db.domains == ReplacedDomains(old(db.domains), t, domains)
    {
      hide Repeats;
      var taken := OwnedElsewhere(t, domains);
      if taken {
        return Err(409, "domain already registered");
      }
      db.domains := map x | x in db.domains && db.domains[x] != t :: db.domains[x];
      var ok := AddDomains(t, domains);
      if !ok {
        return Err(500, "integrity error");
      }
      assert db.domains == ReplacedDomains(old(db.domains), t, domains);
      r := Ok(());
    }

    /** The second transaction: the row, its domains and its console, or nothing. */
    method CreateTenant(t: Id, name: string, branding: Branding, domains: seq<string>) returns (r: Result<Answer>)
      requires seed.db == db
      modifies db
      ensures (db.Snapshot(), r) == Admin.CreateTenant(old(db.Snapshot()), t, name, branding, domains, seed.rnd)
    {
      hide Seed.Run, Seed.BootstrapConsole, ReplacedDomains, Repeats, DomainOwnedElsewhere, PublicTenant;
      var saved := db.Snapshot();
      if t in db.tenants {
        return Err(409, "tenant already exists");
      }
      db.tenants := db.tenants[t := Tenant(name, false, None, None, branding)];
      var outcome := SetDomains(t, domains);
      if outcome.Err? {
        db.Rollback(saved);
        return if outcome.status == 409 then Err(409, "domain already registered") else Err(409, "tenant already exists");
      }
      ghost var d := db.Dir();
      var ok := seed.Bootstrap(t);
      if !ok {
        db.Rollback(saved);
        return Err(409, "tenant already exists");
      }
      Seed.RunKeepsTenants(d, Seed.BootstrapConsole(t), seed.rnd);
      r := Ok(TenantAnswer(PublicTenant(db.Dir(), t)));
    }

    method PatchTenant(t: Id, p: TenantPatch) returns (r: Result<Answer>)
      modifies db
      ensures (db.Snapshot(), r) == Admin.PatchTenant(old(db.Snapshot()), t, p)
    {
      hide ReplacedDomains, Repeats, DomainOwnedElsewhere, PublicTenant;
      var saved := db.Snapshot();
      if t !in db.tenants {
        return UNKNOWN_TENANT;
      }
      var row := db.tenants[t];
      if p.name.Some? {
        row := row.(name := p.name.value);
      }
      if p.branding.Some? {
        row := row.(branding := p.branding.value);
      }
      db.tenants := db.tenants[t := row];
      if p.domains.Some? {
        var outcome := SetDomains(t, p.domains.value);
        if outcome.Err? {
          db.Rollback(saved);
          return if outcome.status == 409 then Err(409, "domain already registered") else CRASH;
        }
      }
      r := Ok(TenantAnswer(PublicTenant(db.Dir(), t)));
    }
  }
}

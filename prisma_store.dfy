/** The record store and the cache the reconciler talks to. The store's
    behaviour here is an ASSUMED contract (how Prisma treats `upsert`,
    `disconnect`, scalar sets and the unique `subdomain` column); it is the
    environment of the reconciler, not code of the repository. */
module PrismaStore {
  import opened Wrappers
  import opened SiteModel

  // ---- What a call into the store (or anything else) may throw ----

  /** `meta.target` of a known request error: missing, a list of column
      names, or (on some databases) the name of the violated index. */
  datatype Target = NoTarget | FieldList(fields: seq<string>) | IndexName(index: string)

  /** `PrismaClientKnownRequestError(code, meta.target, message)`, any other
      `Error` (only its message matters), or a thrown value that is not an `Error`. */
  datatype Thrown =
    | KnownPrisma(code: string, target: Target, message: string)
    | PlainError(message: string)
    | Other

  const UniqueViolationCode := "P2002"
  const RecordNotFoundCode := "P2025"

  // ---- Nested writes on one record ----

  /** Writing one nullable column from a `?: T | null` input: left out keeps
      the stored value, null clears it, a value replaces it. */
  function Assign<T>(current: Option<T>, f: Field<T>): Option<T>
  {
    match f
    case Absent => current
    case Null => None
    case Present(v) => Some(v)
  }

  /** Writing a list column from a `?: T[]` input. */
  function AssignList<T>(current: seq<T>, f: Option<seq<T>>): seq<T>
  {
    if f.Some? then f.value else current
  }

  function CreateOwner(i: OwnerInput): Owner
  {
    Owner(i.name, i.email, Assign(None, i.phone))
  }

  function UpdateOwner(o: Owner, i: OwnerInput): Owner
  {
    Owner(i.name, i.email, Assign(o.phone, i.phone))
  }

  /** A contact with every column at its default. */
  const EmptyContact: Contact := Contact(None, None, None, None, None, [])

  function CreateContact(i: ContactInput): Contact
  {
    Contact(Assign(None, i.address), Assign(None, i.city), Assign(None, i.phone),
            Assign(None, i.email), Assign(None, i.workingHours), AssignList([], i.areas))
  }

  function UpdateContact(c: Contact, i: ContactInput): Contact
  {
    Contact(Assign(c.address, i.address), Assign(c.city, i.city), Assign(c.phone, i.phone),
            Assign(c.email, i.email), Assign(c.workingHours, i.workingHours),
            AssignList(c.areas, i.areas))
  }

  const EmptySocialMedia: SocialMedia := SocialMedia(None, None, None)

  function CreateSocialMedia(i: SocialMediaInput): SocialMedia
  {
    SocialMedia(Assign(None, i.facebook), Assign(None, i.instagram), Assign(None, i.linkedin))
  }

  function UpdateSocialMedia(s: SocialMedia, i: SocialMediaInput): SocialMedia
  {
    SocialMedia(Assign(s.facebook, i.facebook), Assign(s.instagram, i.instagram),
                Assign(s.linkedin, i.linkedin))
  }

  const EmptyHero: Hero := Hero(None, None, [], None, None)

  function CreateHero(i: HeroInput): Hero
  {
    Hero(Assign(None, i.mainTitle), Assign(None, i.subtitle), AssignList([], i.highlights),
         Assign(None, i.ctaPrimary), Assign(None, i.ctaSecondary))
  }

  function UpdateHero(h: Hero, i: HeroInput): Hero
  {
    Hero(Assign(h.mainTitle, i.mainTitle), Assign(h.subtitle, i.subtitle),
         AssignList(h.highlights, i.highlights),
         Assign(h.ctaPrimary, i.ctaPrimary), Assign(h.ctaSecondary, i.ctaSecondary))
  }

  /** One relation slot after one nested write: no instruction keeps it,
      `disconnect` empties it, `upsert` creates from `create` when the slot is
      empty and merges `update` into the record when it is not. */
  function ApplyRelation<R, I>(slot: Option<R>, op: Option<RelOp<I>>,
                               create: I -> R, update: (R, I) -> R): Option<R>
  {
    match op
    case None => slot
    case Some(Disconnect) => None
    case Some(Upsert(c, u)) => if slot.None? then Some(create(c)) else Some(update(slot.value, u))
  }

  /** A scalar column after one write: a key left out of the descriptor keeps it. */
  function SetColumn<T>(current: T, op: Option<T>): T
  {
    if op.Some? then op.value else current
  }

  /** The site row after every instruction of `d` has been applied to it. */
  function ApplyDescriptor(row: SiteRow, d: Descriptor): SiteRow
  {
    SiteRow(
      SetColumn(row.name, d.name),
      SetColumn(row.description, d.description),
      SetColumn(row.subdomain, d.subdomain),
      SetColumn(row.githubRepoUrl, d.githubRepoUrl),
      SetColumn(row.vercelProjectUrl, d.vercelProjectUrl),
      ApplyRelation(row.owner, d.owner, CreateOwner, UpdateOwner),
      ApplyRelation(row.contact, d.contact, CreateContact, UpdateContact),
      ApplyRelation(row.socialMedia, d.socialMedia, CreateSocialMedia, UpdateSocialMedia),
      ApplyRelation(row.hero, d.hero, CreateHero, UpdateHero))
  }

  // ---- Store invariant: `subdomain` is unique across sites ----

  ghost predicate SubdomainsUnique(sites: map<string, SiteRow>)
  {
    forall a, b :: a in sites && b in sites && a != b ==> sites[a].subdomain != sites[b].subdomain
  }

  /** Some site other than `id` already uses subdomain `s`. */
  predicate SubdomainTakenByOther(sites: map<string, SiteRow>, id: string, s: string)
  {
    exists other :: other in sites && other != id && sites[other].subdomain == s
  }

  /** `prisma.site.update({ where: { id }, data: d, include: all four })` as one
      atomic write: `fault` is whatever the environment makes it throw
      (connectivity, a constraint the model does not track, ...). A write
      that fails changes nothing. */
  function StoreUpdate(sites: map<string, SiteRow>, id: string, d: Descriptor,
                       fault: Option<Thrown>): (r: Result<SiteRow, Thrown>)
    ensures r.Success? <==>
              fault.None? && id in sites
              && !(d.subdomain.Some? && SubdomainTakenByOther(sites, id, d.subdomain.value))
    ensures r.Success? ==> r.value == ApplyDescriptor(sites[id], d)
    ensures fault.Some? ==> r == Failure(fault.value)
    ensures fault.None? && id in sites && d.subdomain.Some?
            && SubdomainTakenByOther(sites, id, d.subdomain.value)
            ==> r.Failure? && r.error.KnownPrisma? && r.error.code == UniqueViolationCode
                && r.error.target == FieldList(["subdomain"])
  {
    if fault.Some? then Failure(fault.value)
    else if id !in sites then
      Failure(KnownPrisma(RecordNotFoundCode, NoTarget, "Record to update not found."))
    else if d.subdomain.Some? && SubdomainTakenByOther(sites, id, d.subdomain.value) then
      Failure(KnownPrisma(UniqueViolationCode, FieldList(["subdomain"]),
                          "Unique constraint failed on the fields: (`subdomain`)"))
    else Success(ApplyDescriptor(sites[id], d))
  }

  /** A successful write keeps subdomains unique. */
  lemma StoreUpdatePreservesUnique(sites: map<string, SiteRow>, id: string, d: Descriptor,
                                   fault: Option<Thrown>)
    requires SubdomainsUnique(sites)
    requires StoreUpdate(sites, id, d, fault).Success?
    ensures SubdomainsUnique(sites[id := StoreUpdate(sites, id, d, fault).value])
  {
    var row := StoreUpdate(sites, id, d, fault).value;
    var after := sites[id := row];
    forall a, b | a in after && b in after && a != b
      ensures after[a].subdomain != after[b].subdomain
    {
      if a == id {
        assert row.subdomain == SetColumn(sites[id].subdomain, d.subdomain);
        if d.subdomain.None? {
          assert after[b] == sites[b];
        } else {
          assert !SubdomainTakenByOther(sites, id, d.subdomain.value);
          assert sites[b].subdomain != d.subdomain.value;
        }
      } else if b == id {
        assert row.subdomain == SetColumn(sites[id].subdomain, d.subdomain);
        if d.subdomain.Some? {
          assert !SubdomainTakenByOther(sites, id, d.subdomain.value);
          assert sites[a].subdomain != d.subdomain.value;
        }
      }
    }
  }

  /** The site records behind `prisma.site`. */
  class SiteStore {
    var sites: map<string, SiteRow>

    ghost predicate Valid()
      reads this
    {
      SubdomainsUnique(sites)
    }

    constructor (initial: map<string, SiteRow>)
      requires SubdomainsUnique(initial)
      ensures Valid() && sites == initial
    {
      sites := initial;
    }

    /** `findUnique` selecting the four relation ids: `None` when no site has `id`. */
    method FindSnapshot(id: string, fault: Option<Thrown>) returns (r: Result<Option<Snapshot>, Thrown>)
      ensures fault.Some? ==> r == Failure(fault.value)
      ensures fault.None? && id !in sites ==> r == Success(None)
      ensures fault.None? && id in sites ==> r == Success(Some(SnapshotOf(sites[id])))
    {
      if fault.Some? {
        r := Failure(fault.value);
      } else if id in sites {
        r := Success(Some(SnapshotOf(sites[id])));
      } else {
        r := Success(None);
      }
    }

    /** `update` with all four relations included in the returned site. */
    method Update(id: string, d: Descriptor, fault: Option<Thrown>) returns (r: Result<SiteRow, Thrown>)
      requires Valid()
      modifies this
      ensures Valid()
      ensures r == StoreUpdate(old(sites), id, d, fault)
      ensures sites == if r.Success? then old(sites)[id := r.value] else old(sites)
    {
      r := StoreUpdate(sites, id, d, fault);
      if r.Success? {
        StoreUpdatePreservesUnique(sites, id, d, fault);
        sites := sites[id := r.value];
      }
    }
  }

  /** The framework's path cache; only the log of invalidated paths is kept. */
  class PathCache {
    ghost var invalidated: seq<string>

    constructor ()
      ensures invalidated == []
    {
      invalidated := [];
    }

    /** `revalidatePath(path)`. */
    method RevalidatePath(path: string)
      modifies this
      ensures invalidated == old(invalidated) + [path]
    {
      invalidated := invalidated + [path];
    }
  }
}

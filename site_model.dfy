/** The entities the site reconciler reads and writes: stored records, the
    inputs a payload carries for them, the payload itself, the snapshot of
    which relations a site currently has, and the update descriptor. */
module SiteModel {
  import opened Wrappers

  // ---- Stored records (what the store holds and returns) ----

  datatype Owner = Owner(name: string, email: string, phone: Option<string>)

  datatype Contact = Contact(
    address: Option<string>,
    city: Option<string>,
    phone: Option<string>,
    email: Option<string>,
    workingHours: Option<string>,
    areas: seq<string>)

  datatype SocialMedia = SocialMedia(
    facebook: Option<string>,
    instagram: Option<string>,
    linkedin: Option<string>)

  datatype Hero = Hero(
    mainTitle: Option<string>,
    subtitle: Option<string>,
    highlights: seq<string>,
    ctaPrimary: Option<string>,
    ctaSecondary: Option<string>)

  /** A site together with its four optional one-to-one relations. */
  datatype SiteRow = SiteRow(
    name: string,
    description: string,
    subdomain: string,
    githubRepoUrl: Option<string>,
    vercelProjectUrl: Option<string>,
    owner: Option<Owner>,
    contact: Option<Contact>,
    socialMedia: Option<SocialMedia>,
    hero: Option<Hero>)

  // ---- Nested inputs of a payload (`OwnerInput`, `ContactInput`, ...) ----

  /** `name` and `email` are required by the input type; `phone?: string | null`. */
  datatype OwnerInput = OwnerInput(name: string, email: string, phone: Field<string>)

  /** Every scalar is `?: string | null`; `areas?: string[]` may be left out but not null. */
  datatype ContactInput = ContactInput(
    address: Field<string>,
    city: Field<string>,
    phone: Field<string>,
    email: Field<string>,
    workingHours: Field<string>,
    areas: Option<seq<string>>)

  datatype SocialMediaInput = SocialMediaInput(
    facebook: Field<string>,
    instagram: Field<string>,
    linkedin: Field<string>)

  datatype HeroInput = HeroInput(
    mainTitle: Field<string>,
    subtitle: Field<string>,
    highlights: Option<seq<string>>,
    ctaPrimary: Field<string>,
    ctaSecondary: Field<string>)

  /** `UpdateSiteDetailsPayload`: `name`, `description` and `subdomain` may be
      left out but not null; the two URLs and the four relations may be left
      out, null, or given. */
  datatype Payload = Payload(
    name: Option<string>,
    description: Option<string>,
    subdomain: Option<string>,
    githubRepoUrl: Field<string>,
    vercelProjectUrl: Field<string>,
    owner: Field<OwnerInput>,
    contact: Field<ContactInput>,
    socialMedia: Field<SocialMediaInput>,
    hero: Field<HeroInput>)

  /** The result of the lookup that selects only `ownerId`, `contactId`,
      `socialMediaId` and `heroId`: each flag says whether that id is set. */
  datatype Snapshot = Snapshot(hasOwner: bool, hasContact: bool, hasSocialMedia: bool, hasHero: bool)

  function SnapshotOf(row: SiteRow): Snapshot
  {
    Snapshot(row.owner.Some?, row.contact.Some?, row.socialMedia.Some?, row.hero.Some?)
  }

  // ---- The update descriptor (`Prisma.SiteUpdateInput`) ----

  /** A nested write on one relation: `{ disconnect: true }` or
      `{ upsert: { create, update } }`. */
  datatype RelOp<+T> = Disconnect | Upsert(create: T, update: T)

  /** A key that is `None` is not in the descriptor. For the URLs,
      `Some(None)` sets the column to null. */
  datatype Descriptor = Descriptor(
    name: Option<string>,
    description: Option<string>,
    subdomain: Option<string>,
    githubRepoUrl: Option<Option<string>>,
    vercelProjectUrl: Option<Option<string>>,
    owner: Option<RelOp<OwnerInput>>,
    contact: Option<RelOp<ContactInput>>,
    socialMedia: Option<RelOp<SocialMediaInput>>,
    hero: Option<RelOp<HeroInput>>)

  /** The descriptor `{}` the reconciler starts from. */
  const EmptyDescriptor: Descriptor :=
    Descriptor(None, None, None, None, None, None, None, None, None)
}

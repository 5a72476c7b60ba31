# Site detail reconciler and carpenter contact entries — a Dafny model

This project models two pieces of a multi-tenant website builder.

- `updateSiteDetails`, the server action that changes a site. It looks up
  which of a site's four one-to-one relations (owner, contact, social media,
  hero) are set. It builds one update descriptor from a partial payload.
  Scalar fields are copied when they are not `undefined`. Each relation is
  left alone, disconnected or upserted. The descriptor is submitted as one
  write. Two cached dashboard paths are invalidated only after that write
  succeeds. Every thrown error becomes a `{ success: false, message, site: null }`
  result.
- `getContactInfo`, which turns a site's optional contact record into the
  four labelled entries of the carpenter template's contact section.

Files:

- `wrappers.dfy` (`Wrappers`): `Option`, `Result`, and `Field`. `Field` is
  the three-way `undefined` / `null` / value that the payload relies on.
- `site_model.dfy` (`SiteModel`): stored records, the payload and its nested
  inputs, the four-flag snapshot, and the update descriptor.
- `prisma_store.dfy` (`PrismaStore`): the record store and the path cache.
  How the store treats `upsert`, `disconnect`, scalar writes and the unique
  `subdomain` column is an assumed contract, written out as functions. Uniqueness
  of `subdomain` is the `SiteStore` invariant. `PathCache` keeps a ghost log
  of invalidated paths.
- `site_actions.dfy` (`SiteActions`): descriptor construction (a function
  as the reference, and imperative methods proved to meet its rules), error
  classification, and the `UpdateSiteDetails` method.
- `reconcile_properties.dfy` (`ReconcileProperties`): what one or several
  successful calls do to a stored site.
- `carpenter_contact.dfy` (`CarpenterContact`): `ContactInfo`.

Things that happen outside the code become parameters. `lookupFault` and
`writeFault` are what `findUnique` and `update` may throw.

Two choices follow the code:

- The code performs no required-field check when a relation is created. It
  casts one object to both the create and the update input types
  (app/actions/database/siteActions.ts:110-111), so no validation error is
  modelled. An `OwnerInput` always carries `name` and `email`, as its input
  type requires.
- A failed write is assumed to change nothing. This is an assumption of the
  store model: a failing `StoreUpdate` leaves every site as it was.

## Model

| member | source | states |
|---|---|---|
| `SiteActions.UpdateDataFor` | app/actions/database/siteActions.ts:90-152 | It defines the descriptor. `name`, `description` and `subdomain` appear exactly when supplied, with the supplied value. Each URL appears iff it is not `undefined`, and an explicit null is written as null. Each relation follows the three-way rule, which depends only on its own field and its own id flag. |
| `SiteActions.DirectFieldOps` | app/actions/database/siteActions.ts:92-100 | The step-by-step scalar assignments. Each key is set iff its payload value is not `undefined`, and then to exactly that value, including null for the two URLs. |
| `SiteActions.RelationInstruction` | app/actions/database/siteActions.ts:102-152 | The branch used for each relation. `null` gives `disconnect` iff the id is set, and nothing otherwise. An object gives `upsert` with `create == update ==` the object. `undefined` gives nothing. |
| `SiteActions.BuildUpdateData` | app/actions/database/siteActions.ts:90-152 | Starts from the empty descriptor (`{}`) and sets keys one by one. The result meets every scalar rule and every relation rule. |
| `SiteActions.RulesDetermineDescriptor` | app/actions/database/siteActions.ts:90-152 | Any descriptor that meets the rules equals `UpdateDataFor`, so the imperative builder and the reference function agree. |
| `SiteActions.RelationRuleIsFunctional` | app/actions/database/siteActions.ts:102-114 | The three-way relation rule allows exactly one instruction for a given field and id flag. |
| `SiteActions.DetailPathsDistinct` | app/actions/database/siteActions.ts:166-167 | The two paths invalidated on success differ: a detail path is never the listing path, and different site ids give different detail paths. |
| `SiteActions.Classify` | app/actions/database/siteActions.ts:174-206 | Every thrown value gives `success = false` and `site = null`. A known store error with code P2002 whose target includes "subdomain" gives the "already taken" message. Any other known store error gives `Prisma Error (code): message`. Any other `Error` gives its own message. Anything else gives "An unexpected error occurred.". |
| `SiteActions.SubdomainMessageIffConflict` | app/actions/database/siteActions.ts:177-193 | Among known store errors, the "already taken" message is produced iff the error is a P2002 violation whose target includes "subdomain". The check runs in both directions. |
| `SiteActions.UpdateSiteDetails` | app/actions/database/siteActions.ts:66-207 | A throwing lookup is classified: nothing is written and nothing is invalidated. A missing site gives "Site not found.", with no write and no invalidation. Otherwise one write is made with the descriptor built from the site's snapshot. On success the result is `success = true` with "Site details updated successfully!" and the written site, and exactly the detail path then the listing path are appended to the invalidation log. On a failed write the error is classified and neither store nor log changes. Invalidation happens iff the result is a success. The store invariant is kept. |
| `PrismaStore.SiteStore.FindSnapshot` | app/actions/database/siteActions.ts:75-87 | The lookup returns the four id flags of the site, `None` when no site has the id, or the thrown fault. |
| `PrismaStore.StoreUpdate` | app/actions/database/siteActions.ts:154-164 | The assumed store write. It succeeds iff nothing is thrown, the site exists, and no other site holds the requested subdomain. On success it returns the site with the descriptor applied. A subdomain clash fails with P2002 on `["subdomain"]`. |
| `PrismaStore.StoreUpdatePreservesUnique` | app/actions/database/siteActions.ts:154-164 | A successful write keeps subdomains unique across sites. |
| `PrismaStore.SiteStore.Update` | app/actions/database/siteActions.ts:154-164 | The write is all or nothing. The new store is the old store with the written row iff the write succeeded, and is unchanged otherwise. The uniqueness invariant is kept. |
| `PrismaStore.PathCache.RevalidatePath` | app/actions/database/siteActions.ts:166-167 | Invalidating a path appends exactly that path to the log. |
| `ReconcileProperties.ReconcileIsTheWrite` | app/actions/database/siteActions.ts:154-164 | When nothing is thrown and the site exists with no subdomain clash, the store write returns the reconciled row. |
| `ReconcileProperties.AbsentKeysPersist` | app/actions/database/siteActions.ts:93-152 | Over any history of successful calls, a relation that is `undefined` in every payload keeps its stored record, and so does every scalar column (name, description, subdomain, both URLs) that is `undefined` throughout. Proved by induction on the history. |
| `ReconcileProperties.NullThenNullEmitsNothing` | app/actions/database/siteActions.ts:103-105 | A `null` relation is empty after the call. Repeating the `null` against the new snapshot emits no instruction, and this holds for all four relations. |
| `ReconcileProperties.CreateIsUpdateOfEmpty` | app/actions/database/siteActions.ts:120-151 | One object serves both upsert branches. Creating from it equals updating an empty contact, social media or hero record with it. |
| `ReconcileProperties.SettleOwner` | app/actions/database/siteActions.ts:106-113 | Merging an owner input twice equals merging it once. Merging it into the owner just created from it changes nothing. |
| `ReconcileProperties.SettleContact` | app/actions/database/siteActions.ts:120-126 | The same two facts for a contact input. |
| `ReconcileProperties.SettleSocialMedia` | app/actions/database/siteActions.ts:133-139 | The same two facts for a social media input. |
| `ReconcileProperties.SettleHero` | app/actions/database/siteActions.ts:145-151 | The same two facts for a hero input. |
| `ReconcileProperties.ReconcileIdempotent` | app/actions/database/siteActions.ts:90-164 | Reconciling a site twice with the same payload equals reconciling it once. |
| `ReconcileProperties.ResubmissionIsIdempotent` | app/actions/database/siteActions.ts:90-164 | Submit a successful payload again to the store it produced. The write succeeds again and yields the same row. |
| `ReconcileProperties.UpsertCreatesOrMerges` | app/actions/database/siteActions.ts:145-151 | A hero object for an empty slot creates a record from the object alone. For a filled slot it merges into the stored record, and a column the object leaves `undefined` (here `subtitle`) keeps its stored value. |
| `ReconcileProperties.SubdomainConflictReported` | app/actions/database/siteActions.ts:177-188 | Requesting a subdomain that another site holds makes the write fail. The result is the "already taken" message with `success = false` and `site = null`. |
| `CarpenterContact.ContactInfo` | components/sites/carpenter/contact.tsx:17-40 | Exactly four entries, labelled "Call Us", "Email Us", "Visit Us" and "Opening Hours" in that order, with their icons. The phone, email and opening-hours values are the contact's string if it is non-empty, and `""` otherwise, including when the contact or the key is missing. The address value is always the interpolated address, ", ", and the interpolated city. |
| `CarpenterContact.Interpolate` | components/sites/carpenter/contact.tsx:32 | A template interpolation is empty only for the empty string. A missing or null part is never blank; it shows up as text. |
| `CarpenterContact.AddressNeverFallsBack` | components/sites/carpenter/contact.tsx:32 | The address line is never empty. Without a contact it reads "undefined, undefined", and a null city is shown as "null". |
| `CarpenterContact.NoContactShowsBlanks` | components/sites/carpenter/contact.tsx:22-37 | Without a contact, the phone, email and opening-hours values are all `""`. |

## Left out

- Prisma itself is not modelled: query building, the database, and how `upsert`, `disconnect` and scalar writes are carried out. `PrismaStore` states the semantics the reconciler relies on as an assumed contract. An upsert creates when the slot is empty and merges otherwise. A disconnect empties the slot. A failed write changes nothing. `subdomain` is unique.
- Errors the store may throw for other reasons (connectivity, constraints the model does not track) enter as the `lookupFault` / `writeFault` parameters.
- The exact text of the store's own error messages is an assumption of the store model.
- The snapshot reads each relation id as "set" or "not set". The source tests the id's truthiness, so an empty-string id would count as not set. Generated ids are never empty, so this case is not modelled.
- The race between the snapshot read and the write is concurrency and is not modelled. So are `async`/`await` and last-writer-wins between concurrent calls on the same site.
- `revalidatePath` is assumed never to throw, and its cache internals are not modelled. Only the log of invalidated paths is kept.
- `console.error` logging is not modelled.
- Only `site.contact` of the template's site configuration is modelled. The configuration type itself is not part of this model. Its contact values are taken to be `undefined`, `null` or a string.
- `PrismaStore.SiteStore.Update`, `PrismaStore.PathCache.RevalidatePath` and `SiteActions.UpdateSiteDetails` change state, so their contracts are stated with `old` and frames.
- The rest of `contact.tsx` is user interface and is not modelled: the enquiry form, the toast, the map and the JSX.
- The other carpenter components (`services.tsx`, `portfolio.tsx`, `about.tsx`) and the projects listing page are not modelled. They are static content, animation and table rendering.
- Required-field validation on create is not modelled, because the source has none.

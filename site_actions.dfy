/** `updateSiteDetails`: look up which relations a site has, build one update
    descriptor from a partial payload, submit it, invalidate two cached paths
    on success, and map every failure to a fixed result shape. */
module SiteActions {
  import opened Wrappers
  import opened SiteModel
  import opened PrismaStore

  // ---- The rules the descriptor follows ----

  /** A nullable scalar is written iff it is not `undefined`, with exactly the
      supplied value; an explicit null is written as null. */
  ghost predicate NullableRule<T>(f: Field<T>, op: Option<Option<T>>)
  {
    && (op.Some? <==> !f.Absent?)
    && (f.Null? ==> op == Some(None))
    && (f.Present? ==> op == Some(Some(f.value)))
  }

  /** The three-way rule for one relation, given whether its id is set:
      no instruction iff the field is `undefined` or it is null with no id;
      `disconnect` iff it is null and the id is set; `upsert` iff an object is
      given, with both branches equal to that object. */
  ghost predicate RelationRule<T>(f: Field<T>, hasId: bool, op: Option<RelOp<T>>)
  {
    && (op.None? <==> f.Absent? || (f.Null? && !hasId))
    && (op == Some(Disconnect) <==> f.Null? && hasId)
    && (op.Some? && op.value.Upsert? <==> f.Present?)
    && (f.Present? ==> op == Some(Upsert(f.value, f.value)))
  }

  /** Everything the descriptor promises about one payload against one snapshot. */
  ghost predicate DescriptorRules(current: Snapshot, data: Payload, d: Descriptor)
  {
    && d.name == data.name && d.description == data.description && d.subdomain == data.subdomain
    && NullableRule(data.githubRepoUrl, d.githubRepoUrl)
    && NullableRule(data.vercelProjectUrl, d.vercelProjectUrl)
    && RelationRule(data.owner, current.hasOwner, d.owner)
    && RelationRule(data.contact, current.hasContact, d.contact)
    && RelationRule(data.socialMedia, current.hasSocialMedia, d.socialMedia)
    && RelationRule(data.hero, current.hasHero, d.hero)
  }

  function NullableOp<T>(f: Field<T>): Option<Option<T>>
  {
    match f
    case Absent => None
    case Null => Some(None)
    case Present(v) => Some(Some(v))
  }

  function RelationOp<T>(f: Field<T>, hasId: bool): Option<RelOp<T>>
  {
    match f
    case Absent => None
    case Null => if hasId then Some(Disconnect) else None
    case Present(v) => Some(Upsert(v, v))
  }

  /** The descriptor `updateData` built for `data` against `current`. Each key
      depends only on its own payload field (and, for a relation, on that
      relation's id flag). */
  function UpdateDataFor(current: Snapshot, data: Payload): (d: Descriptor)
    ensures DescriptorRules(current, data, d)
  {
    Descriptor(
      data.name, data.description, data.subdomain,
      NullableOp(data.githubRepoUrl), NullableOp(data.vercelProjectUrl),
      RelationOp(data.owner, current.hasOwner),
      RelationOp(data.contact, current.hasContact),
      RelationOp(data.socialMedia, current.hasSocialMedia),
      RelationOp(data.hero, current.hasHero))
  }

  /** The rules leave no freedom: any descriptor that meets them is the one
      `UpdateDataFor` builds. */
  lemma RulesDetermineDescriptor(current: Snapshot, data: Payload, d: Descriptor)
    requires DescriptorRules(current, data, d)
    ensures d == UpdateDataFor(current, data)
  {
    var e := UpdateDataFor(current, data);
    RelationRuleIsFunctional(data.owner, current.hasOwner, d.owner, e.owner);
    RelationRuleIsFunctional(data.contact, current.hasContact, d.contact, e.contact);
    RelationRuleIsFunctional(data.socialMedia, current.hasSocialMedia, d.socialMedia, e.socialMedia);
    RelationRuleIsFunctional(data.hero, current.hasHero, d.hero, e.hero);
  }

  lemma RelationRuleIsFunctional<T>(f: Field<T>, hasId: bool, op1: Option<RelOp<T>>, op2: Option<RelOp<T>>)
    requires RelationRule(f, hasId, op1) && RelationRule(f, hasId, op2)
    ensures op1 == op2
  {
  }

  /** One relation's branch: `null` disconnects only when the id is set, an
      object upserts with itself as both branches, `undefined` adds nothing. */
  method RelationInstruction<T>(field: Field<T>, hasId: bool) returns (op: Option<RelOp<T>>)
    ensures RelationRule(field, hasId, op)
  {
    op := None;
    if field.Null? {
      if hasId { op := Some(Disconnect); }
    } else if field.Present? {
      op := Some(Upsert(field.value, field.value));
    }
  }

  /** The direct site fields: each is written iff it is not `undefined`. */
  method DirectFieldOps(data: Payload)
    returns (name: Option<string>, description: Option<string>, subdomain: Option<string>,
             githubRepoUrl: Option<Option<string>>, vercelProjectUrl: Option<Option<string>>)
    ensures name == data.name && description == data.description && subdomain == data.subdomain
    ensures NullableRule(data.githubRepoUrl, githubRepoUrl)
    ensures NullableRule(data.vercelProjectUrl, vercelProjectUrl)
  {
    name, description, subdomain, githubRepoUrl, vercelProjectUrl := None, None, None, None, None;
    if data.name.Some? { name := Some(data.name.value); }
    if data.description.Some? { description := Some(data.description.value); }
    if data.subdomain.Some? { subdomain := Some(data.subdomain.value); }
    if !data.githubRepoUrl.Absent? {
      githubRepoUrl := Some(if data.githubRepoUrl.Null? then None else Some(data.githubRepoUrl.value));
    }
    if !data.vercelProjectUrl.Absent? {
      vercelProjectUrl := Some(if data.vercelProjectUrl.Null? then None else Some(data.vercelProjectUrl.value));
    }
  }

  /** The descriptor is built key by key, starting from `{}`. A key whose
      branch emits nothing stays `None`, that is, absent from `updateData`. */
  method BuildUpdateData(current: Snapshot, data: Payload) returns (d: Descriptor)
    ensures DescriptorRules(current, data, d)
  {
    d := EmptyDescriptor;

    // Direct site fields
    var name, description, subdomain, githubRepoUrl, vercelProjectUrl := DirectFieldOps(data);
    d := d.(name := name, description := description, subdomain := subdomain,
            githubRepoUrl := githubRepoUrl, vercelProjectUrl := vercelProjectUrl);

    // Relations: the same three-way branch for each of the four
    var owner := RelationInstruction(data.owner, current.hasOwner);
    d := d.(owner := owner);
    var contact := RelationInstruction(data.contact, current.hasContact);
    d := d.(contact := contact);
    var socialMedia := RelationInstruction(data.socialMedia, current.hasSocialMedia);
    d := d.(socialMedia := socialMedia);
    var hero := RelationInstruction(data.hero, current.hasHero);
    d := d.(hero := hero);
  }

  // ---- Results ----

  /** `{ success, message, site }`; `site` is null on every failure. */
  datatype ActionResult = ActionResult(success: bool, message: string, site: Option<SiteRow>)

  const NotFoundMessage := "Site not found."
  const SuccessMessage := "Site details updated successfully!"
  // One sentence pair; written as two literals so the verifier can read its
  // first character cheaply.
  const SubdomainTakenMessage := "This subdomain is already taken." + " Please choose another one."
  const UnexpectedMessage := "An unexpected error occurred."

  const ListPath := "/dashboard/projects"

  function DetailPath(siteId: string): string
  {
    ListPath + "/" + siteId
  }

  /** The two invalidations of a success hit two different paths, and
      different sites have different detail paths. */
  lemma DetailPathsDistinct(a: string, b: string)
    ensures DetailPath(a) != ListPath
    ensures a != b ==> DetailPath(a) != DetailPath(b)
  {
    assert |DetailPath(a)| == |ListPath| + 1 + |a|;
    assert DetailPath(a)[|ListPath| + 1..] == a;
    assert DetailPath(b)[|ListPath| + 1..] == b;
  }

  /** `(error.meta?.target as string[])?.includes(column)`: membership for a
      list, substring search for a string, false when `target` is missing. */
  predicate TargetIncludes(t: Target, column: string)
  {
    match t
    case NoTarget => false
    case FieldList(fields) => column in fields
    case IndexName(index) => Contains(index, column)
  }

  /** `hay.includes(needle)` on strings. */
  predicate Contains(hay: string, needle: string)
    decreases |hay|
  {
    needle <= hay || (|hay| > 0 && Contains(hay[1..], needle))
  }

  /** A unique violation on the subdomain column. */
  predicate IsSubdomainConflict(e: Thrown)
  {
    e.KnownPrisma? && e.code == UniqueViolationCode && TargetIncludes(e.target, "subdomain")
  }

  /** The `catch` block: every thrown value becomes a failure with no site. */
  function Classify(e: Thrown): (r: ActionResult)
    ensures !r.success && r.site.None?
    ensures IsSubdomainConflict(e) ==> r.message == SubdomainTakenMessage
    ensures e.KnownPrisma? && !IsSubdomainConflict(e) ==>
              r.message == "Prisma Error (" + e.code + "): " + e.message
    ensures e.PlainError? ==> r.message == e.message
    ensures e.Other? ==> r.message == UnexpectedMessage
  {
    match e
    case KnownPrisma(code, target, message) =>
      if code == UniqueViolationCode && TargetIncludes(target, "subdomain") then
        ActionResult(false, SubdomainTakenMessage, None)
      else
        ActionResult(false, "Prisma Error (" + code + "): " + message, None)
    case PlainError(message) => ActionResult(false, message, None)
    case Other => ActionResult(false, UnexpectedMessage, None)
  }

  /** Among store errors the "subdomain is already taken" message singles out
      exactly the unique violations on the subdomain column. */
  lemma SubdomainMessageIffConflict(e: Thrown)
    requires e.KnownPrisma?
    ensures Classify(e).message == SubdomainTakenMessage <==> IsSubdomainConflict(e)
  {
    if !IsSubdomainConflict(e) {
      var prefix, rest := "Prisma Error (", e.code + "): " + e.message;
      assert Classify(e).message == prefix + rest;
      assert (prefix + rest)[0] == 'P' && SubdomainTakenMessage[0] == 'T';
    }
  }

  /** `updateSiteDetails(siteId, data)`. `lookupFault` and `writeFault` stand
      for what `findUnique` and `update` may throw. */
  method UpdateSiteDetails(store: SiteStore, cache: PathCache, siteId: string, data: Payload,
                           lookupFault: Option<Thrown>, writeFault: Option<Thrown>)
    returns (res: ActionResult)
    requires store.Valid()
    modifies store, cache
    ensures store.Valid()
    // the lookup throws: classified, nothing written, nothing invalidated
    ensures lookupFault.Some? ==>
              res == Classify(lookupFault.value)
              && store.sites == old(store.sites) && cache.invalidated == old(cache.invalidated)
    // no such site: short circuit, nothing written, nothing invalidated
    ensures lookupFault.None? && siteId !in old(store.sites) ==>
              res == ActionResult(false, NotFoundMessage, None)
              && store.sites == old(store.sites) && cache.invalidated == old(cache.invalidated)
    // the site exists: one write of the descriptor built from its snapshot
    ensures lookupFault.None? && siteId in old(store.sites) ==>
              var out := StoreUpdate(old(store.sites), siteId,
                                     UpdateDataFor(SnapshotOf(old(store.sites)[siteId]), data), writeFault);
              && (out.Success? ==>
                    res == ActionResult(true, SuccessMessage, Some(out.value))
                    && store.sites == old(store.sites)[siteId := out.value]
                    && cache.invalidated == old(cache.invalidated) + [DetailPath(siteId), ListPath])
              && (out.Failure? ==>
                    res == Classify(out.error)
                    && store.sites == old(store.sites) && cache.invalidated == old(cache.invalidated))
    // only a success invalidates, and every failure carries no site
    ensures res.success <==> cache.invalidated != old(cache.invalidated)
    ensures !res.success ==> res.site.None? && store.sites == old(store.sites)
  {
    var lookup := store.FindSnapshot(siteId, lookupFault);
    if lookup.Failure? {
      res := Classify(lookup.error);
      return;
    }
    if lookup.value.None? {
      res := ActionResult(false, NotFoundMessage, None);
      return;
    }
    var currentSite := lookup.value.value;

    var updateData := BuildUpdateData(currentSite, data);
    RulesDetermineDescriptor(currentSite, data, updateData);

    var updated := store.Update(siteId, updateData, writeFault);
    if updated.Failure? {
      res := Classify(updated.error);
      return;
    }

    cache.RevalidatePath(DetailPath(siteId));
    cache.RevalidatePath(ListPath);

    res := ActionResult(true, SuccessMessage, Some(updated.value));
  }
}

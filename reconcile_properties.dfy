/** What one or several successful calls of `updateSiteDetails` do to a
    stored site, stated over the store's assumed write semantics. */
module ReconcileProperties {
  import opened Wrappers
  import opened SiteModel
  import opened PrismaStore
  import opened SiteActions

  /** The row a successful call writes: the descriptor built from the row's
      own snapshot, applied to the row. */
  function Reconcile(row: SiteRow, data: Payload): SiteRow
  {
    ApplyDescriptor(row, UpdateDataFor(SnapshotOf(row), data))
  }

  /** A successful call's written row is the store's success value. */
  lemma ReconcileIsTheWrite(sites: map<string, SiteRow>, id: string, data: Payload)
    requires id in sites
    requires data.subdomain.Some? ==> !SubdomainTakenByOther(sites, id, data.subdomain.value)
    ensures StoreUpdate(sites, id, UpdateDataFor(SnapshotOf(sites[id]), data), None)
            == Success(Reconcile(sites[id], data))
  {
  }

  /** Several calls in a row, all succeeding. */
  function ReconcileAll(row: SiteRow, history: seq<Payload>): SiteRow
    decreases |history|
  {
    if history == [] then row else ReconcileAll(Reconcile(row, history[0]), history[1..])
  }

  /** A relation that is `undefined` in every payload of a history keeps its
      stored record, whatever the other keys do; so does every
      scalar column. */
  lemma {:induction false} AbsentKeysPersist(row: SiteRow, history: seq<Payload>)
    ensures (forall k :: 0 <= k < |history| ==> history[k].owner.Absent?)
            ==> ReconcileAll(row, history).owner == row.owner
    ensures (forall k :: 0 <= k < |history| ==> history[k].contact.Absent?)
            ==> ReconcileAll(row, history).contact == row.contact
    ensures (forall k :: 0 <= k < |history| ==> history[k].socialMedia.Absent?)
            ==> ReconcileAll(row, history).socialMedia == row.socialMedia
    ensures (forall k :: 0 <= k < |history| ==> history[k].hero.Absent?)
            ==> ReconcileAll(row, history).hero == row.hero
    ensures (forall k :: 0 <= k < |history| ==> history[k].name.None?)
            ==> ReconcileAll(row, history).name == row.name
    ensures (forall k :: 0 <= k < |history| ==> history[k].description.None?)
            ==> ReconcileAll(row, history).description == row.description
    ensures (forall k :: 0 <= k < |history| ==> history[k].subdomain.None?)
            ==> ReconcileAll(row, history).subdomain == row.subdomain
    ensures (forall k :: 0 <= k < |history| ==> history[k].githubRepoUrl.Absent?)
            ==> ReconcileAll(row, history).githubRepoUrl == row.githubRepoUrl
    ensures (forall k :: 0 <= k < |history| ==> history[k].vercelProjectUrl.Absent?)
            ==> ReconcileAll(row, history).vercelProjectUrl == row.vercelProjectUrl
    decreases |history|
  {
    if history != [] {
      var next := Reconcile(row, history[0]);
      AbsentKeysPersist(next, history[1..]);
      assert forall k :: 0 <= k < |history| - 1 ==> history[1..][k] == history[k + 1];
    }
  }

  /** `null` on a relation leaves it empty, and repeating the `null` against
      the new snapshot emits no instruction at all. */
  lemma NullThenNullEmitsNothing(row: SiteRow, data: Payload)
    ensures data.owner.Null? ==>
              Reconcile(row, data).owner.None?
              && UpdateDataFor(SnapshotOf(Reconcile(row, data)), data).owner.None?
    ensures data.contact.Null? ==>
              Reconcile(row, data).contact.None?
              && UpdateDataFor(SnapshotOf(Reconcile(row, data)), data).contact.None?
    ensures data.socialMedia.Null? ==>
              Reconcile(row, data).socialMedia.None?
              && UpdateDataFor(SnapshotOf(Reconcile(row, data)), data).socialMedia.None?
    ensures data.hero.Null? ==>
              Reconcile(row, data).hero.None?
              && UpdateDataFor(SnapshotOf(Reconcile(row, data)), data).hero.None?
  {
  }

  /** The create branch is the update branch applied to an empty record: one
      object serves both without the caller knowing which will fire. */
  lemma CreateIsUpdateOfEmpty(ci: ContactInput, si: SocialMediaInput, hi: HeroInput)
    ensures CreateContact(ci) == UpdateContact(EmptyContact, ci)
    ensures CreateSocialMedia(si) == UpdateSocialMedia(EmptySocialMedia, si)
    ensures CreateHero(hi) == UpdateHero(EmptyHero, hi)
  {
  }

  /** Submitting the same payload twice leaves the site as one submission does. */
  lemma ReconcileIdempotent(row: SiteRow, data: Payload)
    ensures Reconcile(Reconcile(row, data), data) == Reconcile(row, data)
  {
    var once := Reconcile(row, data);
    var twice := Reconcile(once, data);
    assert twice.owner == once.owner by {
      if data.owner.Present? {
        var i := data.owner.value;
        if row.owner.Some? { SettleOwner(row.owner.value, i); } else { SettleOwner(CreateOwner(i), i); }
      }
    }
    assert twice.contact == once.contact by {
      if data.contact.Present? {
        var i := data.contact.value;
        if row.contact.Some? { SettleContact(row.contact.value, i); } else { SettleContact(CreateContact(i), i); }
      }
    }
    assert twice.socialMedia == once.socialMedia by {
      if data.socialMedia.Present? {
        var i := data.socialMedia.value;
        if row.socialMedia.Some? { SettleSocialMedia(row.socialMedia.value, i); }
        else { SettleSocialMedia(CreateSocialMedia(i), i); }
      }
    }
    assert twice.hero == once.hero by {
      if data.hero.Present? {
        var i := data.hero.value;
        if row.hero.Some? { SettleHero(row.hero.value, i); } else { SettleHero(CreateHero(i), i); }
      }
    }
  }

  /** Merging the same input twice is merging it once, and merging an input
      into the record just created from it changes nothing. */
  lemma SettleOwner(o: Owner, i: OwnerInput)
    ensures UpdateOwner(UpdateOwner(o, i), i) == UpdateOwner(o, i)
    ensures UpdateOwner(CreateOwner(i), i) == CreateOwner(i)
  {
  }

  lemma SettleContact(c: Contact, i: ContactInput)
    ensures UpdateContact(UpdateContact(c, i), i) == UpdateContact(c, i)
    ensures UpdateContact(CreateContact(i), i) == CreateContact(i)
  {
  }

  lemma SettleSocialMedia(s: SocialMedia, i: SocialMediaInput)
    ensures UpdateSocialMedia(UpdateSocialMedia(s, i), i) == UpdateSocialMedia(s, i)
    ensures UpdateSocialMedia(CreateSocialMedia(i), i) == CreateSocialMedia(i)
  {
  }

  lemma SettleHero(h: Hero, i: HeroInput)
    ensures UpdateHero(UpdateHero(h, i), i) == UpdateHero(h, i)
    ensures UpdateHero(CreateHero(i), i) == CreateHero(i)
  {
  }

  /** A submission that succeeded, submitted again to the store it produced,
      succeeds again and writes the same row. */
  lemma ResubmissionIsIdempotent(sites: map<string, SiteRow>, id: string, data: Payload)
    requires id in sites
    requires StoreUpdate(sites, id, UpdateDataFor(SnapshotOf(sites[id]), data), None).Success?
    ensures var after := sites[id := Reconcile(sites[id], data)];
            StoreUpdate(after, id, UpdateDataFor(SnapshotOf(after[id]), data), None)
            == Success(Reconcile(sites[id], data))
  {
    ReconcileIdempotent(sites[id], data);
  }

  /** An object for an empty slot creates a record from it alone; an object
      for a filled slot keeps every column the object leaves `undefined`. */
  lemma UpsertCreatesOrMerges(row: SiteRow, data: Payload)
    requires data.hero.Present?
    ensures row.hero.None? ==> Reconcile(row, data).hero == Some(CreateHero(data.hero.value))
    ensures row.hero.Some? && data.hero.value.subtitle.Absent? ==>
              Reconcile(row, data).hero.Some?
              && Reconcile(row, data).hero.value.subtitle == row.hero.value.subtitle
    ensures row.hero.Some? ==> Reconcile(row, data).hero == Some(UpdateHero(row.hero.value, data.hero.value))
  {
  }

  /** A subdomain another site already uses makes the write fail with the
      subdomain message and leaves every site as it was. */
  lemma SubdomainConflictReported(sites: map<string, SiteRow>, id: string, data: Payload)
    requires id in sites && data.subdomain.Some?
    requires SubdomainTakenByOther(sites, id, data.subdomain.value)
    ensures var out := StoreUpdate(sites, id, UpdateDataFor(SnapshotOf(sites[id]), data), None);
            out.Failure? && Classify(out.error).message == SubdomainTakenMessage
            && !Classify(out.error).success && Classify(out.error).site.None?
  {
    var out := StoreUpdate(sites, id, UpdateDataFor(SnapshotOf(sites[id]), data), None);
    assert out.error.target == FieldList(["subdomain"]);
    assert TargetIncludes(out.error.target, "subdomain");
  }
}

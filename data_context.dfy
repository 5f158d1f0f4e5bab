/** The data store behind every page: the organization list held against the server with
    etag (`If-Match`) preconditions, and the contact and custom-field lists held locally. */
module DataContext {
  import opened Wrappers
  import opened Seqs
  import opened Types
  import opened Api
  import opened BrowserStorage

  /** `Omit<Organization, 'id' | 'createdAt' | 'updatedAt' | 'etag'>`: what the form sends to create. */
  datatype OrganizationDraft = OrganizationDraft(
    name: string,
    website: string,
    websiteStatus: Option<string>,
    linkedinUrl: Option<string>,
    countryRegion: string,
    email: string,
    category: string,
    status: string,
    notes: Option<string>,
    customFields: Option<CustomValues>)

  /** `Partial<Organization>`: the patch body, forwarded to the server as it is. */
  datatype OrganizationPatch = OrganizationPatch(
    id: Option<string>,
    name: Option<string>,
    website: Option<string>,
    websiteStatus: Option<string>,
    linkedinUrl: Option<string>,
    countryRegion: Option<string>,
    email: Option<string>,
    category: Option<string>,
    status: Option<string>,
    notes: Option<string>,
    customFields: Option<CustomValues>,
    createdAt: Option<string>,
    updatedAt: Option<string>,
    etag: Option<string>)

  /** `Omit<Contact, 'id' | 'createdAt' | 'updatedAt'>` */
  datatype ContactDraft = ContactDraft(
    organizationId: string,
    name: string,
    rolePosition: string,
    email: string,
    preferredLanguage: string,
    notes: string,
    customFields: Option<CustomValues>)

  /** `Partial<Contact>`: absent fields keep the contact's value. */
  datatype ContactPatch = ContactPatch(
    id: Option<string>,
    organizationId: Option<string>,
    name: Option<string>,
    rolePosition: Option<string>,
    email: Option<string>,
    preferredLanguage: Option<string>,
    notes: Option<string>,
    customFields: Option<CustomValues>,
    createdAt: Option<string>,
    updatedAt: Option<string>)

  /** `Omit<CustomField, 'id'>` */
  datatype CustomFieldDraft = CustomFieldDraft(
    name: string,
    fieldType: string,
    options: Option<seq<string>>,
    entityType: string)

  /** A request the store sends to the organizations endpoint. */
  datatype Request =
    | ListRequest
    | CreateRequest(draft: OrganizationDraft)
    | PatchRequest(id: string, patch: OrganizationPatch, ifMatch: string)
    | DeleteRequest(id: string, ifMatch: string)

  /** How a store operation fails: refused locally for want of an etag, or rejected by the server. */
  datatype StoreError = MissingEtag | Rejected(error: HttpError)

  const MissingEtagMessage := "Missing etag for organization"

  /** The error an answer carries, if it is a failure. */
  function ErrorOf<T>(answer: Result<T, HttpError>): (e: Option<HttpError>)
    ensures answer.Failure? <==> e.Some?
    ensures answer.Failure? ==> e.value == answer.error
  {
    if answer.Failure? then Some(answer.error) else None
  }

  // ---------------------------------------------------------------------------------------------
  // The list operations the store applies, as functions on sequences.

  /** `organizations.find(o => o.id === id)` */
  function FindById(os: seq<Organization>, id: string): (r: Option<Organization>)
    ensures r.None? <==> forall i :: 0 <= i < |os| ==> os[i].id != id
    ensures r.Some? ==> exists i :: 0 <= i < |os| && os[i] == r.value && r.value.id == id &&
                                    forall j :: 0 <= j < i ==> os[j].id != id
  {
    Find(os, (o: Organization) => o.id == id)
  }

  /** The etag an update or delete of `id` would send: present only when the first organization
      with that id carries a non-empty etag. */
  function EtagFor(os: seq<Organization>, id: string): (r: Option<string>)
    ensures r.Some? ==> r.value != ""
    ensures r.Some? <==> FindById(os, id).Some? && Truthy(FindById(os, id).value.etag)
    ensures r.Some? ==> FindById(os, id).value.etag == r
  {
    match FindById(os, id)
    case None => None
    case Some(o) => if Truthy(o.etag) then o.etag else None
  }

  /** `prev.map(o => o.id === id ? updated : o)` */
  function ReplaceById(os: seq<Organization>, id: string, updated: Organization): (r: seq<Organization>)
    ensures |r| == |os|
    ensures forall i :: 0 <= i < |os| ==> r[i] == if os[i].id == id then updated else os[i]
  {
    Map(os, (o: Organization) => if o.id == id then updated else o)
  }

  /** `prev.filter(o => o.id !== id)` */
  function WithoutOrganization(os: seq<Organization>, id: string): (r: seq<Organization>)
    ensures forall o :: o in r <==> o in os && o.id != id
  {
    Filter(os, OtherThan(id))
  }

  /** The keep-condition of an organization delete. */
  function OtherThan(id: string): Organization -> bool {
    (o: Organization) => o.id != id
  }

  /** `prev.filter(c => c.organizationId !== id)`: the cascade of an organization delete. */
  function WithoutContactsOf(cs: seq<Contact>, orgId: string): (r: seq<Contact>)
    ensures forall c :: c in r <==> c in cs && c.organizationId != orgId
  {
    Filter(cs, OutsideOrganization(orgId))
  }

  /** The keep-condition of the cascade. */
  function OutsideOrganization(orgId: string): Contact -> bool {
    (c: Contact) => c.organizationId != orgId
  }

  /** `contacts.filter(c => c.id !== id)` */
  function WithoutContact(cs: seq<Contact>, id: string): (r: seq<Contact>)
    ensures forall c :: c in r <==> c in cs && c.id != id
  {
    Filter(cs, ContactOtherThan(id))
  }

  /** The keep-condition of a contact delete. */
  function ContactOtherThan(id: string): Contact -> bool {
    (c: Contact) => c.id != id
  }

  /** `prev.filter(f => f.id !== id)` */
  function WithoutCustomField(fs: seq<CustomField>, id: string): (r: seq<CustomField>)
    ensures forall f :: f in r <==> f in fs && f.id != id
  {
    Filter(fs, FieldOtherThan(id))
  }

  /** The keep-condition of a custom-field delete. */
  function FieldOtherThan(id: string): CustomField -> bool {
    (f: CustomField) => f.id != id
  }

  function NewContact(d: ContactDraft, id: string, now: string): (c: Contact)
    ensures c.id == id && c.createdAt == now && c.updatedAt == now
    ensures c.organizationId == d.organizationId && c.name == d.name && c.rolePosition == d.rolePosition
    ensures c.email == d.email && c.preferredLanguage == d.preferredLanguage && c.notes == d.notes
    ensures c.customFields == d.customFields
  {
    Contact(id, d.organizationId, d.name, d.rolePosition, d.email, d.preferredLanguage, d.notes,
            d.customFields, now, now)
  }

  function Overlay<T>(field: Option<T>, current: T): T {
    if field.Some? then field.value else current
  }

  /** `{ ...c, ...patch, updatedAt: now }` */
  function MergeContact(c: Contact, p: ContactPatch, now: string): (r: Contact)
    ensures r.updatedAt == now
  {
    Contact(
      Overlay(p.id, c.id),
      Overlay(p.organizationId, c.organizationId),
      Overlay(p.name, c.name),
      Overlay(p.rolePosition, c.rolePosition),
      Overlay(p.email, c.email),
      Overlay(p.preferredLanguage, c.preferredLanguage),
      Overlay(p.notes, c.notes),
      if p.customFields.Some? then p.customFields else c.customFields,
      Overlay(p.createdAt, c.createdAt),
      now)
  }

  /** `contacts.map(c => c.id === id ? { ...c, ...patch, updatedAt: now } : c)` */
  function PatchContacts(cs: seq<Contact>, id: string, p: ContactPatch, now: string): (r: seq<Contact>)
    ensures |r| == |cs|
    ensures forall i :: 0 <= i < |cs| ==> r[i] == if cs[i].id == id then MergeContact(cs[i], p, now) else cs[i]
  {
    Map(cs, (c: Contact) => if c.id == id then MergeContact(c, p, now) else c)
  }

  // ---------------------------------------------------------------------------------------------
  // Properties of those operations.

  /** A patch field wins when present; an absent one keeps the contact's value; the patch's own
      `updatedAt` never does. */
  lemma MergeContactFields(c: Contact, p: ContactPatch, now: string)
    ensures var r := MergeContact(c, p, now);
      && r.id == (if p.id.Some? then p.id.value else c.id)
      && r.organizationId == (if p.organizationId.Some? then p.organizationId.value else c.organizationId)
      && r.name == (if p.name.Some? then p.name.value else c.name)
      && r.rolePosition == (if p.rolePosition.Some? then p.rolePosition.value else c.rolePosition)
      && r.email == (if p.email.Some? then p.email.value else c.email)
      && r.preferredLanguage == (if p.preferredLanguage.Some? then p.preferredLanguage.value else c.preferredLanguage)
      && r.notes == (if p.notes.Some? then p.notes.value else c.notes)
      && r.customFields == (if p.customFields.Some? then p.customFields else c.customFields)
      && r.createdAt == (if p.createdAt.Some? then p.createdAt.value else c.createdAt)
      && r.updatedAt == now
  {
  }

  /** Applying the same patch twice at the same time is the same as applying it once. */
  lemma MergeContactIdempotent(c: Contact, p: ContactPatch, now: string)
    ensures MergeContact(MergeContact(c, p, now), p, now) == MergeContact(c, p, now)
  {
  }

  /** An empty patch only touches `updatedAt`. */
  lemma MergeEmptyPatch(c: Contact, now: string)
    ensures MergeContact(c, ContactPatch(None, None, None, None, None, None, None, None, None, None), now)
            == c.(updatedAt := now)
  {
  }

  /** After a successful update the list holds the server's record under `id`, so a following
      update or delete of `id` sends the etag the server returned. */
  lemma {:induction false} UpdateCarriesEtagForward(os: seq<Organization>, id: string, updated: Organization)
    requires FindById(os, id).Some?
    requires updated.id == id
    ensures FindById(ReplaceById(os, id, updated), id) == Some(updated)
    ensures EtagFor(ReplaceById(os, id, updated), id) == (if Truthy(updated.etag) then updated.etag else None)
  {
    var r := ReplaceById(os, id, updated);
    var i :| 0 <= i < |os| && os[i] == FindById(os, id).value && os[i].id == id &&
             forall j :: 0 <= j < i ==> os[j].id != id;
    assert r[i] == updated;
    assert forall j :: 0 <= j < i ==> r[j].id != id;
    var k :| 0 <= k < |r| && r[k] == FindById(r, id).value && r[k].id == id &&
             forall j :: 0 <= j < k ==> r[j].id != id;
    assert k == i;
  }

  /** An update whose id no organization has leaves the list as it was. */
  lemma {:induction false} ReplaceAbsentId(os: seq<Organization>, id: string, updated: Organization)
    requires FindById(os, id).None?
    ensures ReplaceById(os, id, updated) == os
  {
  }

  /** Once deleted, an organization can be neither updated nor deleted again: the store refuses
      for want of an etag, without a request. */
  lemma DeletedHasNoEtag(os: seq<Organization>, id: string)
    ensures FindById(WithoutOrganization(os, id), id).None?
    ensures EtagFor(WithoutOrganization(os, id), id).None?
  {
    var r := WithoutOrganization(os, id);
    forall i | 0 <= i < |r| ensures r[i].id != id {
      assert r[i] in r;
    }
  }

  /** The delete keeps every other organization with its multiplicity, in order. */
  lemma WithoutOrganizationKeepsOthers(os: seq<Organization>, more: seq<Organization>, id: string, o: Organization)
    ensures multiset(WithoutOrganization(os, id))[o] == if o.id != id then multiset(os)[o] else 0
    ensures WithoutOrganization(os + more, id) == WithoutOrganization(os, id) + WithoutOrganization(more, id)
  {
    FilterMultiset(os, OtherThan(id), o);
    FilterConcat(os, more, OtherThan(id));
  }

  /** The cascade keeps every contact of another organization with its multiplicity, in order. */
  lemma WithoutContactsOfKeepsOthers(cs: seq<Contact>, more: seq<Contact>, orgId: string, c: Contact)
    ensures multiset(WithoutContactsOf(cs, orgId))[c] == if c.organizationId != orgId then multiset(cs)[c] else 0
    ensures WithoutContactsOf(cs + more, orgId) == WithoutContactsOf(cs, orgId) + WithoutContactsOf(more, orgId)
  {
    FilterMultiset(cs, OutsideOrganization(orgId), c);
    FilterConcat(cs, more, OutsideOrganization(orgId));
  }

  /** A contact delete keeps every other contact with its multiplicity, in order. */
  lemma WithoutContactKeepsOthers(cs: seq<Contact>, more: seq<Contact>, id: string, c: Contact)
    ensures multiset(WithoutContact(cs, id))[c] == if c.id != id then multiset(cs)[c] else 0
    ensures WithoutContact(cs + more, id) == WithoutContact(cs, id) + WithoutContact(more, id)
  {
    FilterMultiset(cs, ContactOtherThan(id), c);
    FilterConcat(cs, more, ContactOtherThan(id));
  }

  /** A custom-field delete keeps every other field with its multiplicity, in order. */
  lemma WithoutCustomFieldKeepsOthers(fs: seq<CustomField>, more: seq<CustomField>, id: string, f: CustomField)
    ensures multiset(WithoutCustomField(fs, id))[f] == if f.id != id then multiset(fs)[f] else 0
    ensures WithoutCustomField(fs + more, id) == WithoutCustomField(fs, id) + WithoutCustomField(more, id)
  {
    FilterMultiset(fs, FieldOtherThan(id), f);
    FilterConcat(fs, more, FieldOtherThan(id));
  }

  /** Appending a created record whose id is new makes it the record found under that id. */
  lemma {:induction false} AppendedIsFound(os: seq<Organization>, created: Organization)
    requires FindById(os, created.id).None?
    ensures FindById(os + [created], created.id) == Some(created)
  {
    var r := os + [created];
    assert r[|os|] == created;
    assert FindById(r, created.id).Some?;
    var k :| 0 <= k < |r| && r[k] == FindById(r, created.id).value && r[k].id == created.id &&
             forall j :: 0 <= j < k ==> r[j].id != created.id;
    assert k == |os|;
  }

  // ---------------------------------------------------------------------------------------------

  class DataStore {
    var organizations: seq<Organization>
    var contacts: seq<Contact>
    var customFields: seq<CustomField>
    const storage: Storage
    /** Every request this store has sent to the server, oldest first. */
    ghost var sent: seq<Request>

    /** The provider's initial state, before the list request of its mount effect. */
    constructor(storage: Storage)
      ensures organizations == [] && contacts == [] && customFields == []
      ensures this.storage == storage && sent == []
    {
      organizations, contacts, customFields := [], [], [];
      this.storage := storage;
      sent := [];
    }

    /** What the response interceptor leaves in storage once a request has failed with `failure`
        (or not at all, for `None`): the token and the stored user are removed exactly on a
        401 or 403, and the other keys are kept. */
    twostate predicate StorageAfter(failure: Option<HttpError>)
      reads storage
    {
      var refused := failure.Some? && IsAuthFailure(failure.value.status);
      && storage.users == old(storage.users) && storage.contacts == old(storage.contacts)
      && (refused ==> storage.accessToken == None && storage.currentUser == None)
      && (!refused ==>
            storage.accessToken == old(storage.accessToken) && storage.currentUser == old(storage.currentUser))
    }

    /** The mount effect: load the organizations; a failed load leaves the list empty. */
    method LoadOrganizations(answer: Result<seq<Organization>, HttpError>)
      modifies this, storage
      ensures sent == old(sent) + [ListRequest]
      ensures answer.Success? ==> organizations == answer.value
      ensures answer.Failure? ==> organizations == []
      ensures contacts == old(contacts) && customFields == old(customFields)
      ensures StorageAfter(ErrorOf(answer))
    {
      sent := sent + [ListRequest];
      match answer
      case Success(items) => organizations := items;
      case Failure(e) =>
        var _, _ := OnResponseError(e, storage);
        organizations := [];
    }

    /** `addOrganization`: the server assigns id, timestamps and etag; its record is appended. */
    method AddOrganization(draft: OrganizationDraft, answer: Result<Organization, HttpError>)
      returns (outcome: Result<(), StoreError>)
      modifies this, storage
      ensures sent == old(sent) + [CreateRequest(draft)]
      ensures answer.Success? ==> outcome.Success? && organizations == old(organizations) + [answer.value]
      ensures answer.Failure? ==> outcome == Failure(Rejected(answer.error)) && organizations == old(organizations)
      ensures contacts == old(contacts) && customFields == old(customFields)
      ensures StorageAfter(ErrorOf(answer))
    {
      sent := sent + [CreateRequest(draft)];
      match answer
      case Success(created) =>
        organizations := organizations + [created];
        outcome := Success(());
      case Failure(e) =>
        var rejection, _ := OnResponseError(e, storage);
        outcome := Failure(Rejected(rejection));
    }

    /** `updateOrganization`: refused without a request unless the stored record has an etag,
        which is then sent as `If-Match`; the server's record replaces every entry with that id. */
    method UpdateOrganization(id: string, patch: OrganizationPatch, answer: Result<Organization, HttpError>)
      returns (outcome: Result<(), StoreError>)
      modifies this, storage
      ensures var etag := EtagFor(old(organizations), id);
        && (etag.None? ==> outcome == Failure(MissingEtag) && sent == old(sent) && organizations == old(organizations))
        && (etag.Some? ==> sent == old(sent) + [PatchRequest(id, patch, etag.value)])
        && (etag.Some? && answer.Success? ==>
              outcome.Success? && organizations == ReplaceById(old(organizations), id, answer.value))
        && (etag.Some? && answer.Failure? ==>
              outcome == Failure(Rejected(answer.error)) && organizations == old(organizations))
        && StorageAfter(if etag.Some? then ErrorOf(answer) else None)
      ensures contacts == old(contacts) && customFields == old(customFields)
    {
      var etag := EtagFor(organizations, id);
      if etag.None? {
        return Failure(MissingEtag);
      }
      sent := sent + [PatchRequest(id, patch, etag.value)];
      match answer
      case Success(updated) =>
        organizations := ReplaceById(organizations, id, updated);
        outcome := Success(());
      case Failure(e) =>
        var rejection, _ := OnResponseError(e, storage);
        outcome := Failure(Rejected(rejection));
    }

    /** `deleteOrganization`: the same etag rule; on success the organization and, by cascade,
        its contacts are removed. */
    method DeleteOrganization(id: string, answer: Result<(), HttpError>)
      returns (outcome: Result<(), StoreError>)
      modifies this, storage
      ensures var etag := EtagFor(old(organizations), id);
        && (etag.None? ==> outcome == Failure(MissingEtag) && sent == old(sent))
        && (etag.Some? ==> sent == old(sent) + [DeleteRequest(id, etag.value)])
        && (etag.Some? && answer.Success? ==>
              && outcome.Success?
              && organizations == WithoutOrganization(old(organizations), id)
              && contacts == WithoutContactsOf(old(contacts), id))
        && (etag.None? || answer.Failure? ==>
              organizations == old(organizations) && contacts == old(contacts))
        && (etag.Some? && answer.Failure? ==> outcome == Failure(Rejected(answer.error)))
        && StorageAfter(if etag.Some? then ErrorOf(answer) else None)
      ensures customFields == old(customFields)
    {
      var etag := EtagFor(organizations, id);
      if etag.None? {
        return Failure(MissingEtag);
      }
      sent := sent + [DeleteRequest(id, etag.value)];
      match answer
      case Success(_) =>
        organizations := WithoutOrganization(organizations, id);
        contacts := WithoutContactsOf(contacts, id);
        outcome := Success(());
      case Failure(e) =>
        var rejection, _ := OnResponseError(e, storage);
        outcome := Failure(Rejected(rejection));
    }

    /** `addContact`: a fresh id, both timestamps now, the list appended and persisted. */
    method AddContact(draft: ContactDraft, freshId: string, now: string)
      modifies this, storage
      ensures contacts == old(contacts) + [NewContact(draft, freshId, now)]
      ensures storage.contacts == Some(contacts)
      ensures organizations == old(organizations) && customFields == old(customFields) && sent == old(sent)
      ensures storage.users == old(storage.users) && storage.currentUser == old(storage.currentUser)
      ensures storage.accessToken == old(storage.accessToken)
    {
      contacts := contacts + [NewContact(draft, freshId, now)];
      storage.contacts := Some(contacts);
    }

    /** `updateContact`: the patch is merged into every contact with that id; persisted. */
    method UpdateContact(id: string, patch: ContactPatch, now: string)
      modifies this, storage
      ensures contacts == PatchContacts(old(contacts), id, patch, now)
      ensures storage.contacts == Some(contacts)
      ensures organizations == old(organizations) && customFields == old(customFields) && sent == old(sent)
      ensures storage.users == old(storage.users) && storage.currentUser == old(storage.currentUser)
      ensures storage.accessToken == old(storage.accessToken)
    {
      contacts := PatchContacts(contacts, id, patch, now);
      storage.contacts := Some(contacts);
    }

    /** `deleteContact`: every contact with that id is removed; persisted. */
    method DeleteContact(id: string)
      modifies this, storage
      ensures contacts == WithoutContact(old(contacts), id)
      ensures storage.contacts == Some(contacts)
      ensures organizations == old(organizations) && customFields == old(customFields) && sent == old(sent)
      ensures storage.users == old(storage.users) && storage.currentUser == old(storage.currentUser)
      ensures storage.accessToken == old(storage.accessToken)
    {
      contacts := WithoutContact(contacts, id);
      storage.contacts := Some(contacts);
    }

    method AddCustomField(draft: CustomFieldDraft, freshId: string)
      modifies this
      ensures customFields == old(customFields) +
                [CustomField(freshId, draft.name, draft.fieldType, draft.options, draft.entityType)]
      ensures organizations == old(organizations) && contacts == old(contacts) && sent == old(sent)
    {
      customFields := customFields + [CustomField(freshId, draft.name, draft.fieldType, draft.options, draft.entityType)];
    }

    method DeleteCustomField(id: string)
      modifies this
      ensures customFields == WithoutCustomField(old(customFields), id)
      ensures organizations == old(organizations) && contacts == old(contacts) && sent == old(sent)
    {
      customFields := WithoutCustomField(customFields, id);
    }

    /** `importData`: both lists replaced wholesale; no request, no etag check, nothing persisted. */
    method ImportData(orgs: seq<Organization>, conts: seq<Contact>)
      modifies this
      ensures organizations == orgs && contacts == conts
      ensures customFields == old(customFields) && sent == old(sent)
    {
      organizations := orgs;
      contacts := conts;
    }
  }
}

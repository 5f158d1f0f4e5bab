/** The record shapes of the application. Fields that the declared types restrict to a closed set
    of string literals are kept as strings, because the import path stores whatever the spreadsheet
    held; the closed sets are enumerations below, and `WellTyped*` says when a record respects them. */
module Types {
  import opened Wrappers

  /** Values of `Record<string, any>` extension fields are kept as text. */
  type CustomValues = map<string, string>

  datatype Category =
    | AdditiveManufacturing
    | MobilityFleetManagement
    | ProductOriginAuthentication
    | WarehousingIntralogisticsRobotics
    | PackagingBinsContainers
  {
    function Value(): string {
      match this
      case AdditiveManufacturing => "additive-manufacturing"
      case MobilityFleetManagement => "mobility-fleet-management"
      case ProductOriginAuthentication => "product-origin-authentication"
      case WarehousingIntralogisticsRobotics => "warehousing-intralogistics-robotics"
      case PackagingBinsContainers => "packaging-bins-containers"
    }
  }

  function ParseCategory(s: string): (r: Option<Category>)
    ensures r.Some? ==> r.value.Value() == s
    ensures r.None? ==> forall c: Category :: c.Value() != s
  {
    if s == "additive-manufacturing" then Some(AdditiveManufacturing)
    else if s == "mobility-fleet-management" then Some(MobilityFleetManagement)
    else if s == "product-origin-authentication" then Some(ProductOriginAuthentication)
    else if s == "warehousing-intralogistics-robotics" then Some(WarehousingIntralogisticsRobotics)
    else if s == "packaging-bins-containers" then Some(PackagingBinsContainers)
    else None
  }

  datatype OrgStatus = Active | Inactive | Closed {
    function Value(): string {
      match this
      case Active => "active"
      case Inactive => "inactive"
      case Closed => "closed"
    }
  }

  function ParseOrgStatus(s: string): (r: Option<OrgStatus>)
    ensures r.Some? ==> r.value.Value() == s
    ensures r.None? ==> forall t: OrgStatus :: t.Value() != s
  {
    if s == "active" then Some(Active)
    else if s == "inactive" then Some(Inactive)
    else if s == "closed" then Some(Closed)
    else None
  }

  datatype WebsiteStatus = Working | NotWorking {
    function Value(): string {
      match this
      case Working => "working"
      case NotWorking => "not-working"
    }
  }

  function ParseWebsiteStatus(s: string): (r: Option<WebsiteStatus>)
    ensures r.Some? ==> r.value.Value() == s
    ensures r.None? ==> forall w: WebsiteStatus :: w.Value() != s
  {
    if s == "working" then Some(Working)
    else if s == "not-working" then Some(NotWorking)
    else None
  }

  datatype Language = DE | EN | FR {
    function Value(): string {
      match this
      case DE => "DE"
      case EN => "EN"
      case FR => "FR"
    }
  }

  function ParseLanguage(s: string): (r: Option<Language>)
    ensures r.Some? ==> r.value.Value() == s
    ensures r.None? ==> forall l: Language :: l.Value() != s
  {
    if s == "DE" then Some(DE)
    else if s == "EN" then Some(EN)
    else if s == "FR" then Some(FR)
    else None
  }

  datatype FieldType = Text | Number | Date | Select {
    function Value(): string {
      match this
      case Text => "text"
      case Number => "number"
      case Date => "date"
      case Select => "select"
    }
  }

  function ParseFieldType(s: string): (r: Option<FieldType>)
    ensures r.Some? ==> r.value.Value() == s
    ensures r.None? ==> forall t: FieldType :: t.Value() != s
  {
    if s == "text" then Some(Text)
    else if s == "number" then Some(Number)
    else if s == "date" then Some(Date)
    else if s == "select" then Some(Select)
    else None
  }

  datatype EntityType = OrganizationEntity | ContactEntity {
    function Value(): string {
      match this
      case OrganizationEntity => "organization"
      case ContactEntity => "contact"
    }
  }

  function ParseEntityType(s: string): (r: Option<EntityType>)
    ensures r.Some? ==> r.value.Value() == s
    ensures r.None? ==> forall t: EntityType :: t.Value() != s
  {
    if s == "organization" then Some(OrganizationEntity)
    else if s == "contact" then Some(ContactEntity)
    else None
  }

  /** Every enumeration value is recovered from its string. */
  lemma CategoryRoundTrip(c: Category)
    ensures ParseCategory(c.Value()) == Some(c)
  {
  }

  lemma OrgStatusRoundTrip(t: OrgStatus)
    ensures ParseOrgStatus(t.Value()) == Some(t)
  {
  }

  lemma WebsiteStatusRoundTrip(w: WebsiteStatus)
    ensures ParseWebsiteStatus(w.Value()) == Some(w)
  {
  }

  lemma LanguageRoundTrip(l: Language)
    ensures ParseLanguage(l.Value()) == Some(l)
  {
  }

  lemma FieldTypeRoundTrip(t: FieldType)
    ensures ParseFieldType(t.Value()) == Some(t)
  {
  }

  lemma EntityTypeRoundTrip(t: EntityType)
    ensures ParseEntityType(t.Value()) == Some(t)
  {
  }

  /** `Organization`: `?` fields are `Option`s; `etag` is the server's version marker. */
  datatype Organization = Organization(
    id: string,
    name: string,
    website: string,
    websiteStatus: Option<string>,
    linkedinUrl: Option<string>,
    countryRegion: string,
    email: string,
    category: string,
    status: string,
    notes: Option<string>,
    customFields: Option<CustomValues>,
    createdAt: string,
    updatedAt: string,
    etag: Option<string>)

  datatype Contact = Contact(
    id: string,
    organizationId: string,
    name: string,
    rolePosition: string,
    email: string,
    preferredLanguage: string,
    notes: string,
    customFields: Option<CustomValues>,
    createdAt: string,
    updatedAt: string)

  /** The declared `User` interface, with a list of roles. The registry code never builds one:
      it stores `StoredUser` records with a single `role` (see below). */
  datatype User = User(
    id: string,
    email: string,
    name: string,
    hasAccess: bool,
    roles: seq<string>,
    createdAt: Option<string>,
    updatedAt: Option<string>)

  datatype CustomField = CustomField(
    id: string,
    name: string,
    fieldType: string,
    options: Option<seq<string>>,
    entityType: string)

  /** The user record the mock registry keeps under the `users` key: a single `role`, a password. */
  datatype StoredUser = StoredUser(
    id: string,
    email: string,
    password: string,
    name: string,
    role: string,
    hasAccess: bool,
    createdAt: string)

  /** A stored user without its password: the session's current user and the admin table's row. */
  datatype PublicUser = PublicUser(
    id: string,
    email: string,
    name: string,
    role: string,
    hasAccess: bool,
    createdAt: string)

  /** `c => c.email` */
  function EmailOf(c: Contact): string {
    c.email
  }

  function WithoutPassword(u: StoredUser): (p: PublicUser)
    ensures p.id == u.id && p.email == u.email && p.name == u.name
    ensures p.role == u.role && p.hasAccess == u.hasAccess && p.createdAt == u.createdAt
  {
    PublicUser(u.id, u.email, u.name, u.role, u.hasAccess, u.createdAt)
  }

  predicate WellTypedOrganization(o: Organization) {
    && ParseCategory(o.category).Some?
    && ParseOrgStatus(o.status).Some?
    && (o.websiteStatus.Some? ==> ParseWebsiteStatus(o.websiteStatus.value).Some?)
  }

  predicate WellTypedContact(c: Contact) {
    ParseLanguage(c.preferredLanguage).Some?
  }

  predicate WellTypedCustomField(f: CustomField) {
    ParseFieldType(f.fieldType).Some? && ParseEntityType(f.entityType).Some?
  }

  /** A well-typed organization has a non-empty category and status, so the import defaults
      never replace them. */
  lemma WellTypedOrganizationFieldsNonEmpty(o: Organization)
    requires WellTypedOrganization(o)
    ensures o.category != "" && o.status != ""
  {
    var c := ParseCategory(o.category).value;
    var t := ParseOrgStatus(o.status).value;
    assert o.category == c.Value();
    assert o.status == t.Value();
  }

  lemma WellTypedContactLanguageNonEmpty(c: Contact)
    requires WellTypedContact(c)
    ensures c.preferredLanguage != ""
  {
    assert c.preferredLanguage == ParseLanguage(c.preferredLanguage).value.Value();
  }
}

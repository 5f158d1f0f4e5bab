/** The spreadsheet page: records to rows on export, rows to records (with defaults) on import,
    the replace-all import, and the imported-email text box. The spreadsheet codec itself is not
    modelled: a sheet is the sequence of rows it decodes to, a row maps column headers to cell text,
    and a column missing from a row is an absent (`undefined`) cell. Rows are keyed by `Column`,
    whose headers are distinct; headers outside it are never read and are not represented. */
module ImportExport {
  import opened Wrappers
  import opened Seqs
  import opened Types
  import opened DataContext
  import opened EmailList

  /** The columns the page writes and reads. */
  datatype Column =
    | ColId | ColName | ColWebsite | ColWebsiteStatus | ColLinkedIn | ColCountryRegion | ColEmail
    | ColCategory | ColStatus | ColNotes | ColCreatedAt | ColUpdatedAt
    | ColOrganizationName | ColOrganizationId | ColRolePosition | ColPreferredLanguage
  {
    /** The header text in the sheet's first row. */
    function Header(): string {
      match this
      case ColId => "ID"
      case ColName => "Name"
      case ColWebsite => "Website"
      case ColWebsiteStatus => "Website Status"
      case ColLinkedIn => "LinkedIn URL"
      case ColCountryRegion => "Country/Region"
      case ColEmail => "Email"
      case ColCategory => "Category"
      case ColStatus => "Status"
      case ColNotes => "Notes"
      case ColCreatedAt => "Created At"
      case ColUpdatedAt => "Updated At"
      case ColOrganizationName => "Organization Name"
      case ColOrganizationId => "Organization ID"
      case ColRolePosition => "Role/Position"
      case ColPreferredLanguage => "Preferred Language"
    }
  }

  /** Distinct columns have distinct headers, so keying a row by `Column` loses nothing. */
  lemma HeadersDistinct(a: Column, b: Column)
    requires a.Header() == b.Header()
    ensures a == b
  {
  }

  type Row = map<Column, string>

  const DefaultCategory := "additive-manufacturing"
  const DefaultStatus := "active"
  const DefaultLanguage := "EN"

  const OrganizationColumns: set<Column> := {
    ColId, ColName, ColWebsite, ColWebsiteStatus, ColLinkedIn, ColCountryRegion, ColEmail,
    ColCategory, ColStatus, ColNotes, ColCreatedAt, ColUpdatedAt }

  const ContactColumns: set<Column> := {
    ColId, ColOrganizationName, ColOrganizationId, ColName, ColRolePosition, ColEmail,
    ColPreferredLanguage, ColNotes, ColCreatedAt, ColUpdatedAt }

  /** The cell is present and not the empty string: `row[key]` is truthy. */
  predicate Filled(row: Row, key: Column) {
    key in row && row[key] != ""
  }

  /** `row[key] || fallback` */
  function CellOr(row: Row, key: Column, fallback: string): (v: string)
    ensures Filled(row, key) ==> v == row[key]
    ensures !Filled(row, key) ==> v == fallback
  {
    if Filled(row, key) then row[key] else fallback
  }

  /** `row[key]`, absent when the column is missing. */
  function Cell(row: Row, key: Column): (v: Option<string>)
    ensures v.Some? <==> key in row
    ensures v.Some? ==> v.value == row[key]
  {
    if key in row then Some(row[key]) else None
  }

  // ---------------------------------------------------------------------------------------------
  // Export (`handleExport`)

  /** The cell an organization's row has in a column of the organizations sheet. */
  function OrganizationCell(o: Organization, col: Column): string {
    match col
    case ColId => o.id
    case ColName => o.name
    case ColWebsite => o.website
    case ColWebsiteStatus => OrElse(o.websiteStatus, "")
    case ColLinkedIn => OrElse(o.linkedinUrl, "")
    case ColCountryRegion => o.countryRegion
    case ColEmail => o.email
    case ColCategory => o.category
    case ColStatus => o.status
    case ColNotes => OrElse(o.notes, "")
    case ColCreatedAt => o.createdAt
    case ColUpdatedAt => o.updatedAt
    case _ => ""
  }

  /** One row of the organizations sheet: exactly its twelve columns, absent text written blank. */
  function EncodeOrganization(o: Organization): (r: Row)
    ensures r.Keys == OrganizationColumns
    ensures r[ColId] == o.id && r[ColName] == o.name && r[ColCategory] == o.category && r[ColStatus] == o.status
    ensures r[ColWebsiteStatus] == OrElse(o.websiteStatus, "")
    ensures r[ColLinkedIn] == OrElse(o.linkedinUrl, "") && r[ColNotes] == OrElse(o.notes, "")
  {
    map col | col in OrganizationColumns :: OrganizationCell(o, col)
  }

  /** `organizations.find(o => o.id === contact.organizationId)?.name || ''` */
  function OrganizationName(os: seq<Organization>, orgId: string): (name: string)
    ensures (forall i :: 0 <= i < |os| ==> os[i].id != orgId) ==> name == ""
    ensures forall i :: 0 <= i < |os| && os[i].id == orgId && (forall j :: 0 <= j < i ==> os[j].id != orgId) ==>
              name == os[i].name
  {
    match FindById(os, orgId)
    case None => ""
    case Some(o) => OrElse(Some(o.name), "")
  }

  /** The cell a contact's row has in a column of the contacts sheet, given its organization's name. */
  function ContactCell(c: Contact, orgName: string, col: Column): string {
    match col
    case ColId => c.id
    case ColOrganizationName => orgName
    case ColOrganizationId => c.organizationId
    case ColName => c.name
    case ColRolePosition => c.rolePosition
    case ColEmail => c.email
    case ColPreferredLanguage => c.preferredLanguage
    case ColNotes => c.notes
    case ColCreatedAt => c.createdAt
    case ColUpdatedAt => c.updatedAt
    case _ => ""
  }

  function ContactRow(c: Contact, orgName: string): (r: Row)
    ensures r.Keys == ContactColumns
  {
    map col | col in ContactColumns :: ContactCell(c, orgName, col)
  }

  /** One row of the contacts sheet: exactly its ten columns, the organization's name looked up. */
  function EncodeContact(c: Contact, os: seq<Organization>): (r: Row)
    ensures r.Keys == ContactColumns
    ensures r[ColOrganizationName] == OrganizationName(os, c.organizationId)
    ensures r[ColId] == c.id && r[ColOrganizationId] == c.organizationId && r[ColEmail] == c.email
  {
    var orgName := OrganizationName(os, c.organizationId);
    ContactRowCells(c, orgName);
    ContactRow(c, orgName)
  }

  function ExportOrganizations(os: seq<Organization>): (rows: seq<Row>)
    ensures |rows| == |os|
    ensures forall i :: 0 <= i < |os| ==> rows[i] == EncodeOrganization(os[i])
  {
    Map(os, EncodeOrganization)
  }

  function ExportContacts(cs: seq<Contact>, os: seq<Organization>): (rows: seq<Row>)
    ensures |rows| == |cs|
    ensures forall i :: 0 <= i < |cs| ==> rows[i] == EncodeContact(cs[i], os)
  {
    Map(cs, (c: Contact) => EncodeContact(c, os))
  }

  // ---------------------------------------------------------------------------------------------
  // Import (`handleImport`): `freshId` stands for `Date.now().toString() + Math.random()` and
  // `now` for `new Date().toISOString()`.

  /** Each field is its cell when the cell is filled and the field's default otherwise; the
      website status is the raw cell, unchecked and without a default. */
  function DecodeOrganization(row: Row, now: string, freshId: string): (o: Organization)
    ensures o.id == CellOr(row, ColId, freshId)
    ensures o.name == CellOr(row, ColName, "") && o.website == CellOr(row, ColWebsite, "")
    ensures o.countryRegion == CellOr(row, ColCountryRegion, "") && o.email == CellOr(row, ColEmail, "")
    ensures o.category == CellOr(row, ColCategory, DefaultCategory)
    ensures o.status == CellOr(row, ColStatus, DefaultStatus)
    ensures o.linkedinUrl == Some(CellOr(row, ColLinkedIn, "")) && o.notes == Some(CellOr(row, ColNotes, ""))
    ensures o.createdAt == CellOr(row, ColCreatedAt, now) && o.updatedAt == CellOr(row, ColUpdatedAt, now)
    ensures o.etag.None? && o.customFields.None?
    ensures o.websiteStatus == Cell(row, ColWebsiteStatus)
    ensures freshId != "" && now != "" ==>
              o.id != "" && o.category != "" && o.status != "" && o.createdAt != "" && o.updatedAt != ""
  {
    Organization(
      CellOr(row, ColId, freshId),
      CellOr(row, ColName, ""),
      CellOr(row, ColWebsite, ""),
      Cell(row, ColWebsiteStatus),
      Some(CellOr(row, ColLinkedIn, "")),
      CellOr(row, ColCountryRegion, ""),
      CellOr(row, ColEmail, ""),
      CellOr(row, ColCategory, DefaultCategory),
      CellOr(row, ColStatus, DefaultStatus),
      Some(CellOr(row, ColNotes, "")),
      None,
      CellOr(row, ColCreatedAt, now),
      CellOr(row, ColUpdatedAt, now),
      None)
  }

  /** Each field is its cell when the cell is filled and the field's default otherwise. */
  function DecodeContact(row: Row, now: string, freshId: string): (c: Contact)
    ensures c.id == CellOr(row, ColId, freshId)
    ensures c.organizationId == CellOr(row, ColOrganizationId, "") && c.name == CellOr(row, ColName, "")
    ensures c.rolePosition == CellOr(row, ColRolePosition, "") && c.email == CellOr(row, ColEmail, "")
    ensures c.preferredLanguage == CellOr(row, ColPreferredLanguage, DefaultLanguage)
    ensures c.notes == CellOr(row, ColNotes, "")
    ensures c.createdAt == CellOr(row, ColCreatedAt, now) && c.updatedAt == CellOr(row, ColUpdatedAt, now)
    ensures c.customFields.None?
    ensures freshId != "" && now != "" ==>
              c.id != "" && c.preferredLanguage != "" && c.createdAt != "" && c.updatedAt != ""
  {
    Contact(
      CellOr(row, ColId, freshId),
      CellOr(row, ColOrganizationId, ""),
      CellOr(row, ColName, ""),
      CellOr(row, ColRolePosition, ""),
      CellOr(row, ColEmail, ""),
      CellOr(row, ColPreferredLanguage, DefaultLanguage),
      CellOr(row, ColNotes, ""),
      None,
      CellOr(row, ColCreatedAt, now),
      CellOr(row, ColUpdatedAt, now))
  }

  /** A workbook as the codec reads it: the rows of each sheet, by sheet name. */
  type Workbook = map<string, seq<Row>>

  const OrganizationsSheet := "Organizations"
  const ContactsSheet := "Contacts"

  /** `sheet_to_json(workbook.Sheets[name])`: the sheet's rows; a sheet the workbook lacks has none. */
  function SheetRows(wb: Workbook, name: string): (rows: seq<Row>)
    ensures name in wb ==> rows == wb[name]
    ensures name !in wb ==> rows == []
  {
    if name in wb then wb[name] else []
  }

  /** A workbook without a contacts sheet still imports: it empties the contact list. */
  lemma MissingContactsSheetClearsContacts(wb: Workbook, now: string, freshIds: nat -> string)
    requires ContactsSheet !in wb
    ensures DecodeContacts(SheetRows(wb, ContactsSheet), now, freshIds) == []
    ensures ExtractEmails(DecodeContacts(SheetRows(wb, ContactsSheet), now, freshIds)) == []
  {
  }

  /** A workbook that holds both sheets an export writes. */
  predicate HasBothSheets(wb: Workbook) {
    OrganizationsSheet in wb && ContactsSheet in wb
  }

  /** One record per row, in row order; row `i` draws `freshIds(i)` when its ID is blank. */
  function DecodeOrganizations(rows: seq<Row>, now: string, freshIds: nat -> string): (os: seq<Organization>)
    ensures |os| == |rows|
    ensures forall i :: 0 <= i < |rows| ==> os[i] == DecodeOrganization(rows[i], now, freshIds(i))
  {
    seq(|rows|, i requires 0 <= i < |rows| => DecodeOrganization(rows[i], now, freshIds(i)))
  }

  function DecodeContacts(rows: seq<Row>, now: string, freshIds: nat -> string): (cs: seq<Contact>)
    ensures |cs| == |rows|
    ensures forall i :: 0 <= i < |rows| ==> cs[i] == DecodeContact(rows[i], now, freshIds(i))
  {
    seq(|rows|, i requires 0 <= i < |rows| => DecodeContact(rows[i], now, freshIds(i)))
  }

  predicate NonEmpty(s: string) {
    s != ""
  }

  /** `importedContacts.map(c => c.email).filter(e => e)` */
  function ExtractEmails(cs: seq<Contact>): (es: seq<string>)
    ensures forall e :: e in es <==> e != "" && exists c :: c in cs && c.email == e
    ensures |es| <= |cs|
  {
    var all := Map(cs, EmailOf);
    MapMembers(cs, EmailOf);
    Filter(all, NonEmpty)
  }

  // ---------------------------------------------------------------------------------------------
  // Properties of the row encoding.

  /** A row with every cell blank decodes to all the defaults. */
  lemma DecodeBlankRow(row: Row, now: string, freshId: string)
    requires forall k :: k in row ==> row[k] == ""
    ensures DecodeOrganization(row, now, freshId) ==
              Organization(freshId, "", "", Cell(row, ColWebsiteStatus), Some(""), "", "", DefaultCategory,
                           DefaultStatus, Some(""), None, now, now, None)
    ensures DecodeContact(row, now, freshId) ==
              Contact(freshId, "", "", "", "", DefaultLanguage, "", None, now, now)
  {
  }

  /** The default category and status are members of their enumerations. */
  lemma DefaultsAreWellTyped()
    ensures ParseCategory(DefaultCategory) == Some(AdditiveManufacturing)
    ensures ParseOrgStatus(DefaultStatus) == Some(Active)
    ensures ParseLanguage(DefaultLanguage) == Some(EN)
  {
  }

  /** Import does not check the enumerations: an unknown category is stored as it is. */
  lemma DecodeKeepsUnknownCategory(now: string, freshId: string)
    ensures var o := DecodeOrganization(map[ColCategory := "robots"], now, freshId);
      o.category == "robots" && !WellTypedOrganization(o)
  {
    var o := DecodeOrganization(map[ColCategory := "robots"], now, freshId);
    assert Filled(map[ColCategory := "robots"], ColCategory);
    assert ParseCategory(o.category).None?;
  }

  /** Imported organizations carry no etag, so the store refuses to update or delete any of
      them until the list is reloaded from the server. */
  lemma ImportedOrganizationsHaveNoEtag(rows: seq<Row>, now: string, freshIds: nat -> string, id: string)
    ensures EtagFor(DecodeOrganizations(rows, now, freshIds), id).None?
  {
    var os := DecodeOrganizations(rows, now, freshIds);
    match FindById(os, id)
    case None =>
    case Some(o) =>
      var i :| 0 <= i < |os| && os[i] == o;
      assert o.etag.None?;
  }

  /** What an organization comes back as after an export and an import: the optional text
      fields present (blank when they were absent), no extension fields, no etag. */
  function Reimported(o: Organization): (r: Organization)
    ensures r.etag.None? && r.customFields.None?
    ensures r.id == o.id && r.name == o.name && r.website == o.website && r.countryRegion == o.countryRegion
    ensures r.email == o.email && r.category == o.category && r.status == o.status
    ensures r.createdAt == o.createdAt && r.updatedAt == o.updatedAt
  {
    o.(websiteStatus := Some(OrElse(o.websiteStatus, "")),
       linkedinUrl := Some(OrElse(o.linkedinUrl, "")),
       notes := Some(OrElse(o.notes, "")),
       customFields := None,
       etag := None)
  }

  /** Exportable without loss: every cell that has a non-blank import default is filled.
      `WellTypedOrganizationFieldsNonEmpty` shows a well-typed record has its category and status. */
  predicate ExportableOrganization(o: Organization) {
    o.id != "" && o.category != "" && o.status != "" && o.createdAt != "" && o.updatedAt != ""
  }

  predicate ExportableContact(c: Contact) {
    c.id != "" && c.preferredLanguage != "" && c.createdAt != "" && c.updatedAt != ""
  }

  /** Export then import gives back the organization field for field (ids and timestamps too),
      up to the normalisation `Reimported` describes. */
  lemma OrganizationRoundTrip(o: Organization, now: string, freshId: string)
    requires ExportableOrganization(o)
    ensures DecodeOrganization(EncodeOrganization(o), now, freshId) == Reimported(o)
  {
    var row := EncodeOrganization(o);
    assert forall col :: col in OrganizationColumns ==> col in row && row[col] == OrganizationCell(o, col);
  }

  /** A contact comes back field for field, without its extension fields, whatever organization
      name its row carries. */
  lemma ContactRoundTrip(c: Contact, orgName: string, now: string, freshId: string)
    requires ExportableContact(c)
    ensures DecodeContact(ContactRow(c, orgName), now, freshId) == c.(customFields := None)
  {
    ContactRowCells(c, orgName);
  }

  lemma ContactRowCells(c: Contact, orgName: string)
    ensures var r := ContactRow(c, orgName);
      && r[ColId] == c.id && r[ColOrganizationName] == orgName && r[ColOrganizationId] == c.organizationId
      && r[ColName] == c.name && r[ColRolePosition] == c.rolePosition && r[ColEmail] == c.email
      && r[ColPreferredLanguage] == c.preferredLanguage && r[ColNotes] == c.notes
      && r[ColCreatedAt] == c.createdAt && r[ColUpdatedAt] == c.updatedAt
  {
  }

  /** Whole sheets: the exported organizations import back in order. */
  lemma OrganizationsSheetRoundTrip(os: seq<Organization>, now: string, freshIds: nat -> string)
    requires forall i :: 0 <= i < |os| ==> ExportableOrganization(os[i])
    ensures DecodeOrganizations(ExportOrganizations(os), now, freshIds) == Map(os, Reimported)
  {
    var r := DecodeOrganizations(ExportOrganizations(os), now, freshIds);
    forall i | 0 <= i < |os| ensures r[i] == Reimported(os[i]) {
      OrganizationRoundTrip(os[i], now, freshIds(i));
    }
  }

  function WithoutCustomFields(c: Contact): Contact {
    c.(customFields := None)
  }

  lemma ContactsSheetRoundTrip(cs: seq<Contact>, os: seq<Organization>, now: string, freshIds: nat -> string)
    requires forall i :: 0 <= i < |cs| ==> ExportableContact(cs[i])
    ensures DecodeContacts(ExportContacts(cs, os), now, freshIds) == Map(cs, WithoutCustomFields)
  {
    var r := DecodeContacts(ExportContacts(cs, os), now, freshIds);
    forall i | 0 <= i < |cs| ensures r[i] == WithoutCustomFields(cs[i]) {
      ContactRoundTrip(cs[i], OrganizationName(os, cs[i].organizationId), now, freshIds(i));
    }
  }

  /** The extracted list keeps contact order: extracting from two lists is extracting from each. */
  lemma ExtractEmailsConcat(a: seq<Contact>, b: seq<Contact>)
    ensures ExtractEmails(a + b) == ExtractEmails(a) + ExtractEmails(b)
  {
    MapConcat(a, b, EmailOf);
    FilterConcat(Map(a, EmailOf), Map(b, EmailOf), NonEmpty);
  }

  // ---------------------------------------------------------------------------------------------

  class ImportExportPage {
    var importedEmails: string
    var emailDelimiter: string
    const data: DataStore

    constructor(data: DataStore)
      ensures importedEmails == "" && emailDelimiter == "comma" && this.data == data
    {
      importedEmails := "";
      emailDelimiter := "comma";
      this.data := data;
    }

    /** `formatAndDisplayEmails`: join with the current delimiter. */
    method FormatAndDisplayEmails(emails: seq<string>)
      modifies this
      ensures importedEmails == Join(emails, Separator(emailDelimiter))
      ensures emailDelimiter == old(emailDelimiter)
    {
      importedEmails := Join(emails, Separator(emailDelimiter));
    }

    /** `handleDelimiterChange`: the delimiter is always updated; a non-empty text is re-split and
        rejoined with it. */
    method HandleDelimiterChange(newDelimiter: string)
      modifies this
      ensures emailDelimiter == newDelimiter
      ensures old(importedEmails) == "" ==> importedEmails == ""
      ensures old(importedEmails) != "" ==> importedEmails == Reformat(old(importedEmails), newDelimiter)
    {
      emailDelimiter := newDelimiter;
      if importedEmails != "" {
        importedEmails := Reformat(importedEmails, newDelimiter);
      }
    }

    /** `handleImport` once the file has been read. `None` stands for no file chosen or a file the
        codec could not read (`XLSX.read` threw); nothing changes then. Otherwise both sheets are
        decoded, a missing sheet giving no rows, the store's lists are replaced and the contacts'
        emails are displayed. */
    method HandleImport(workbook: Option<Workbook>, now: string, orgIds: nat -> string, contactIds: nat -> string)
      returns (imported: bool)
      modifies this, data
      ensures imported <==> workbook.Some?
      ensures !imported ==> importedEmails == old(importedEmails)
      ensures !imported ==> data.organizations == old(data.organizations) && data.contacts == old(data.contacts)
      ensures imported ==>
                data.organizations == DecodeOrganizations(SheetRows(workbook.value, OrganizationsSheet), now, orgIds)
      ensures imported ==>
                data.contacts == DecodeContacts(SheetRows(workbook.value, ContactsSheet), now, contactIds)
      ensures imported ==> importedEmails == Join(ExtractEmails(data.contacts), Separator(emailDelimiter))
      ensures emailDelimiter == old(emailDelimiter)
      ensures data.customFields == old(data.customFields) && data.sent == old(data.sent)
    {
      if workbook.None? {
        return false;
      }
      var orgs := DecodeOrganizations(SheetRows(workbook.value, OrganizationsSheet), now, orgIds);
      var conts := DecodeContacts(SheetRows(workbook.value, ContactsSheet), now, contactIds);
      FormatAndDisplayEmails(ExtractEmails(conts));
      data.ImportData(orgs, conts);
      imported := true;
    }

    /** The import as a malformed document should be handled: a workbook lacking either sheet is
        refused like an unreadable file, so the existing lists are never replaced by a partial
        document; a complete workbook is imported as by `HandleImport`. */
    method HandleImportChecked(workbook: Option<Workbook>, now: string, orgIds: nat -> string, contactIds: nat -> string)
      returns (imported: bool)
      modifies this, data
      ensures imported <==> workbook.Some? && HasBothSheets(workbook.value)
      ensures !imported ==> importedEmails == old(importedEmails)
      ensures !imported ==> data.organizations == old(data.organizations) && data.contacts == old(data.contacts)
      ensures imported ==>
                data.organizations == DecodeOrganizations(workbook.value[OrganizationsSheet], now, orgIds)
      ensures imported ==>
                data.contacts == DecodeContacts(workbook.value[ContactsSheet], now, contactIds)
      ensures imported ==> importedEmails == Join(ExtractEmails(data.contacts), Separator(emailDelimiter))
      ensures emailDelimiter == old(emailDelimiter)
      ensures data.customFields == old(data.customFields) && data.sent == old(data.sent)
    {
      if workbook.None? || !HasBothSheets(workbook.value) {
        return false;
      }
      imported := HandleImport(workbook, now, orgIds, contactIds);
    }
  }

  /** After a successful import the text box reformats back to exactly the imported emails,
      provided each one is a plain address. */
  lemma ImportedEmailsRecoverable(cs: seq<Contact>, delimiter: string)
    requires forall k :: 0 <= k < |ExtractEmails(cs)| ==> IsAddress(ExtractEmails(cs)[k])
    ensures Tokens(Join(ExtractEmails(cs), Separator(delimiter))) == ExtractEmails(cs)
    ensures EmailCount(Join(ExtractEmails(cs), Separator(delimiter))) == |ExtractEmails(cs)|
  {
    var es := ExtractEmails(cs);
    TokensOfJoin(es, delimiter);
    EmailCountIsTokens(Join(es, Separator(delimiter)), delimiter);
  }
}

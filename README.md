# CRM front-end core in Dafny

A model of the core of a small CRM single-page application. The application keeps organizations and their contacts. Organizations live on a REST server that guards updates with etags (`If-Match`). Contacts and custom fields are held locally in the browser. The model covers:

- **Record types and enumerations** (`Types`). Organization, contact, user and custom-field records. Each closed set of string values (category, status, website status, language, field type, entity type) is a datatype with its string value and a parser.
- **Browser storage** (`BrowserStorage`). `localStorage` is modelled as a class with one slot per key the application uses: `users`, `currentUser`, `access_token` and `contacts`.
- **HTTP adapter** (`Api`). The user-facing error message. The request rule that attaches the bearer token. The response rule that ends the session on 401/403.
- **Data store** (`DataContext`). A class holding the organization, contact and custom-field lists.
  - Every organization update and delete first looks up the stored etag. Without one, the store refuses and sends no request.
  - The server is not modelled. Each method takes the server's answer as a parameter. A ghost log `sent` records every request issued.
- **Organizations page** (`OrganizationsPage`):
  - category labels;
  - the case-insensitive search and the category filter;
  - the optional "site not working first" ordering, which relies on `Array.prototype.sort` being stable;
  - an organization's contacts and the languages they speak;
  - the two recipient choices (one organization or everyone, or a hand-picked selection);
  - the selection list, and the page state as a class.
- **Spreadsheet page** (`ImportExport`, `EmailList`):
  - export of both lists to rows;
  - import from rows, with the source's defaults;
  - the replace-all import;
  - the imported-email text box: join with a delimiter, re-split on `,`, `;` or newline, trim, drop blanks.
- **Mock authentication** (`AuthContext`). A user registry in storage, seeded with a default administrator. Login, register and logout.
- **Admin panel** (`AdminPanel`). Flipping a user's access or role, writing the whole registry back each time.

Two helper modules sit underneath. `Wrappers` holds `Option`, `Result` and JavaScript truthiness for optional strings. `Seqs` holds `filter`, `map`, `flatMap`, `find` and `[...new Set(xs)]` on sequences, with their lemmas.

Modelling choices:

- **Clock and ids.** `new Date().toISOString()` becomes a `now` parameter. `Date.now().toString()` (with `Math.random()` on import) becomes an id parameter, or one id per row (`nat -> string`).
- **Spreadsheet cells.** A spreadsheet row is a map from `Column` to cell text. A missing column is an absent (`undefined`) cell. `Column.Header` gives the header texts, and `ImportExport.HeadersDistinct` proves that keying rows by column loses nothing.
- **Enumeration fields.** Record fields that TypeScript types as string unions are kept as `string`. Import stores whatever the sheet holds (a TypeScript `as` cast), so a record can carry a value outside its union. `WellTyped*` predicates say when it does not.

## Model

| member | source | states |
|---|---|---|
| Types.ParseCategory | src/types/index.ts:9 | the parser returns a category exactly when the string is one of the five values, and that category's value is the string |
| Types.ParseOrgStatus | src/types/index.ts:10 | returns a status exactly for `active`, `inactive`, `closed` |
| Types.ParseWebsiteStatus | src/types/index.ts:5 | returns a website status exactly for `working`, `not-working` |
| Types.ParseLanguage | src/types/index.ts:24 | returns a language exactly for `DE`, `EN`, `FR` |
| Types.ParseFieldType | src/types/index.ts:44 | returns a field type exactly for the four type names |
| Types.ParseEntityType | src/types/index.ts:46 | returns an entity type exactly for `organization`, `contact` |
| Types.CategoryRoundTrip | src/types/index.ts:9 | every category is recovered from its string |
| Types.OrgStatusRoundTrip | src/types/index.ts:10 | every status is recovered from its string |
| Types.WebsiteStatusRoundTrip | src/types/index.ts:5 | every website status is recovered from its string |
| Types.LanguageRoundTrip | src/types/index.ts:24 | every language is recovered from its string |
| Types.FieldTypeRoundTrip | src/types/index.ts:44 | every field type is recovered from its string |
| Types.EntityTypeRoundTrip | src/types/index.ts:46 | every entity type is recovered from its string |
| Types.WithoutPassword | src/lib/auth-context.tsx:47-48 | the public copy of a stored user keeps every field except the password |
| Types.WellTypedOrganizationFieldsNonEmpty | src/types/index.ts:9-10 | a well-typed organization has a non-empty category and status |
| Types.WellTypedContactLanguageNonEmpty | src/types/index.ts:24 | a well-typed contact has a non-empty preferred language |
| BrowserStorage.UsersOrEmpty | src/lib/auth-context.tsx:19 | a missing `users` key reads as the empty registry, a present one as its contents |
| Api.ToApiMessage | src/lib/api.ts:54-63 | 412 gives the conflict text; 401/403 give the session text; otherwise the body's message, else its code, else "Unexpected error"; never empty |
| Api.StatusMessagesIgnoreBody | src/lib/api.ts:60-61 | for 412, 401 and 403 the message depends on the status alone |
| Api.WithBearer | src/lib/api.ts:33-37 | with a truthy token, `Authorization` becomes `Bearer <token>` and every other header is kept; without one the headers are unchanged |
| Api.AttachToken | src/lib/api.ts:32-39 | the request rule returns the same config, its url unchanged, its headers as `WithBearer` gives them |
| Api.OnResponseError | src/lib/api.ts:41-52 | rejects with the same error; exactly on 401/403 it clears the token and current user and signals logout; other keys untouched |
| DataContext.FindById | src/lib/data-context.tsx:49 | none exactly when no organization has the id; otherwise the first one that has it |
| DataContext.EtagFor | src/lib/data-context.tsx:49-50 | the etag is usable exactly when the first organization with the id has a non-empty etag, and it is that etag |
| DataContext.ReplaceById | src/lib/data-context.tsx:53 | same length; every entry with the id becomes the server's record, the others stay |
| DataContext.WithoutOrganization | src/lib/data-context.tsx:62 | keeps exactly the organizations with another id |
| DataContext.WithoutContactsOf | src/lib/data-context.tsx:63 | keeps exactly the contacts of other organizations |
| DataContext.WithoutContact | src/lib/data-context.tsx:87 | keeps exactly the contacts with another id |
| DataContext.WithoutCustomField | src/lib/data-context.tsx:101 | keeps exactly the fields with another id |
| DataContext.NewContact | src/lib/data-context.tsx:67-72 | the draft's fields, the fresh id, both timestamps `now` |
| DataContext.MergeContact | src/lib/data-context.tsx:80 | the merged contact's `updatedAt` is always `now` |
| DataContext.PatchContacts | src/lib/data-context.tsx:79-81 | same length; contacts with the id are merged with the patch, the others stay |
| DataContext.MergeContactFields | src/lib/data-context.tsx:80 | each present patch field wins, each absent one keeps the contact's value, and `updatedAt` is `now` whatever the patch says |
| DataContext.MergeContactIdempotent | src/lib/data-context.tsx:80 | merging the same patch twice at the same time equals merging it once |
| DataContext.MergeEmptyPatch | src/lib/data-context.tsx:80 | an empty patch changes only `updatedAt` |
| DataContext.UpdateCarriesEtagForward | src/lib/data-context.tsx:48-54 | after an update the server's record is the one found under the id, so the next request sends the server's etag |
| DataContext.ReplaceAbsentId | src/lib/data-context.tsx:53 | replacing an id nobody has changes nothing |
| DataContext.DeletedHasNoEtag | src/lib/data-context.tsx:56-62 | after a delete the id is not found, so a second update or delete is refused for want of an etag |
| DataContext.WithoutOrganizationKeepsOthers | src/lib/data-context.tsx:62 | the delete keeps every other organization with its multiplicity, and distributes over concatenation (order kept) |
| DataContext.WithoutContactsOfKeepsOthers | src/lib/data-context.tsx:63 | the cascade keeps every contact of another organization with its multiplicity, and distributes over concatenation (order kept) |
| DataContext.WithoutContactKeepsOthers | src/lib/data-context.tsx:87 | a contact delete keeps every other contact with its multiplicity, and distributes over concatenation (order kept) |
| DataContext.WithoutCustomFieldKeepsOthers | src/lib/data-context.tsx:101 | a field delete keeps every other field with its multiplicity, and distributes over concatenation (order kept) |
| DataContext.AppendedIsFound | src/lib/data-context.tsx:43-46 | a created record with a new id is the one found under that id |
| DataContext.DataStore.constructor | src/lib/data-context.tsx:27-29 | all three lists start empty, nothing sent |
| DataContext.DataStore.LoadOrganizations | src/lib/data-context.tsx:31-40 | one list request; the list becomes the answer, or empty on failure; a 401/403 answer removes the stored token and user, as the response interceptor does, and any other answer leaves storage alone |
| DataContext.DataStore.AddOrganization | src/lib/data-context.tsx:43-46 | one create request; on success the server's record is appended, on failure the list is kept and the error is returned; a 401/403 answer removes the stored token and user, and any other answer leaves storage alone |
| DataContext.DataStore.UpdateOrganization | src/lib/data-context.tsx:48-54 | without an etag: `MissingEtag`, no request, nothing changed, storage included; with one: a patch request carrying it, then the list replaced by id or, on failure, kept; a 401/403 answer removes the stored token and user |
| DataContext.DataStore.DeleteOrganization | src/lib/data-context.tsx:56-64 | the same etag rule; on success the organization and its contacts are removed; otherwise both lists stay; a 401/403 answer removes the stored token and user |
| DataContext.DataStore.AddContact | src/lib/data-context.tsx:66-76 | the new contact appended and the list written to the `contacts` key; nothing else changes |
| DataContext.DataStore.UpdateContact | src/lib/data-context.tsx:78-84 | the patch merged into the contacts with the id, and the list written to the `contacts` key |
| DataContext.DataStore.DeleteContact | src/lib/data-context.tsx:86-90 | the contacts with the id removed, and the list written to the `contacts` key |
| DataContext.DataStore.AddCustomField | src/lib/data-context.tsx:92-98 | the new field appended under the fresh id |
| DataContext.DataStore.DeleteCustomField | src/lib/data-context.tsx:100-102 | the fields with the id removed |
| DataContext.DataStore.ImportData | src/lib/data-context.tsx:104-107 | both lists replaced wholesale; no request; custom fields kept |
| EmailList.Split | src/components/ImportExportPage.tsx:158 | at least one piece, and no piece holds a delimiter |
| EmailList.SplitWithoutDelimiter | src/components/ImportExportPage.tsx:158 | a text without delimiters splits into itself |
| EmailList.SplitAtDelimiter | src/components/ImportExportPage.tsx:158 | a delimiter after a delimiter-free prefix ends the first piece |
| EmailList.Trim | src/components/ImportExportPage.tsx:158 | the result is a contiguous stretch of the text with only whitespace before and after it; it has no whitespace at either end, and is empty exactly when the text is all whitespace |
| EmailList.PaddedAddressTrims | src/components/ImportExportPage.tsx:158 | leading whitespace before an address is exactly what trim removes |
| EmailList.Tokens | src/components/ImportExportPage.tsx:158 | every piece left after split, trim and filter is a non-empty, trimmed, delimiter-free address |
| EmailList.Clean | src/components/ImportExportPage.tsx:158 | no contract of its own; stated by `EmailList.CleanYieldsAddresses` and `EmailList.CountIsCleanLength` |
| EmailList.Join | src/components/ImportExportPage.tsx:132-141 | no contract of its own; stated by `EmailList.TokensOfJoin` |
| EmailList.Reformat | src/components/ImportExportPage.tsx:153-172 | no contract of its own; stated by `EmailList.ReformatJoin`, `EmailList.ReformatTwice` and `EmailList.ReformatIdempotent` |
| EmailList.EmailCount | src/components/ImportExportPage.tsx:321 | no contract of its own; stated by `EmailList.CountIsCleanLength` and `EmailList.EmailCountIsTokens` |
| EmailList.CleanYieldsAddresses | src/components/ImportExportPage.tsx:158 | cleaning delimiter-free pieces leaves addresses only |
| EmailList.Separator | src/components/ImportExportPage.tsx:130-142 | `"; "` for semicolon, newline for newline, `", "` for comma and for any other name |
| EmailList.TokensOfJoin | src/components/ImportExportPage.tsx:128-158 | a list of addresses joined with any separator splits back into exactly that list |
| EmailList.ReformatJoin | src/components/ImportExportPage.tsx:153-175 | re-splitting a joined address list and rejoining under a new delimiter is the list joined that way |
| EmailList.ReformatTwice | src/components/ImportExportPage.tsx:153-175 | only the last delimiter chosen matters |
| EmailList.ReformatIdempotent | src/components/ImportExportPage.tsx:153-175 | reformatting with the same delimiter again changes nothing |
| EmailList.CountIsCleanLength | src/components/ImportExportPage.tsx:321 | the pieces with content number as many as the cleaned addresses |
| EmailList.EmailCountIsTokens | src/components/ImportExportPage.tsx:321 | the "email(s) found" count is the number of addresses, and a delimiter change keeps it |
| ImportExport.HeadersDistinct | src/components/ImportExportPage.tsx:24-56 | distinct columns have distinct header texts |
| ImportExport.CellOr | src/components/ImportExportPage.tsx:80-91 | `row[key] \|\| fallback`: the cell when present and non-empty, the fallback otherwise |
| ImportExport.Cell | src/components/ImportExportPage.tsx:83 | present exactly when the row has the column, with its text |
| ImportExport.EncodeOrganization | src/components/ImportExportPage.tsx:24-37 | exactly the twelve organization columns; absent optional text written as blank |
| ImportExport.OrganizationName | src/components/ImportExportPage.tsx:43-46 | the name of the first organization with the id, or blank when there is none |
| ImportExport.ContactRow | src/components/ImportExportPage.tsx:44-55 | exactly the ten contact columns |
| ImportExport.ContactRowCells | src/components/ImportExportPage.tsx:44-55 | each of the ten cells holds the matching contact field or the organization's name |
| ImportExport.EncodeContact | src/components/ImportExportPage.tsx:42-56 | exactly the ten contact columns; the organization name looked up; id, organization id and email copied |
| ImportExport.ExportOrganizations | src/components/ImportExportPage.tsx:24-37 | one row per organization, in order |
| ImportExport.ExportContacts | src/components/ImportExportPage.tsx:42-56 | one row per contact, in order |
| ImportExport.DecodeOrganization | src/components/ImportExportPage.tsx:79-92 | each field is its cell when the cell is non-empty and otherwise its default: the fresh id, `""` for name, website, country, email, LinkedIn and notes, `additive-manufacturing`, `active`, and `now` for both timestamps; the website status is the raw cell; no etag and no extension fields |
| ImportExport.DecodeContact | src/components/ImportExportPage.tsx:97-107 | each field is its cell when the cell is non-empty and otherwise its default: the fresh id, `""` for organization id, name, role, email and notes, `EN`, and `now` for both timestamps; no extension fields |
| ImportExport.SheetRows | src/components/ImportExportPage.tsx:77-96 | a sheet the workbook holds gives its rows; a sheet it lacks gives no rows |
| ImportExport.MissingContactsSheetClearsContacts | src/components/ImportExportPage.tsx:95-113 | a workbook without a `Contacts` sheet imports no contacts and shows no emails |
| ImportExport.DecodeOrganizations | src/components/ImportExportPage.tsx:78-92 | one organization per row, in order, each with its own fresh id |
| ImportExport.DecodeContacts | src/components/ImportExportPage.tsx:96-107 | one contact per row, in order, each with its own fresh id |
| ImportExport.ExtractEmails | src/components/ImportExportPage.tsx:110 | an email is listed exactly when it is non-empty and some contact has it; no more entries than contacts |
| ImportExport.ExtractEmailsConcat | src/components/ImportExportPage.tsx:110 | the list follows contact order: extracting from two lists is extracting from each |
| ImportExport.DecodeBlankRow | src/components/ImportExportPage.tsx:79-107 | a blank row decodes to the defaults: fresh id, `additive-manufacturing`, `active`, `EN`, timestamps `now`, empty texts |
| ImportExport.DefaultsAreWellTyped | src/components/ImportExportPage.tsx:87-103 | the three defaults are members of their enumerations |
| ImportExport.DecodeKeepsUnknownCategory | src/components/ImportExportPage.tsx:87 | an unknown category is stored as it is and the record is then ill-typed |
| ImportExport.ImportedOrganizationsHaveNoEtag | src/components/ImportExportPage.tsx:79-92 | no imported organization has an etag, so the store refuses to update or delete any of them |
| ImportExport.Reimported | src/components/ImportExportPage.tsx:28-34 | the normal form after export and import: the core fields kept, the optional texts present, no extension fields, no etag |
| ImportExport.OrganizationRoundTrip | src/components/ImportExportPage.tsx:24-92 | export then import gives back every field, ids and timestamps included, up to `Reimported` |
| ImportExport.ContactRoundTrip | src/components/ImportExportPage.tsx:42-107 | export then import gives back the contact without its extension fields, whatever organization name its row carries |
| ImportExport.OrganizationsSheetRoundTrip | src/components/ImportExportPage.tsx:24-92 | the whole organizations sheet comes back in order |
| ImportExport.ContactsSheetRoundTrip | src/components/ImportExportPage.tsx:42-107 | the whole contacts sheet comes back in order |
| ImportExport.ImportedEmailsRecoverable | src/components/ImportExportPage.tsx:110-111 | the displayed text splits back into exactly the imported emails, and the count shows their number |
| ImportExport.ImportExportPage.constructor | src/components/ImportExportPage.tsx:15-16 | empty text, delimiter `comma` |
| ImportExport.ImportExportPage.FormatAndDisplayEmails | src/components/ImportExportPage.tsx:128-144 | the text becomes the emails joined with the current delimiter's separator |
| ImportExport.ImportExportPage.HandleDelimiterChange | src/components/ImportExportPage.tsx:153-175 | the delimiter is always set; an empty text stays empty; a non-empty one is re-split and rejoined |
| ImportExport.ImportExportPage.HandleImport | src/components/ImportExportPage.tsx:66-126 | succeeds exactly when a file was chosen and read; on failure nothing changes; on success the store holds the lists decoded from the two sheets (a missing sheet giving none) and the text shows the contacts' emails |
| ImportExport.ImportExportPage.HandleImportChecked | src/components/ImportExportPage.tsx:66-126 | succeeds exactly when a file was read and holds both sheets; otherwise the store's lists and the text are unchanged; on success as `HandleImport` |
| OrganizationsPage.CategoryLabel | src/components/OrganizationsPage.tsx:17-23 | no contract of its own; stated by `OrganizationsPage.CategoryLabelsDistinct` and `OrganizationsPage.FormatKnownCategory` |
| OrganizationsPage.FormatCategory | src/components/OrganizationsPage.tsx:25-28 | no contract of its own; stated by `OrganizationsPage.FormatKnownCategory` and `OrganizationsPage.FormatUnknownCategory` |
| OrganizationsPage.FormatKnownCategory | src/components/OrganizationsPage.tsx:25-28 | each of the five values is shown by its label |
| OrganizationsPage.FormatUnknownCategory | src/components/OrganizationsPage.tsx:25-28 | any other string is shown unchanged |
| OrganizationsPage.CategoryLabelsDistinct | src/components/OrganizationsPage.tsx:17-23 | distinct categories have distinct labels |
| OrganizationsPage.LowerChar | src/components/OrganizationsPage.tsx:70 | upper-case ASCII letters are lowered, every other character kept |
| OrganizationsPage.Lower | src/components/OrganizationsPage.tsx:70 | the text lowered character by character |
| OrganizationsPage.Includes | src/components/OrganizationsPage.tsx:70-72 | no contract of its own; stated by `OrganizationsPage.IncludesOccurrence` |
| OrganizationsPage.MatchesSearch | src/components/OrganizationsPage.tsx:70-72 | no contract of its own; stated by `OrganizationsPage.FilteredOrganizationsSpec` and `OrganizationsPage.NoFilterShowsAll` |
| OrganizationsPage.SortByStatus | src/components/OrganizationsPage.tsx:75-86 | no contract of its own; stated by `OrganizationsPage.SortByStatusIsStableSort` and `OrganizationsPage.StableSortIsUnique` |
| OrganizationsPage.FilteredOrganizations | src/components/OrganizationsPage.tsx:68-86 | no contract of its own; stated by `OrganizationsPage.FilteredOrganizationsSpec` and `OrganizationsPage.NoFilterShowsAll` |
| OrganizationsPage.IncludesOccurrence | src/components/OrganizationsPage.tsx:70-72 | `includes` holds exactly when the term occurs at some position |
| OrganizationsPage.Compare | src/components/OrganizationsPage.tsx:75-86 | negative exactly when the status is shown and only the first site is not working; positive in the mirror case |
| OrganizationsPage.SortByStatusIsStableSort | src/components/OrganizationsPage.tsx:75-86 | the ordering is a permutation, sorted by the comparator, and keeps each group's original order |
| OrganizationsPage.StableSortIsUnique | src/components/OrganizationsPage.tsx:75-86 | any sorted ordering that keeps both groups' orders is that ordering |
| OrganizationsPage.FilteredOrganizationsSpec | src/components/OrganizationsPage.tsx:68-86 | the list shows exactly the organizations matching search and category, each as often as in the store, in comparator order; with the status hidden, in store order |
| OrganizationsPage.NoFilterShowsAll | src/components/OrganizationsPage.tsx:68-74 | an empty search with `all` shows the whole store |
| OrganizationsPage.GetOrgContacts | src/components/OrganizationsPage.tsx:88 | exactly the contacts of that organization |
| OrganizationsPage.OrgContactsAndCascadePartition | src/components/OrganizationsPage.tsx:88 | an organization's contacts keep store order, and together with the delete cascade's survivors they are all the contacts |
| OrganizationsPage.CascadeLeavesNoContacts | src/lib/data-context.tsx:63 | after the delete cascade the organization has no contacts |
| OrganizationsPage.Languages | src/components/OrganizationsPage.tsx:361 | no repeats, and a language is listed exactly when some contact of the organization prefers it |
| OrganizationsPage.SendEmailRecipients | src/components/OrganizationsPage.tsx:158-166 | with a truthy id, the emails of that organization's contacts, one each, in store order; otherwise every contact's email in store order |
| OrganizationsPage.LanguagesFirstSeenOrder | src/components/OrganizationsPage.tsx:361 | the languages are listed in the order of their first appearance among the organization's contacts |
| Seqs.Filter | src/components/OrganizationsPage.tsx:88 | the kept elements, no more and no others, each satisfying the condition; order and multiplicity by `Seqs.FilterConcat` and `Seqs.FilterMultiset` |
| Seqs.Map | src/components/OrganizationsPage.tsx:161 | the same length, and each element the image of the one at the same index |
| Seqs.FlatMap | src/components/OrganizationsPage.tsx:176 | exactly the elements of the images; order by `Seqs.FlatMapConcat` |
| Seqs.Dedup | src/components/OrganizationsPage.tsx:361 | no repeats and the same members |
| Seqs.DedupFirstOccurrenceOrder | src/components/OrganizationsPage.tsx:361 | `[...new Set(xs)]` lists its elements in the order of their first occurrence in `xs` |
| OrganizationsPage.SelectedRecipients | src/components/OrganizationsPage.tsx:175-177 | an email is addressed exactly when a contact of a selected organization has it |
| OrganizationsPage.SelectedRecipientsOne | src/components/OrganizationsPage.tsx:175-177 | one organization contributes its contacts' emails in store order when selected, and nothing otherwise |
| OrganizationsPage.SelectionOrderIrrelevant | src/components/OrganizationsPage.tsx:175-177 | selections with the same members give the same recipients |
| OrganizationsPage.SelectedRecipientsConcat | src/components/OrganizationsPage.tsx:175-177 | recipients follow store order, organization by organization |
| OrganizationsPage.Without | src/components/OrganizationsPage.tsx:186 | removes every occurrence of the id and nothing else |
| OrganizationsPage.Toggle | src/components/OrganizationsPage.tsx:184-190 | the id becomes selected exactly when it was not; other ids are unaffected |
| OrganizationsPage.ToggleTwiceAbsent | src/components/OrganizationsPage.tsx:184-190 | toggling an unselected id twice restores the list exactly |
| OrganizationsPage.ToggleTwicePresent | src/components/OrganizationsPage.tsx:184-190 | toggling a selected id twice keeps the same selection, with the id moved to the end |
| OrganizationsPage.ToggleTwiceReorders | src/components/OrganizationsPage.tsx:184-190 | `["a","b"]` toggled twice on `"a"` is `["b","a"]` |
| OrganizationsPage.ToggleKeepsNoDuplicates | src/components/OrganizationsPage.tsx:184-190 | toggling never creates a repeat |
| OrganizationsPage.CheckboxUpdate | src/components/OrganizationsPage.tsx:659-664 | checked adds the id once, leaving a list that has it unchanged; unchecked or indeterminate removes it |
| OrganizationsPage.CheckboxUpdateFacts | src/components/OrganizationsPage.tsx:659-664 | checking twice is checking once; no repeats arise; clearing leaves no occurrence |
| OrganizationsPage.OrganizationsPageState.constructor | src/components/OrganizationsPage.tsx:32-45 | the initial filters, flags and empty lists |
| OrganizationsPage.OrganizationsPageState.ToggleWebsiteStatus | src/components/OrganizationsPage.tsx:217 | flips the status column; the other columns, the selection and the chosen email category are unchanged |
| OrganizationsPage.OrganizationsPageState.ToggleOrgSelection | src/components/OrganizationsPage.tsx:184-190 | the selection toggled, still without repeats |
| OrganizationsPage.OrganizationsPageState.OnCheckedChange | src/components/OrganizationsPage.tsx:659-664 | the selection updated by the checkbox rule, still without repeats |
| OrganizationsPage.OrganizationsPageState.ChangeSelectiveCategory | src/components/OrganizationsPage.tsx:632-635 | the dialog's category set and the selection cleared |
| OrganizationsPage.OrganizationsPageState.HandleSendEmail | src/components/OrganizationsPage.tsx:158-166 | the recipients set and the dialog opened; selection and view kept |
| OrganizationsPage.OrganizationsPageState.HandleSelectiveEmail | src/components/OrganizationsPage.tsx:168-182 | first press enters selection mode with nothing selected; second press addresses the selection's contacts, opens the dialog and leaves the mode cleared |
| AuthContext.DefaultAdmin | src/lib/auth-context.tsx:21-29 | id `admin-default`, email and password `admin`, role admin, access granted |
| AuthContext.FindUser | src/lib/auth-context.tsx:42-44 | found exactly when some user has both the email and the password; the first such user |
| AuthContext.NewUser | src/lib/auth-context.tsx:64-72 | role `user`, no access, the given fields |
| AuthContext.EmailTaken | src/lib/auth-context.tsx:60 | no contract of its own; stated by `AuthContext.AuthProvider.Register` and `AuthContext.RegisterKeepsEmailsUnique` |
| AuthContext.RegisterKeepsEmailsUnique | src/lib/auth-context.tsx:60-75 | appending a user whose email is not taken keeps emails unique |
| AuthContext.RegisterThenLogin | src/lib/auth-context.tsx:39-77 | a freshly registered user can log in at once although it has no access |
| AuthContext.LoginByUniqueEmail | src/lib/auth-context.tsx:42-44 | with unique emails, login with a user's email and password finds that user |
| AuthContext.DefaultAdminCanLogin | src/lib/auth-context.tsx:20-30 | the seeded registry lets `admin`/`admin` in and has unique emails |
| AuthContext.AuthProvider.constructor | src/lib/auth-context.tsx:15 | no user |
| AuthContext.AuthProvider.Initialize | src/lib/auth-context.tsx:17-37 | an empty or missing registry is seeded with the administrator, a non-empty one kept; a saved user is restored |
| AuthContext.AuthProvider.Login | src/lib/auth-context.tsx:39-54 | succeeds exactly when some user matches; the first match without password becomes and is saved as the current user; on failure nothing changes |
| AuthContext.AuthProvider.Register | src/lib/auth-context.tsx:56-77 | succeeds exactly when the email is free; then the new user is appended; emails stay unique; the session is untouched |
| AuthContext.AuthProvider.IsAuthenticated | src/lib/auth-context.tsx:91 | no contract of its own; stated by `AuthContext.AuthProvider.Login` and `AuthContext.AuthProvider.Logout` |
| AuthContext.AuthProvider.Logout | src/lib/auth-context.tsx:79-82 | no user, and no saved user |
| AdminPanel.ToggleAccessOf | src/components/AdminPanel.tsx:29-31 | same length; only `hasAccess` can change, and it changes exactly for users with the id |
| AdminPanel.FlipRole | src/components/AdminPanel.tsx:47 | `admin` becomes `user`, anything else becomes `admin` |
| AdminPanel.ToggleRoleOf | src/components/AdminPanel.tsx:46-48 | same length; only `role` can change, flipped for users with the id; others identical |
| AdminPanel.ToggleAccessTwice | src/components/AdminPanel.tsx:27-42 | flipping access twice restores the registry |
| AdminPanel.ToggleRoleTwice | src/components/AdminPanel.tsx:44-59 | flipping the role twice restores the registry when the affected users are admins or users |
| AdminPanel.ToggleRoleTwiceOtherRole | src/components/AdminPanel.tsx:47 | any other role is lost: two flips give `user` |
| AdminPanel.SameCredentials | src/lib/auth-context.tsx:42-44 | registries with the same emails and passwords position by position admit the same logins and are unique together |
| AdminPanel.ToggleAccessKeepsCredentials | src/components/AdminPanel.tsx:27-32 | flipping access changes neither who can log in nor email uniqueness |
| AdminPanel.ToggleRoleKeepsCredentials | src/components/AdminPanel.tsx:44-49 | flipping a role changes neither who can log in nor email uniqueness |
| AdminPanel.Project | src/components/AdminPanel.tsx:16-23 | one row per stored user, each its copy without password |
| AdminPanel.AdminPanelState.constructor | src/components/AdminPanel.tsx:10 | an empty table |
| AdminPanel.AdminPanelState.Load | src/components/AdminPanel.tsx:12-25 | a stored registry is shown without passwords; without one the table is unchanged |
| AdminPanel.AdminPanelState.ToggleAccess | src/components/AdminPanel.tsx:27-42 | the flipped registry is written back and shown; the other keys untouched |
| AdminPanel.AdminPanelState.ToggleRole | src/components/AdminPanel.tsx:44-59 | the flipped registry is written back and shown; the other keys untouched |

## Left out

- Rendering, dialogs, forms, toasts and the clipboard (the JSX of every component) are not modelled. Only the state each handler sets is.
- The XLSX codec (`book_new`, `json_to_sheet`, `sheet_to_json`, `read`, `writeFile`) and the `FileReader` are foreign code. A sheet is the sequence of rows it decodes to. No file, or a file `XLSX.read` cannot read, is `None` for the workbook in `HandleImport`. A sheet the workbook lacks is read as no rows, as `sheet_to_json` does for an absent sheet. Cells are text only: numeric, date and boolean cells the codec may produce are not represented.
- The server (`organizations-api.ts`) and JSON serialisation are outside the model. Each answer is a parameter of the store method. Round trips through `JSON.stringify`/`JSON.parse` are taken as the identity.
- React's asynchrony is collapsed into one state change per handler. This covers `await`, functional `setState` updaters, re-rendering and the mount effects' timing. Concurrent handlers are not modelled.
- Clock and random ids are parameters (`now`, ids per row), so their uniqueness is not modelled. One `now` stands for both `new Date()` reads of a created contact (src/lib/data-context.tsx:70-71). In `HandleImport` one `now` serves every row of both sheets (src/components/ImportExportPage.tsx:90-91 and 105-106), where the source reads the clock afresh for each blank timestamp. So `createdAt` and `updatedAt` agree, and rows agree with each other, even where the reads could differ by a millisecond.
- `window.dispatchEvent(new Event("auth:logout"))` is reported as a boolean by `OnResponseError`. The store's organization methods apply `OnResponseError` to a failed answer and drop that boolean. The event's listeners are not modelled.
- `toLowerCase` is modelled on ASCII letters only. Unicode case mapping is not.
- Organization-create and update forms are not modelled: `handleAddOrg`, the contact dialog handlers, and the page's calls into the store. The store operations themselves are modelled.
- `User` (with a `roles` list) is declared but unused. The registry code stores a single `role`, and the model follows the code (`StoredUser`, `PublicUser`).
- `DataContext.MergeContact`: a patch key present with the value `undefined` overwrites the field in `{...c, ...patch}` (src/lib/data-context.tsx:80). The model cannot tell such a key from an absent one, and keeps the contact's value.
- `DataContext.DataStore.DeleteOrganization` and `DataContext.DataStore.ImportData` do not write the `contacts` storage key, as in the source. Only the contact mutations do.
- `AuthContext.AuthProvider.Login`: `hasAccess` is not checked, as in the source. `AuthContext.RegisterThenLogin` shows that an unapproved user can sign in.
- `OrganizationsPage.ToggleTwicePresent`: toggling a selected id twice restores the selection only as a set (and a multiset). The order is not restored, as `OrganizationsPage.ToggleTwiceReorders` shows.
- `ImportExport.DecodeOrganization`: category, status, website status and language are copied without checks, as the source's casts do. `ImportExport.DecodeKeepsUnknownCategory` shows an ill-typed result. An organization exported without a website status comes back with the blank string there, which is not one of the two status values (`ImportExport.Reimported`).
- `ImportExport.OrganizationRoundTrip` and `ImportExport.ContactRoundTrip` assume the fields with import defaults are non-empty (`ExportableOrganization`, `ExportableContact`). A blank id or timestamp is replaced on import, as `ImportExport.DecodeBlankRow` states.

## Findings

| source | as written | input that shows it | evidently intended | confidence | as-written member | corrected member |
|---|---|---|---|---|---|---|
| src/components/ImportExportPage.tsx:77-78, 95-96 | a sheet the workbook lacks is read by `sheet_to_json` as no rows, so the import goes ahead and `importData` replaces the list with an empty one | a workbook with an `Organizations` sheet and no `Contacts` sheet, imported over a store holding contacts: every contact is deleted | a document missing either sheet is refused as malformed, and both lists stay as they were | not executed | `ImportExport.MissingContactsSheetClearsContacts` (with `ImportExport.ImportExportPage.HandleImport`) | `ImportExport.ImportExportPage.HandleImportChecked` |

/** The organizations list: category labels, the search and category filters, the optional
    "not working first" ordering, each organization's contacts and languages, and the two ways of
    choosing email recipients (one organization or all contacts, or a selection of organizations). */
module OrganizationsPage {
  import opened Wrappers
  import opened Seqs
  import opened Types
  import opened DataContext

  // ---------------------------------------------------------------------------------------------
  // `CATEGORIES` and `formatCategory`

  function CategoryLabel(c: Category): string {
    match c
    case AdditiveManufacturing => "Additive Manufacturing"
    case MobilityFleetManagement => "Mobility & Fleet Management"
    case ProductOriginAuthentication => "Product Origin & Authentication"
    case WarehousingIntralogisticsRobotics => "Warehousing, Intralogistics & Robotics"
    case PackagingBinsContainers => "Packaging, Bins & Containers"
  }

  /** The label of a known category value; any other string is shown as it is. */
  function FormatCategory(category: string): string {
    match ParseCategory(category)
    case Some(c) => CategoryLabel(c)
    case None => category
  }

  /** Each of the five values is shown by its label. */
  lemma FormatKnownCategory(c: Category)
    ensures FormatCategory(c.Value()) == CategoryLabel(c)
  {
    CategoryRoundTrip(c);
  }

  /** A string that is none of the five values is shown unchanged. */
  lemma FormatUnknownCategory(category: string)
    requires forall c: Category :: c.Value() != category
    ensures FormatCategory(category) == category
  {
  }

  /** Distinct categories have distinct labels, so the label identifies the category. */
  lemma CategoryLabelsDistinct(a: Category, b: Category)
    requires CategoryLabel(a) == CategoryLabel(b)
    ensures a == b
  {
  }

  // ---------------------------------------------------------------------------------------------
  // `String.prototype.toLowerCase` (on the ASCII letters) and `String.prototype.includes`

  function LowerChar(c: char): (r: char)
    ensures !('A' <= r <= 'Z')
    ensures !('A' <= c <= 'Z') ==> r == c
    ensures 'A' <= c <= 'Z' ==> 'a' <= r <= 'z' && r as int - c as int == 32
  {
    if 'A' <= c <= 'Z' then (c as int + 32) as char else c
  }

  function Lower(s: string): (r: string)
    ensures |r| == |s|
    ensures forall i :: 0 <= i < |s| ==> r[i] == LowerChar(s[i])
  {
    Map(s, LowerChar)
  }

  /** `s.includes(t)`: `t` occurs in `s` starting at some position (the empty string always does). */
  predicate Includes(s: string, t: string)
    decreases |s|
  {
    if |t| > |s| then false
    else if s[..|t|] == t then true
    else Includes(s[1..], t)
  }

  /** `t` occurs in `s` at position `i`. */
  predicate OccursAt(s: string, t: string, i: int) {
    0 <= i <= |s| - |t| && s[i..i + |t|] == t
  }

  lemma {:induction false} IncludesOccurrence(s: string, t: string)
    ensures Includes(s, t) <==> exists i :: OccursAt(s, t, i)
    decreases |s|
  {
    if |t| > |s| {
    } else if s[..|t|] == t {
      assert OccursAt(s, t, 0);
    } else {
      IncludesOccurrence(s[1..], t);
      if Includes(s[1..], t) {
        var i :| OccursAt(s[1..], t, i);
        SliceOfTail(s, i + 1, i + 1 + |t|);
        assert OccursAt(s, t, i + 1);
      } else {
        forall i | OccursAt(s, t, i) ensures false {
          assert i != 0;
          assert s[i..i + |t|] == s[1..][i - 1..i - 1 + |t|] by {
            SliceOfTail(s, i, i + |t|);
          }
          assert OccursAt(s[1..], t, i - 1);
        }
      }
    }
  }

  lemma SliceOfTail(s: string, from: int, to: int)
    requires 1 <= from <= to <= |s|
    ensures s[1..][from - 1..to - 1] == s[from..to]
  {
    var l, r := s[1..][from - 1..to - 1], s[from..to];
    assert |l| == |r|;
    forall k | 0 <= k < |l| ensures l[k] == r[k] {
      assert l[k] == s[1..][from - 1 + k] == s[from + k];
    }
  }

  // ---------------------------------------------------------------------------------------------
  // `filteredOrganizations`

  /** The search term occurs, ignoring case, in the name, the email or the category value. */
  predicate MatchesSearch(o: Organization, term: string) {
    var t := Lower(term);
    Includes(Lower(o.name), t) || Includes(Lower(o.email), t) || Includes(Lower(o.category), t)
  }

  predicate MatchesCategory(o: Organization, categoryFilter: string) {
    categoryFilter == "all" || o.category == categoryFilter
  }

  function SearchFilter(term: string): Organization -> bool {
    (o: Organization) => MatchesSearch(o, term)
  }

  function CategoryFilter(categoryFilter: string): Organization -> bool {
    (o: Organization) => MatchesCategory(o, categoryFilter)
  }

  predicate IsNotWorking(o: Organization) {
    o.websiteStatus == Some("not-working")
  }

  predicate IsOther(o: Organization) {
    !IsNotWorking(o)
  }

  /** The comparator handed to `sort`. */
  function Compare(a: Organization, b: Organization, showWebsiteStatus: bool): (r: int)
    ensures r < 0 <==> showWebsiteStatus && IsNotWorking(a) && IsOther(b)
    ensures r > 0 <==> showWebsiteStatus && IsOther(a) && IsNotWorking(b)
  {
    if showWebsiteStatus && IsNotWorking(a) && IsOther(b) then -1
    else if showWebsiteStatus && IsOther(a) && IsNotWorking(b) then 1
    else 0
  }

  /** No pair is out of order for the comparator. */
  predicate SortedBy(r: seq<Organization>, showWebsiteStatus: bool) {
    forall i, j :: 0 <= i < j < |r| ==> Compare(r[i], r[j], showWebsiteStatus) <= 0
  }

  /** `Array.prototype.sort` is stable, so with this comparator it moves the organizations whose
      site is not working to the front and keeps the order inside each group. */
  function SortByStatus(os: seq<Organization>, showWebsiteStatus: bool): seq<Organization> {
    if showWebsiteStatus then Filter(os, IsNotWorking) + Filter(os, IsOther) else os
  }

  /** The ordering is a stable sort by the comparator: same elements, in comparator order, and each
      group in its original order. */
  lemma SortByStatusIsStableSort(os: seq<Organization>, showWebsiteStatus: bool)
    ensures var r := SortByStatus(os, showWebsiteStatus);
      && multiset(r) == multiset(os)
      && SortedBy(r, showWebsiteStatus)
      && Filter(r, IsNotWorking) == Filter(os, IsNotWorking)
      && Filter(r, IsOther) == Filter(os, IsOther)
  {
    if showWebsiteStatus {
      FilterPartition(os, IsNotWorking, IsOther);
    }
  }

  /** Every organization whose site is not working comes before every other one. */
  predicate Grouped(r: seq<Organization>) {
    forall i, j :: 0 <= i < j < |r| && IsNotWorking(r[j]) ==> IsNotWorking(r[i])
  }

  lemma SortedIsGrouped(r: seq<Organization>)
    requires SortedBy(r, true)
    ensures Grouped(r)
  {
    forall i, j | 0 <= i < j < |r| && IsNotWorking(r[j]) ensures IsNotWorking(r[i]) {
      assert Compare(r[i], r[j], true) <= 0;
    }
  }

  /** A grouped sequence is its not-working part followed by the rest. */
  lemma {:induction false} GroupedSplits(r: seq<Organization>)
    requires Grouped(r)
    ensures r == Filter(r, IsNotWorking) + Filter(r, IsOther)
  {
    if r != [] {
      if IsNotWorking(r[0]) {
        var tail := r[1..];
        GroupedTail(r);
        GroupedSplits(tail);
        ConsKeepsSplit(r[0], tail, IsNotWorking, IsOther);
        assert r == [r[0]] + tail;
      } else {
        OtherFirstSplits(r);
      }
    }
  }

  lemma GroupedTail(r: seq<Organization>)
    requires Grouped(r) && r != []
    ensures Grouped(r[1..])
  {
    var tail := r[1..];
    forall i, j | 0 <= i < j < |tail| && IsNotWorking(tail[j]) ensures IsNotWorking(tail[i]) {
      assert tail[i] == r[i + 1] && tail[j] == r[j + 1];
    }
  }

  /** A grouped sequence that starts with a working site has only working sites. */
  lemma OtherFirstSplits(r: seq<Organization>)
    requires Grouped(r) && r != [] && IsOther(r[0])
    ensures r == Filter(r, IsNotWorking) + Filter(r, IsOther)
  {
    assert forall j :: 0 <= j < |r| ==> IsOther(r[j]);
    FilterKeepsNone(r, IsNotWorking);
    FilterKeepsAll(r, IsOther);
    AppendEmpty(r);
  }

  /** The stable sort is the only ordering with those properties. */
  lemma StableSortIsUnique(os: seq<Organization>, r: seq<Organization>)
    requires SortedBy(r, true)
    requires Filter(r, IsNotWorking) == Filter(os, IsNotWorking)
    requires Filter(r, IsOther) == Filter(os, IsOther)
    ensures r == SortByStatus(os, true)
  {
    SortedIsGrouped(r);
    GroupedSplits(r);
  }

  /** `organizations.filter(search).filter(category).sort(comparator)` */
  function FilteredOrganizations(os: seq<Organization>, term: string, categoryFilter: string,
                                 showWebsiteStatus: bool): seq<Organization>
  {
    SortByStatus(Filter(Filter(os, SearchFilter(term)), CategoryFilter(categoryFilter)), showWebsiteStatus)
  }

  /** The list shows exactly the matching organizations, each as often as it occurs, in comparator
      order; with the status column hidden it is a subsequence of the store's list. */
  lemma FilteredOrganizationsSpec(os: seq<Organization>, term: string, categoryFilter: string,
                                  showWebsiteStatus: bool)
    ensures var r := FilteredOrganizations(os, term, categoryFilter, showWebsiteStatus);
      && (forall o :: multiset(r)[o] ==
            if MatchesSearch(o, term) && MatchesCategory(o, categoryFilter) then multiset(os)[o] else 0)
      && SortedBy(r, showWebsiteStatus)
      && (!showWebsiteStatus ==> Subsequence(r, os))
  {
    var searched := Filter(os, SearchFilter(term));
    var matched := Filter(searched, CategoryFilter(categoryFilter));
    SortByStatusIsStableSort(matched, showWebsiteStatus);
    forall o ensures multiset(matched)[o] ==
        if MatchesSearch(o, term) && MatchesCategory(o, categoryFilter) then multiset(os)[o] else 0 {
      FilterMultiset(os, SearchFilter(term), o);
      FilterMultiset(searched, CategoryFilter(categoryFilter), o);
    }
    if !showWebsiteStatus {
      FilterIsSubsequence(os, SearchFilter(term));
      FilterIsSubsequence(searched, CategoryFilter(categoryFilter));
      SubsequenceTransitive(matched, searched, os);
    }
  }

  lemma {:induction false} SubsequenceTransitive(a: seq<Organization>, b: seq<Organization>, c: seq<Organization>)
    requires Subsequence(a, b) && Subsequence(b, c)
    ensures Subsequence(a, c)
    decreases |c|
  {
    if a != [] {
      if b[0] == c[0] {
        if a[0] == b[0] {
          SubsequenceTransitive(a[1..], b[1..], c[1..]);
        } else {
          SubsequenceTransitive(a, b[1..], c[1..]);
        }
      } else {
        SubsequenceTransitive(a, b, c[1..]);
        SubsequenceDropHead(a, c);
      }
    }
  }

  /** With an empty search and every category, the list is the store's list, ordered. */
  lemma NoFilterShowsAll(os: seq<Organization>, showWebsiteStatus: bool)
    ensures FilteredOrganizations(os, "", "all", showWebsiteStatus) == SortByStatus(os, showWebsiteStatus)
  {
    forall o: Organization ensures MatchesSearch(o, "") {
      assert Lower("") == "";
      assert Lower(o.name)[..0] == "";
    }
    FilterKeepsAll(os, SearchFilter(""));
    FilterKeepsAll(os, CategoryFilter("all"));
  }

  // ---------------------------------------------------------------------------------------------
  // `getOrgContacts` and the languages of an organization's contacts

  function InOrganization(orgId: string): Contact -> bool {
    (c: Contact) => c.organizationId == orgId
  }

  function GetOrgContacts(cs: seq<Contact>, orgId: string): (r: seq<Contact>)
    ensures forall c :: c in r <==> c in cs && c.organizationId == orgId
    ensures forall i :: 0 <= i < |r| ==> r[i].organizationId == orgId
  {
    Filter(cs, InOrganization(orgId))
  }

  /** The contacts of an organization, in store order, and the cascade of its deletion are
      complementary: together they are all the contacts. */
  lemma OrgContactsAndCascadePartition(cs: seq<Contact>, orgId: string)
    ensures Subsequence(GetOrgContacts(cs, orgId), cs)
    ensures multiset(GetOrgContacts(cs, orgId)) + multiset(WithoutContactsOf(cs, orgId)) == multiset(cs)
  {
    FilterIsSubsequence(cs, InOrganization(orgId));
    FilterSplitsMultiset(cs, InOrganization(orgId), OutsideOrganization(orgId));
  }

  /** After the cascade, a deleted organization has no contacts left. */
  lemma CascadeLeavesNoContacts(cs: seq<Contact>, orgId: string)
    ensures GetOrgContacts(WithoutContactsOf(cs, orgId), orgId) == []
  {
    var rest := WithoutContactsOf(cs, orgId);
    FilterKeepsNone(rest, InOrganization(orgId));
  }

  function LanguageOf(c: Contact): string {
    c.preferredLanguage
  }

  /** `[...new Set(orgContacts.map(c => c.preferredLanguage))]` */
  function Languages(cs: seq<Contact>, orgId: string): (r: seq<string>)
    ensures NoDuplicates(r)
    ensures forall l :: l in r <==> exists c :: c in cs && c.organizationId == orgId && c.preferredLanguage == l
  {
    var own := GetOrgContacts(cs, orgId);
    MapMembers(own, LanguageOf);
    Dedup(Map(own, LanguageOf))
  }

  /** The languages appear in the order their first speaker appears among the organization's
      contacts. */
  lemma LanguagesFirstSeenOrder(cs: seq<Contact>, orgId: string)
    ensures var spoken := Map(GetOrgContacts(cs, orgId), LanguageOf);
      var r := Languages(cs, orgId);
      forall i, j :: 0 <= i < j < |r| ==> IndexOf(spoken, r[i]) < IndexOf(spoken, r[j])
  {
    DedupFirstOccurrenceOrder(Map(GetOrgContacts(cs, orgId), LanguageOf));
  }

  // ---------------------------------------------------------------------------------------------
  // Recipients

  /** `handleSendEmail(orgId)`: a truthy id selects that organization's contact emails, otherwise
      every contact's email, in store order. */
  function SendEmailRecipients(cs: seq<Contact>, orgId: Option<string>): (r: seq<string>)
    ensures Truthy(orgId) ==> |r| == |GetOrgContacts(cs, orgId.value)|
    ensures Truthy(orgId) ==> forall i :: 0 <= i < |r| ==> r[i] == GetOrgContacts(cs, orgId.value)[i].email
    ensures Truthy(orgId) ==>
              forall e :: e in r <==> exists c :: c in cs && c.organizationId == orgId.value && c.email == e
    ensures !Truthy(orgId) ==> |r| == |cs| && forall i :: 0 <= i < |cs| ==> r[i] == cs[i].email
  {
    if Truthy(orgId) then
      var own := GetOrgContacts(cs, orgId.value);
      MapMembers(own, EmailOf);
      Map(own, EmailOf)
    else Map(cs, EmailOf)
  }

  function InSelection(selected: seq<string>): Organization -> bool {
    (o: Organization) => o.id in selected
  }

  function ContactsOfOrganization(cs: seq<Contact>): Organization -> seq<Contact> {
    (o: Organization) => GetOrgContacts(cs, o.id)
  }

  /** The emails of the selected organizations' contacts, organization by organization in store
      order: `organizations.filter(selected).flatMap(getOrgContacts).map(c => c.email)`. */
  function SelectedRecipients(os: seq<Organization>, cs: seq<Contact>, selected: seq<string>): (r: seq<string>)
    ensures forall e :: e in r <==>
              exists o, c :: o in os && o.id in selected && c in cs && c.organizationId == o.id && c.email == e
  {
    RecipientsReached(os, cs, selected);
    Map(FlatMap(Filter(os, InSelection(selected)), ContactsOfOrganization(cs)), EmailOf)
  }

  lemma RecipientsReached(os: seq<Organization>, cs: seq<Contact>, selected: seq<string>)
    ensures forall e :: e in Map(FlatMap(Filter(os, InSelection(selected)), ContactsOfOrganization(cs)), EmailOf) <==>
              exists o, c :: o in os && o.id in selected && c in cs && c.organizationId == o.id && c.email == e
  {
    var chosen := Filter(os, InSelection(selected));
    var reached := FlatMap(chosen, ContactsOfOrganization(cs));
    var r := Map(reached, EmailOf);
    MapMembers(reached, EmailOf);
    forall e | e in r ensures exists o, c :: o in os && o.id in selected && c in cs && c.organizationId == o.id && c.email == e {
      var c :| c in reached && EmailOf(c) == e;
      var o :| o in chosen && c in ContactsOfOrganization(cs)(o);
      assert o in os && o.id in selected && c in cs && c.organizationId == o.id;
    }
    forall e | exists o, c :: o in os && o.id in selected && c in cs && c.organizationId == o.id && c.email == e ensures e in r {
      var o, c :| o in os && o.id in selected && c in cs && c.organizationId == o.id && c.email == e;
      assert o in chosen;
      assert c in ContactsOfOrganization(cs)(o);
      assert c in reached;
    }
  }

  /** Recipients follow the store's organization order, not the order of selection: any two
      selections with the same members give the same list. */
  lemma SelectionOrderIrrelevant(os: seq<Organization>, cs: seq<Contact>, s1: seq<string>, s2: seq<string>)
    requires forall x :: x in s1 <==> x in s2
    ensures SelectedRecipients(os, cs, s1) == SelectedRecipients(os, cs, s2)
  {
    FilterSameCondition(os, InSelection(s1), InSelection(s2));
  }

  /** Recipients of a longer organization list: those of the first part, then those of the rest. */
  lemma SelectedRecipientsConcat(a: seq<Organization>, b: seq<Organization>, cs: seq<Contact>, selected: seq<string>)
    ensures SelectedRecipients(a + b, cs, selected) == SelectedRecipients(a, cs, selected) + SelectedRecipients(b, cs, selected)
  {
    var p := InSelection(selected);
    FilterConcat(a, b, p);
    FlatMapConcat(Filter(a, p), Filter(b, p), ContactsOfOrganization(cs));
    MapConcat(FlatMap(Filter(a, p), ContactsOfOrganization(cs)), FlatMap(Filter(b, p), ContactsOfOrganization(cs)), EmailOf);
  }

  /** One organization contributes its own contacts' emails, in store order, when it is
      selected, and nothing otherwise; with `SelectedRecipientsConcat` this fixes the whole list. */
  lemma SelectedRecipientsOne(o: Organization, cs: seq<Contact>, selected: seq<string>)
    ensures SelectedRecipients([o], cs, selected) ==
              if o.id in selected then Map(GetOrgContacts(cs, o.id), EmailOf) else []
  {
    var chosen := Filter([o], InSelection(selected));
    assert [o][1..] == [];
    assert chosen == if o.id in selected then [o] else [];
    var reached := FlatMap(chosen, ContactsOfOrganization(cs));
    if o.id in selected {
      var f := ContactsOfOrganization(cs);
      assert chosen[0] == o && chosen[1..] == [];
      assert FlatMap(chosen[1..], f) == [];
      assert f(o) == GetOrgContacts(cs, o.id);
      AppendEmpty(f(o));
    }
  }

  // ---------------------------------------------------------------------------------------------
  // Selection lists

  function Differs(id: string): string -> bool {
    (x: string) => x != id
  }

  /** `ids.filter(x => x !== id)`: every occurrence removed. */
  function Without(ids: seq<string>, id: string): (r: seq<string>)
    ensures forall x :: x in r <==> x in ids && x != id
  {
    Filter(ids, Differs(id))
  }

  /** `toggleOrgSelection`: remove the id if it is selected, otherwise append it. */
  function Toggle(ids: seq<string>, id: string): (r: seq<string>)
    ensures id in r <==> id !in ids
    ensures forall x :: x != id ==> (x in r <==> x in ids)
  {
    if id in ids then Without(ids, id) else ids + [id]
  }

  /** Toggling an unselected id twice restores the list exactly. */
  lemma ToggleTwiceAbsent(ids: seq<string>, id: string)
    requires id !in ids
    ensures Toggle(Toggle(ids, id), id) == ids
  {
    FilterConcat(ids, [id], Differs(id));
    FilterKeepsAll(ids, Differs(id));
    assert Filter([id], Differs(id)) == [];
    assert ids + [] == ids;
  }

  /** Toggling a selected id twice (in a list without repeats) restores the same selection, but the
      id moves to the end. */
  lemma ToggleTwicePresent(ids: seq<string>, id: string)
    requires id in ids && NoDuplicates(ids)
    ensures multiset(Toggle(Toggle(ids, id), id)) == multiset(ids)
    ensures Toggle(Toggle(ids, id), id) == Without(ids, id) + [id]
  {
    var once := Without(ids, id);
    forall x ensures multiset(once + [id])[x] == multiset(ids)[x] {
      FilterMultiset(ids, Differs(id), x);
      if x == id {
        NoDuplicatesOccursOnce(ids, id);
      }
    }
  }

  /** Toggling twice does not restore the order in general. */
  lemma ToggleTwiceReorders()
    ensures Toggle(Toggle(["a", "b"], "a"), "a") == ["b", "a"]
  {
    assert Without(["a", "b"], "a") == ["b"] by {
      assert ["a", "b"][1..] == ["b"];
      assert ["b"][1..] == [];
    }
  }

  lemma ToggleKeepsNoDuplicates(ids: seq<string>, id: string)
    requires NoDuplicates(ids)
    ensures NoDuplicates(Toggle(ids, id))
  {
    if id in ids {
      FilterNoDuplicates(ids, Differs(id));
    } else {
      AppendNoDuplicates(ids, id);
    }
  }

  /** The three values a checkbox reports; only `Checked` counts as checked. */
  datatype CheckedState = Checked | Unchecked | Indeterminate

  /** The updater of the selective-email dialog's checkboxes. */
  function CheckboxUpdate(prev: seq<string>, id: string, state: CheckedState): (r: seq<string>)
    ensures state == Checked ==> id in r && forall x :: x != id ==> (x in r <==> x in prev)
    ensures state == Checked && id in prev ==> r == prev
    ensures state != Checked ==> forall x :: x in r <==> x in prev && x != id
  {
    if state == Checked then (if id in prev then prev else prev + [id]) else Without(prev, id)
  }

  /** Checking is idempotent and never introduces a repeat; clearing leaves no occurrence. */
  lemma CheckboxUpdateFacts(prev: seq<string>, id: string, state: CheckedState)
    ensures CheckboxUpdate(CheckboxUpdate(prev, id, Checked), id, Checked) == CheckboxUpdate(prev, id, Checked)
    ensures NoDuplicates(prev) ==> NoDuplicates(CheckboxUpdate(prev, id, state))
    ensures state != Checked ==> id !in CheckboxUpdate(prev, id, state)
  {
    if NoDuplicates(prev) {
      if state != Checked {
        FilterNoDuplicates(prev, Differs(id));
      } else if id !in prev {
        AppendNoDuplicates(prev, id);
      }
    }
  }

  // ---------------------------------------------------------------------------------------------

  class OrganizationsPageState {
    var searchTerm: string
    var categoryFilter: string
    var showWebsiteStatus: bool
    var selectedOrgIds: seq<string>
    var isSelectionMode: bool
    var selectedEmails: seq<string>
    var emailDialogOpen: bool
    var selectiveEmailCategory: string
    const data: DataStore

    constructor(data: DataStore)
      ensures searchTerm == "" && categoryFilter == "all" && !showWebsiteStatus
      ensures selectedOrgIds == [] && !isSelectionMode && selectedEmails == [] && !emailDialogOpen
      ensures selectiveEmailCategory == "all" && this.data == data
    {
      searchTerm := "";
      categoryFilter := "all";
      showWebsiteStatus := false;
      selectedOrgIds := [];
      isSelectionMode := false;
      selectedEmails := [];
      emailDialogOpen := false;
      selectiveEmailCategory := "all";
      this.data := data;
    }

    /** The selection never repeats an organization. */
    predicate Valid()
      reads this
    {
      NoDuplicates(selectedOrgIds)
    }

    twostate predicate ViewUnchanged()
      reads this
    {
      && searchTerm == old(searchTerm)
      && categoryFilter == old(categoryFilter)
      && showWebsiteStatus == old(showWebsiteStatus)
      && selectiveEmailCategory == old(selectiveEmailCategory)
    }

    twostate predicate RecipientsUnchanged()
      reads this
    {
      selectedEmails == old(selectedEmails) && emailDialogOpen == old(emailDialogOpen)
    }

    /** The status toggle button: flips the column and, with it, the ordering. */
    method ToggleWebsiteStatus()
      modifies this
      ensures showWebsiteStatus == !old(showWebsiteStatus)
      ensures searchTerm == old(searchTerm) && categoryFilter == old(categoryFilter)
      ensures selectiveEmailCategory == old(selectiveEmailCategory)
      ensures selectedOrgIds == old(selectedOrgIds) && isSelectionMode == old(isSelectionMode)
      ensures RecipientsUnchanged()
    {
      showWebsiteStatus := !showWebsiteStatus;
    }

    method ToggleOrgSelection(orgId: string)
      requires Valid()
      modifies this
      ensures Valid()
      ensures selectedOrgIds == Toggle(old(selectedOrgIds), orgId)
      ensures isSelectionMode == old(isSelectionMode) && ViewUnchanged() && RecipientsUnchanged()
    {
      ToggleKeepsNoDuplicates(selectedOrgIds, orgId);
      selectedOrgIds := Toggle(selectedOrgIds, orgId);
    }

    method OnCheckedChange(orgId: string, state: CheckedState)
      requires Valid()
      modifies this
      ensures Valid()
      ensures selectedOrgIds == CheckboxUpdate(old(selectedOrgIds), orgId, state)
      ensures isSelectionMode == old(isSelectionMode) && ViewUnchanged() && RecipientsUnchanged()
    {
      CheckboxUpdateFacts(selectedOrgIds, orgId, state);
      selectedOrgIds := CheckboxUpdate(selectedOrgIds, orgId, state);
    }

    /** Changing the dialog's category filter clears the selection. */
    method ChangeSelectiveCategory(value: string)
      modifies this
      ensures Valid()
      ensures selectiveEmailCategory == value && selectedOrgIds == []
      ensures searchTerm == old(searchTerm) && categoryFilter == old(categoryFilter)
      ensures showWebsiteStatus == old(showWebsiteStatus) && isSelectionMode == old(isSelectionMode)
      ensures RecipientsUnchanged()
    {
      selectiveEmailCategory := value;
      selectedOrgIds := [];
    }

    method HandleSendEmail(orgId: Option<string>)
      modifies this
      ensures selectedEmails == SendEmailRecipients(data.contacts, orgId) && emailDialogOpen
      ensures selectedOrgIds == old(selectedOrgIds) && isSelectionMode == old(isSelectionMode)
      ensures ViewUnchanged()
    {
      selectedEmails := SendEmailRecipients(data.contacts, orgId);
      emailDialogOpen := true;
    }

    /** First press: enter selection mode with nothing selected. Second press: address the selected
        organizations' contacts, then leave the mode with the selection cleared. */
    method HandleSelectiveEmail()
      modifies this
      ensures Valid()
      ensures selectedOrgIds == [] && isSelectionMode == !old(isSelectionMode)
      ensures !old(isSelectionMode) ==> RecipientsUnchanged()
      ensures old(isSelectionMode) ==>
                selectedEmails == SelectedRecipients(data.organizations, data.contacts, old(selectedOrgIds)) &&
                emailDialogOpen
      ensures ViewUnchanged()
    {
      if !isSelectionMode {
        isSelectionMode := true;
        selectedOrgIds := [];
      } else {
        selectedEmails := SelectedRecipients(data.organizations, data.contacts, selectedOrgIds);
        emailDialogOpen := true;
        isSelectionMode := false;
        selectedOrgIds := [];
      }
    }
  }
}

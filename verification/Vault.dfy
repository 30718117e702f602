/**
 The vault screen: the saved entries, the search over them, the quick actions
 offered above them, and loading an entry into the edit form.
 */
module Vault {
  import opened Wrappers
  import opened Text
  import opened Sequences

  /** A row of the `passwords` table. */
  datatype PasswordEntry = PasswordEntry(
    id: string,
    userId: string,
    title: string,
    username: string,
    password: string,
    url: Option<string>,
    notes: Option<string>,
    createdAt: string,
    updatedAt: string,
    categoryId: Option<string>)

  /** The add/edit form; every field is a plain string. */
  datatype FormData = FormData(title: string, username: string, password: string, url: string, notes: string)

  const EmptyForm := FormData("", "", "", "", "")

  // Search.

  /**
   The search test: the lower-cased query occurs in the lower-cased title,
   username, or url when there is one.
   */
  predicate MatchesQuery(entry: PasswordEntry, query: string) {
    var q := ToLower(query);
    Contains(ToLower(entry.title), q)
    || Contains(ToLower(entry.username), q)
    || (entry.url.Some? && Contains(ToLower(entry.url.value), q))
  }

  /** `handleSearch`: the empty query shows every entry, any other filters them. */
  function SearchResults(passwords: seq<PasswordEntry>, query: string): (r: seq<PasswordEntry>)
    ensures query == [] ==> r == passwords
    ensures query != [] ==> forall i :: 0 <= i < |r| ==> MatchesQuery(r[i], query)
  {
    if query == [] then passwords
    else Filter(e => MatchesQuery(e, query), passwords)
  }

  /** The results keep the order of the list; nothing is added or reordered. */
  lemma SearchKeepsOrder(passwords: seq<PasswordEntry>, query: string)
    ensures Subsequence(SearchResults(passwords, query), passwords)
  {
    if query == [] {
      SubsequenceReflexive(passwords);
    }
  }

  /** An entry is shown exactly when it is saved and the query matches it. */
  lemma SearchMember(passwords: seq<PasswordEntry>, query: string, entry: PasswordEntry)
    ensures entry in SearchResults(passwords, query) <==> entry in passwords && MatchesQuery(entry, query)
  {
    EmptyQueryMatches(entry);
    if query != [] {
      FilterMember(e => MatchesQuery(e, query), passwords, entry);
    }
  }

  /** Each matching entry is shown as many times as it is saved; others not at all. */
  lemma SearchCount(passwords: seq<PasswordEntry>, query: string)
    ensures forall e :: multiset(SearchResults(passwords, query))[e]
                        == (if MatchesQuery(e, query) then multiset(passwords)[e] else 0)
  {
    if query == [] {
      forall e ensures MatchesQuery(e, query) {
        EmptyQueryMatches(e);
      }
    } else {
      FilterCount(e => MatchesQuery(e, query), passwords);
    }
  }

  /** The empty string occurs in every title, so the early return agrees with filtering. */
  lemma EmptyQueryMatches(entry: PasswordEntry)
    ensures MatchesQuery(entry, "")
  {
    ContainsOccurs(ToLower(entry.title), "");
    assert OccursAt(ToLower(entry.title), "", 0);
  }

  /** With the empty query, filtering would keep every entry: the early return changes nothing. */
  lemma EmptyQueryFiltersNothing(passwords: seq<PasswordEntry>)
    ensures Filter(e => MatchesQuery(e, ""), passwords) == passwords
  {
    forall e | e in passwords ensures MatchesQuery(e, "") {
      EmptyQueryMatches(e);
    }
    FilterAll(e => MatchesQuery(e, ""), passwords);
  }

  /** An entry without a url can be found only through its title or username. */
  lemma NullUrlSearch(entry: PasswordEntry, query: string)
    requires entry.url.None?
    ensures MatchesQuery(entry, query) <==>
      Contains(ToLower(entry.title), ToLower(query)) || Contains(ToLower(entry.username), ToLower(query))
  {
  }

  /** Searching ignores the case of the query. */
  lemma SearchIgnoresCase(passwords: seq<PasswordEntry>, query: string)
    ensures SearchResults(passwords, ToLower(query)) == SearchResults(passwords, query)
  {
    ToLowerEmpty(query);
    ToLowerIdempotent(query);
    if query != [] {
      FilterAgree(e => MatchesQuery(e, ToLower(query)), e => MatchesQuery(e, query), passwords);
    }
  }

  // Quick actions.

  datatype Variant = Primary | Secondary | Danger

  /** A quick action: its label, its button style and whether it is hidden; the click handler is not modelled. */
  datatype QuickAction = QuickAction(caption: string, variant: Variant, hidden: bool)

  /** `passwords.some(p => p.url?.includes('amazon.com'))`, which is case-sensitive. */
  predicate AmazonSaved(passwords: seq<PasswordEntry>) {
    exists i :: 0 <= i < |passwords| && passwords[i].url.Some? && Contains(passwords[i].url.value, "amazon.com")
  }

  /** The three actions as declared, before hidden ones are dropped. */
  function DeclaredQuickActions(passwords: seq<PasswordEntry>): seq<QuickAction> {
    [QuickAction("Add Password", Primary, false),
     QuickAction("Add Amazon", Secondary, AmazonSaved(passwords)),
     QuickAction("Self-Destruct", Danger, false)]
  }

  predicate Shown(action: QuickAction) { !action.hidden }

  /** `quickActions`: the declared actions that are not hidden. */
  function QuickActions(passwords: seq<PasswordEntry>): seq<QuickAction> {
    Filter(Shown, DeclaredQuickActions(passwords))
  }

  /**
   "Add Password" and "Self-Destruct" are always offered; "Add Amazon" exactly
   when no saved url contains `amazon.com`; the declared order is kept.
   */
  lemma QuickActionsShown(passwords: seq<PasswordEntry>)
    ensures QuickAction("Add Password", Primary, false) in QuickActions(passwords)
    ensures QuickAction("Self-Destruct", Danger, false) in QuickActions(passwords)
    ensures QuickAction("Add Amazon", Secondary, false) in QuickActions(passwords) <==> !AmazonSaved(passwords)
    ensures forall a :: a in QuickActions(passwords) ==> !a.hidden
    ensures Subsequence(QuickActions(passwords), DeclaredQuickActions(passwords))
    ensures |QuickActions(passwords)| == if AmazonSaved(passwords) then 2 else 3
  {
    QuickActionsListed(passwords);
  }

  /** The rendered actions, listed out for both cases of the Amazon test. */
  lemma QuickActionsListed(passwords: seq<PasswordEntry>)
    ensures QuickActions(passwords) ==
      if AmazonSaved(passwords) then
        [QuickAction("Add Password", Primary, false), QuickAction("Self-Destruct", Danger, false)]
      else
        [QuickAction("Add Password", Primary, false), QuickAction("Add Amazon", Secondary, false),
         QuickAction("Self-Destruct", Danger, false)]
  {
    ShownActions(AmazonSaved(passwords));
  }

  /** The three declared actions filtered, whichever way "Add Amazon" is hidden. */
  lemma ShownActions(amazonHidden: bool)
    ensures Filter(Shown, [QuickAction("Add Password", Primary, false),
                           QuickAction("Add Amazon", Secondary, amazonHidden),
                           QuickAction("Self-Destruct", Danger, false)]) ==
      if amazonHidden then
        [QuickAction("Add Password", Primary, false), QuickAction("Self-Destruct", Danger, false)]
      else
        [QuickAction("Add Password", Primary, false), QuickAction("Add Amazon", Secondary, false),
         QuickAction("Self-Destruct", Danger, false)]
  {
    FilterThree(Shown, QuickAction("Add Password", Primary, false),
      QuickAction("Add Amazon", Secondary, amazonHidden), QuickAction("Self-Destruct", Danger, false));
  }

  /** The Amazon test is case-sensitive: a capitalised url does not hide the action. */
  lemma AmazonTestIsCaseSensitive(entry: PasswordEntry)
    requires entry.url == Some("AMAZON.COM")
    ensures !AmazonSaved([entry])
  {
    MissingCharacter("AMAZON.COM", "amazon.com", 'a');
  }

  // Editing.

  /** `handleEdit`'s form: the entry's fields, with a missing url or note as `''`. */
  function EditForm(entry: PasswordEntry): (f: FormData)
    ensures f.title == entry.title && f.username == entry.username && f.password == entry.password
    ensures entry.url.None? ==> f.url == ""
    ensures entry.url.Some? ==> f.url == entry.url.value
    ensures entry.notes.None? ==> f.notes == ""
    ensures entry.notes.Some? ==> f.notes == entry.notes.value
  {
    FormData(entry.title, entry.username, entry.password, OrEmpty(entry.url), OrEmpty(entry.notes))
  }

  /** `value || ''` */
  function OrEmpty(value: Option<string>): string {
    if value.Some? then value.value else ""
  }

  /** A missing url and an empty one load the same form. */
  lemma MissingAndEmptyUrlAlike(entry: PasswordEntry)
    ensures EditForm(entry.(url := None)) == EditForm(entry.(url := Some("")))
  {
  }

  /** The screen state that these handlers update. */
  class VaultScreen {
    var passwords: seq<PasswordEntry>
    var filteredPasswords: seq<PasswordEntry>
    var selectedPassword: Option<PasswordEntry>
    var formData: FormData
    var showAddModal: bool

    /** The initial state: nothing loaded, nothing selected, the form empty and closed. */
    constructor()
      ensures passwords == [] && filteredPasswords == []
      ensures selectedPassword == None && formData == EmptyForm && !showAddModal
    {
      passwords := [];
      filteredPasswords := [];
      selectedPassword := None;
      formData := EmptyForm;
      showAddModal := false;
    }

    /** The state updates of a successful fetch; `data` is the query's answer, possibly null. */
    method ReceivePasswords(data: Option<seq<PasswordEntry>>)
      modifies this
      ensures passwords == filteredPasswords
      ensures passwords == (if data.Some? then data.value else [])
      ensures selectedPassword == old(selectedPassword) && formData == old(formData)
      ensures showAddModal == old(showAddModal)
    {
      var rows := if data.Some? then data.value else [];
      passwords := rows;
      filteredPasswords := rows;
    }

    method HandleSearch(query: string)
      modifies this
      ensures filteredPasswords == SearchResults(passwords, query)
      ensures passwords == old(passwords) && selectedPassword == old(selectedPassword)
      ensures formData == old(formData) && showAddModal == old(showAddModal)
    {
      if query == [] {
        filteredPasswords := passwords;
        return;
      }
      filteredPasswords := Filter(e => MatchesQuery(e, query), passwords);
    }

    method HandleEdit(entry: PasswordEntry)
      modifies this
      ensures selectedPassword == Some(entry) && formData == EditForm(entry) && showAddModal
      ensures passwords == old(passwords) && filteredPasswords == old(filteredPasswords)
    {
      selectedPassword := Some(entry);
      formData := EditForm(entry);
      showAddModal := true;
    }
  }
}

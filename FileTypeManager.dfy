/**
 * The file-type list (src/components/FileTypeManager.tsx): case-insensitive search,
 * confirmed deletion, and whether the create/edit form is open.
 */
module FileTypeManager {
  import opened Wrappers
  import opened Types
  import opened Text
  import opened Effects

  /** Lines 27-30: the search term occurs, ignoring case, in the name or in the description. */
  predicate MatchesSearch(ft: FileType, term: string) {
    Includes(Lower(ft.name), Lower(term)) || Includes(Lower(ft.description), Lower(term))
  }

  /** `a` is `b` with some entries removed, the rest kept in order. */
  predicate IsSubsequence<T(==)>(a: seq<T>, b: seq<T>)
    decreases |b|
  {
    a == [] || (b != [] && ((a[0] == b[0] && IsSubsequence(a[1..], b[1..])) || IsSubsequence(a, b[1..])))
  }

  lemma {:induction false} SubsequenceOfTail<T>(a: seq<T>, x: T, b: seq<T>)
    requires IsSubsequence(a, b)
    ensures IsSubsequence(a, [x] + b)
  {
    assert ([x] + b)[1..] == b;
  }

  /** Lines 27-30: `fileTypes.filter(...)`, keeping exactly the matching entries, in their order. */
  function FilterFileTypes(fileTypes: seq<FileType>, term: string): (r: seq<FileType>)
    ensures IsSubsequence(r, fileTypes)
    ensures forall ft :: ft in r ==> ft in fileTypes && MatchesSearch(ft, term)
    ensures forall ft :: ft in fileTypes && MatchesSearch(ft, term) ==> ft in r
    ensures forall ft :: multiset(r)[ft] == if MatchesSearch(ft, term) then multiset(fileTypes)[ft] else 0
  {
    if fileTypes == [] then []
    else
      var rest := FilterFileTypes(fileTypes[1..], term);
      assert fileTypes == [fileTypes[0]] + fileTypes[1..];
      assert multiset(fileTypes) == multiset{fileTypes[0]} + multiset(fileTypes[1..]);
      if MatchesSearch(fileTypes[0], term) then
        assert ([fileTypes[0]] + rest)[1..] == rest;
        [fileTypes[0]] + rest
      else
        SubsequenceOfTail(rest, fileTypes[0], fileTypes[1..]);
        rest
  }

  /** An empty search term shows every file type. */
  lemma {:induction false} EmptySearchKeepsAll(fileTypes: seq<FileType>)
    ensures FilterFileTypes(fileTypes, "") == fileTypes
  {
    if fileTypes != [] {
      IncludesEmpty(Lower(fileTypes[0].name));
      EmptySearchKeepsAll(fileTypes[1..]);
    }
  }

  /** Typing more characters never brings back an entry: the longer term's result is a subsequence. */
  lemma {:induction false} LongerSearchNarrows(fileTypes: seq<FileType>, term: string, more: string)
    ensures IsSubsequence(FilterFileTypes(fileTypes, term + more), FilterFileTypes(fileTypes, term))
  {
    if fileTypes != [] {
      var ft := fileTypes[0];
      var narrow, wide := FilterFileTypes(fileTypes[1..], term + more), FilterFileTypes(fileTypes[1..], term);
      LongerSearchNarrows(fileTypes[1..], term, more);
      LowerAppend(term, more);
      if MatchesSearch(ft, term + more) {
        if Includes(Lower(ft.name), Lower(term) + Lower(more)) {
          IncludesPrefix(Lower(ft.name), Lower(term), Lower(more));
        } else {
          IncludesPrefix(Lower(ft.description), Lower(term), Lower(more));
        }
        assert ([ft] + narrow)[1..] == narrow && ([ft] + wide)[1..] == wide;
      } else if MatchesSearch(ft, term) {
        SubsequenceOfTail(narrow, ft, wide);
      }
    }
  }

  /** Line 102: an empty description is shown as 'No description'. */
  function DescriptionShown(ft: FileType): (s: string)
    ensures s != ""
    ensures ft.description != "" ==> s == ft.description
  {
    if ft.description != "" then ft.description else "No description"
  }

  /** Lines 20-25: a finished delete invalidates the file-type list, once, and nothing else. */
  function DeleteSucceeded(): (r: seq<Effect>)
    ensures |r| == 1
    ensures forall k :: Refreshed(r, k) <==> k == FileTypesQuery
  {
    [Invalidate(FileTypesPrefix)]
  }

  /** The cached detail of a deleted file type is not invalidated, although the server no longer has it. */
  lemma DeleteLeavesDetailCached(id: int)
    ensures StaleAfter(DeleteFileType(id), FileTypeQuery(Some(id)))
    ensures !Refreshed(DeleteSucceeded(), FileTypeQuery(Some(id)))
  {
  }

  /** The component's own state. */
  class ManagerView {
    var isFormOpen: bool
    var editingFileType: Option<FileType>
    var searchTerm: string

    /** The edited file type is only kept while the form is open. */
    ghost predicate Valid()
      reads this
    {
      !isFormOpen ==> editingFileType.None?
    }

    /** Lines 10-12. */
    constructor()
      ensures Valid()
      ensures !isFormOpen && editingFileType == None && searchTerm == ""
    {
      isFormOpen := false;
      editingFileType := None;
      searchTerm := "";
    }

    /** Lines 27-30 over the fetched list. */
    function VisibleFileTypes(fetched: seq<FileType>): (r: seq<FileType>)
      reads this
      ensures forall ft :: ft in r <==> ft in fetched && MatchesSearch(ft, searchTerm)
    {
      FilterFileTypes(fetched, searchTerm)
    }

    /** Line 74. */
    method SetSearchTerm(term: string)
      modifies this
      ensures searchTerm == term
      ensures isFormOpen == old(isFormOpen) && editingFileType == old(editingFileType)
    {
      searchTerm := term;
    }

    /** Line 62: "Add File Type" opens the form; from a closed form nothing is being edited. */
    method OpenCreateForm()
      requires Valid()
      modifies this
      ensures Valid() && isFormOpen
      ensures editingFileType == old(editingFileType) && searchTerm == old(searchTerm)
      ensures !old(isFormOpen) ==> editingFileType == None
    {
      isFormOpen := true;
    }

    /** Lines 32-35. */
    method HandleEdit(ft: FileType)
      modifies this
      ensures Valid() && isFormOpen && editingFileType == Some(ft)
      ensures searchTerm == old(searchTerm)
    {
      editingFileType := Some(ft);
      isFormOpen := true;
    }

    /** Lines 43-46: closing (or a successful submit) closes the form and forgets the edited entry. */
    method HandleFormClose()
      modifies this
      ensures Valid() && !isFormOpen && editingFileType == None
      ensures searchTerm == old(searchTerm)
    {
      isFormOpen := false;
      editingFileType := None;
    }

    /**
     * Lines 37-41 and 113-115: the delete button is disabled while a delete is pending;
     * otherwise the user's answer to the confirmation dialog is `confirmed`, and only a
     * confirmed delete issues the mutation, for that file type's id.
     */
    method HandleDelete(ft: FileType, deletePending: bool, confirmed: bool) returns (effects: seq<Effect>)
      ensures effects != [] <==> !deletePending && confirmed
      ensures effects != [] ==> effects == [Mutate(DeleteFileType(ft.id))]
    {
      effects := [];
      if !deletePending && confirmed {
        effects := [Mutate(DeleteFileType(ft.id))];
      }
    }
  }
}

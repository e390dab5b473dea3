/**
 * The create/edit dialog for a file type (src/components/FileTypeForm.tsx): loading
 * the detail into the form, the three submit paths, and what each success refreshes.
 */
module FileTypeForm {
  import opened Wrappers
  import opened Json
  import opened Types
  import opened Effects

  /** Lines 22-26: the initial form. */
  const EmptyForm: FormData := FormData("", "", EmptyObject)

  /** The state of one react-query mutation as the form reads it. */
  datatype MutationStatus = Idle | Pending | Errored(message: string) | Succeeded

  /** Line 97: `a.isPending || b.isPending || ...`. */
  function AnyPending(statuses: seq<MutationStatus>): (r: bool)
    ensures r <==> exists i :: 0 <= i < |statuses| && statuses[i].Pending?
  {
    if statuses == [] then false
    else
      assert forall i :: 1 <= i < |statuses| ==> statuses[i] == statuses[1..][i - 1];
      statuses[0].Pending? || AnyPending(statuses[1..])
  }

  /** Position `i` holds the first failed mutation, and it failed with `message`. */
  ghost predicate IsFirstFailure(statuses: seq<MutationStatus>, i: int, message: string) {
    && 0 <= i < |statuses|
    && statuses[i] == Errored(message)
    && forall j :: 0 <= j < i ==> !statuses[j].Errored?
  }

  /** Line 98: `a.error || b.error || ...`, the message of the first failed mutation. */
  function FirstError(statuses: seq<MutationStatus>): (r: Option<string>)
    ensures r.None? <==> forall i :: 0 <= i < |statuses| ==> !statuses[i].Errored?
    ensures r.Some? ==> exists i :: IsFirstFailure(statuses, i, r.value)
  {
    if statuses == [] then None
    else if statuses[0].Errored? then
      assert IsFirstFailure(statuses, 0, statuses[0].message);
      Some(statuses[0].message)
    else
      var rest := FirstError(statuses[1..]);
      assert forall i :: 1 <= i < |statuses| ==> statuses[i] == statuses[1..][i - 1];
      if rest.Some? then
        assert exists i :: IsFirstFailure(statuses, i, rest.value) by {
          var i :| IsFirstFailure(statuses[1..], i, rest.value);
          assert IsFirstFailure(statuses, i + 1, rest.value);
        }
        rest
      else
        rest
  }

  /** The id of an optional file type, `fileType?.id`. */
  function IdOf(fileType: Option<FileType>): (r: Option<int>)
    ensures r.Some? <==> fileType.Some?
    ensures r.Some? ==> r.value == fileType.value.id
  {
    if fileType.Some? then Some(fileType.value.id) else None
  }

  /** The prompts a mutation sends to the server, if it sends any. */
  function SentPrompts(m: Mutation): Option<Json> {
    match m
    case CreateFileType(data) => Some(data.processingPrompts)
    case UpdateFileType(_, data) => Some(data.processingPrompts)
    case UpdateFileTypePrompts(_, prompts) => Some(prompts)
    case _ => None
  }

  /** The file type a mutation writes to, if it names one. */
  function TargetId(m: Mutation): Option<int> {
    match m
    case UpdateFileType(id, _) => Some(id)
    case UpdateFileTypePrompts(id, _) => Some(id)
    case DeleteFileType(id) => Some(id)
    case _ => None
  }

  /**
   * Lines 77-95: the one mutation a submit issues. A new file type is created from the
   * whole form; an edited one is updated in full, or only its prompts when the
   * prompts-only box is ticked. Every path sends the editor's current prompts, and
   * only the edit paths name a file type, the edited one.
   */
  function SubmitMutation(fileType: Option<FileType>, isPromptsOnly: bool, formData: FormData): (m: Mutation)
    ensures m.CreateFileType? <==> fileType.None?
    ensures m.UpdateFileTypePrompts? <==> fileType.Some? && isPromptsOnly
    ensures m.CreateFileType? || m.UpdateFileType? || m.UpdateFileTypePrompts?
    ensures SentPrompts(m) == Some(formData.processingPrompts)
    ensures TargetId(m) == IdOf(fileType)
    ensures !m.UpdateFileTypePrompts? ==> (m.CreateFileType? || m.UpdateFileType?) && m.data == formData
  {
    if fileType.Some? then
      if isPromptsOnly then UpdateFileTypePrompts(fileType.value.id, formData.processingPrompts)
      else UpdateFileType(fileType.value.id, formData)
    else CreateFileType(formData)
  }

  /**
   * Lines 49-75: the `onSuccess` of the mutation `m` issued by the form for
   * `fileType`. Invalidations come first, the parent's callback last; a create
   * refreshes the list, an update the list and `['fileType', fileType?.id]`.
   */
  function OnMutationSuccess(m: Mutation, fileType: Option<FileType>): (r: seq<Effect>)
    requires m.CreateFileType? || m.UpdateFileType? || m.UpdateFileTypePrompts?
    ensures |r| >= 1 && r[|r| - 1] == NotifySuccess
    ensures forall i :: 0 <= i < |r| - 1 ==> r[i].Invalidate?
    ensures forall k :: Refreshed(r, k) <==> k == FileTypesQuery || (!m.CreateFileType? && k == FileTypeQuery(IdOf(fileType)))
  {
    if m.CreateFileType? then
      assert forall k :: Refreshed([Invalidate(FileTypesPrefix), NotifySuccess], k) ==> k == FileTypesQuery;
      [Invalidate(FileTypesPrefix), NotifySuccess]
    else
      [Invalidate(FileTypesPrefix), Invalidate(FileTypePrefix(IdOf(fileType))), NotifySuccess]
  }

  /**
   * Whatever path a submit takes, its success refreshes every cached query the write
   * made stale (a prompts-only update refreshes the list as well).
   */
  lemma SubmitSuccessRefreshesStale(fileType: Option<FileType>, isPromptsOnly: bool, formData: FormData)
    ensures var m := SubmitMutation(fileType, isPromptsOnly, formData);
      forall k :: StaleAfter(m, k) ==> Refreshed(OnMutationSuccess(m, fileType), k)
  {
  }

  /** The form's own state, for the `fileType` it was opened with (`null` for a new one). */
  class FormView {
    const fileType: Option<FileType>
    var formData: FormData
    var isPromptsOnly: bool

    /** The prompts-only box is only offered while editing (line 131), so a ticked box implies an edit. */
    ghost predicate Valid()
      reads this
    {
      isPromptsOnly ==> fileType.Some?
    }

    /** Lines 22-27. */
    constructor(fileType: Option<FileType>)
      ensures Valid()
      ensures this.fileType == fileType && formData == EmptyForm && !isPromptsOnly
    {
      this.fileType := fileType;
      formData := EmptyForm;
      isPromptsOnly := false;
    }

    /** Lines 39-47: once the detail query has data, an edit form takes its three fields from it. */
    method LoadDetail(detail: Option<FileTypeDetail>)
      requires Valid()
      modifies this
      ensures Valid()
      ensures fileType.Some? && detail.Some? ==>
        formData == FormData(detail.value.name, detail.value.description, detail.value.processingPrompts)
      ensures !(fileType.Some? && detail.Some?) ==> formData == old(formData)
      ensures isPromptsOnly == old(isPromptsOnly)
    {
      if fileType.Some? && detail.Some? {
        formData := FormData(detail.value.name, detail.value.description, detail.value.processingPrompts);
      }
    }

    /** Line 158. */
    method SetName(name: string)
      requires Valid()
      modifies this
      ensures Valid()
      ensures formData == old(formData).(name := name) && isPromptsOnly == old(isPromptsOnly)
    {
      formData := formData.(name := name);
    }

    /** Line 172. */
    method SetDescription(description: string)
      requires Valid()
      modifies this
      ensures Valid()
      ensures formData == old(formData).(description := description) && isPromptsOnly == old(isPromptsOnly)
    {
      formData := formData.(description := description);
    }

    /** Line 182: the prompt editor reports new prompts. */
    method SetPrompts(prompts: Json)
      requires Valid()
      modifies this
      ensures Valid()
      ensures formData == old(formData).(processingPrompts := prompts) && isPromptsOnly == old(isPromptsOnly)
    {
      formData := formData.(processingPrompts := prompts);
    }

    /** Lines 131-137: the checkbox is rendered only for an edit. */
    method SetPromptsOnly(checked: bool)
      requires fileType.Some?
      modifies this
      ensures Valid() && isPromptsOnly == checked && formData == old(formData)
    {
      isPromptsOnly := checked;
    }

    /**
     * Lines 77-95, 156 and 203: a submit goes through only when the submit button is
     * enabled (no mutation pending) and, when the name field is shown, the required
     * name is filled in; it then issues exactly the mutation `SubmitMutation` names.
     */
    method HandleSubmit(statuses: seq<MutationStatus>) returns (m: Option<Mutation>)
      requires Valid()
      ensures m.None? <==> AnyPending(statuses) || (!isPromptsOnly && formData.name == "")
      ensures m.Some? ==> m.value == SubmitMutation(fileType, isPromptsOnly, formData)
      ensures m.Some? && m.value.CreateFileType? ==> m.value.data.name != ""
    {
      if AnyPending(statuses) || (!isPromptsOnly && formData.name == "") {
        m := None;
      } else if fileType.Some? {
        if isPromptsOnly {
          m := Some(UpdateFileTypePrompts(fileType.value.id, formData.processingPrompts));
        } else {
          m := Some(UpdateFileType(fileType.value.id, formData));
        }
      } else {
        m := Some(CreateFileType(formData));
      }
    }
  }
}

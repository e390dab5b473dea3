/**
 * What the components ask of the outside world: server writes (mutations), cache
 * invalidations, alerts and the parent's success callback. The handlers return
 * these as values instead of performing them.
 */
module Effects {
  import opened Wrappers
  import opened Json
  import opened Types

  /** The cached queries: `['files', statusFilter]`, `['fileTypes']` and `['fileType', id]`. */
  datatype QueryKey =
    | FilesQuery(statusFilter: Option<FileStatus>)
    | FileTypesQuery
    /** `['fileType', fileType?.id]`: the id is undefined for a form that creates. */
    | FileTypeQuery(id: Option<int>)

  /** The keys passed to `invalidateQueries`; react-query matches them as prefixes. */
  datatype KeyPrefix = FilesPrefix | FileTypesPrefix | FileTypePrefix(id: Option<int>)

  /** Prefix matching: `['files']` matches the file list under every status filter. */
  predicate Covers(p: KeyPrefix, k: QueryKey) {
    match p
    case FilesPrefix => k.FilesQuery?
    case FileTypesPrefix => k.FileTypesQuery?
    case FileTypePrefix(id) => k == FileTypeQuery(id)
  }

  /** The server writes the components issue. */
  datatype Mutation =
    | Upload(file: DroppedFile, fileTypeId: int)
    | CreateFileType(data: FormData)
    | UpdateFileType(id: int, data: FormData)
    | UpdateFileTypePrompts(id: int, prompts: Json)
    | DeleteFileType(id: int)

  datatype Effect =
    | Mutate(mutation: Mutation)
    | Invalidate(prefix: KeyPrefix)
    | Alert(message: string)
    /** The parent's `onSuccess` callback. */
    | NotifySuccess

  /**
   * The cached queries whose server data a successful mutation changes: an upload
   * adds a file, a create adds a list entry, an update changes the list entry and the
   * detail, a prompts-only update changes the detail, a delete removes both.
   */
  predicate StaleAfter(m: Mutation, k: QueryKey) {
    match m
    case Upload(_, _) => k.FilesQuery?
    case CreateFileType(_) => k == FileTypesQuery
    case UpdateFileType(id, _) => k == FileTypesQuery || k == FileTypeQuery(Some(id))
    case UpdateFileTypePrompts(id, _) => k == FileTypeQuery(Some(id))
    case DeleteFileType(id) => k == FileTypesQuery || k == FileTypeQuery(Some(id))
  }

  /** Some effect in the list invalidates query `k`. */
  predicate Refreshed(effects: seq<Effect>, k: QueryKey) {
    exists e :: e in effects && e.Invalidate? && Covers(e.prefix, k)
  }
}

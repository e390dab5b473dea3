/** The entities of the dashboard (src/types/index.ts) and the browser values the components consume. */
module Types {
  import opened Wrappers
  import opened Json

  /** `FileRecord.status`: a closed enumeration observed from the backend. */
  datatype FileStatus = Uploaded | Queued | Processing | Completed | Failed

  /** The five statuses, in the order the type declares them. */
  const AllStatuses: seq<FileStatus> := [Uploaded, Queued, Processing, Completed, Failed]

  /** An uploaded file as the backend lists it; `batchId`/`batchName` are optional. */
  datatype FileRecord = FileRecord(
    id: int,
    originalName: string,
    uniqueName: string,
    fileTypeId: int,
    status: FileStatus,
    createdAt: string,
    batchId: Option<int>,
    batchName: Option<string>)

  /** The summary shape of a file type, used in lists and selectors. */
  datatype FileType = FileType(id: int, name: string, description: string)

  /** The full shape of a file type, fetched when it is edited. */
  datatype FileTypeDetail = FileTypeDetail(
    id: int,
    name: string,
    description: string,
    processingPrompts: Json,
    createdAt: string,
    updatedAt: string)

  /** The editable fields of the file-type form. */
  datatype FormData = FormData(name: string, description: string, processingPrompts: Json)

  /** A browser `File` as the drop zone hands it over: its name and its MIME type. */
  datatype DroppedFile = DroppedFile(name: string, mimeType: string)
}

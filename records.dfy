/**
 * The values that travel through the pipeline: the inbound request, the
 * persisted entity, the domain record and the API response.
 */
module Records {

  import opened Wrappers

  /** LocalDateTime, as an ordered count of ticks. */
  type Instant = int

  datatype Status = SUCCESS | FAILED

  /** Enum.name(). */
  function StatusName(s: Status): string {
    match s
    case SUCCESS => "SUCCESS"
    case FAILED => "FAILED"
  }

  /** Enum.valueOf(String), which throws for an unknown name. */
  function StatusValueOf(name: string): Option<Status> {
    if name == "SUCCESS" then Some(SUCCESS)
    else if name == "FAILED" then Some(FAILED)
    else None
  }

  lemma StatusNameRoundTrip(s: Status)
    ensures StatusValueOf(StatusName(s)) == Some(s)
  {
  }

  /** The POST body: whose profile to capture, whom to mail, whether to sign in first. */
  datatype ScreenshotRequest = ScreenshotRequest(githubUsername: string, recipientEmail: string, withLogin: bool)

  /** A row of the screenshot_records table. `id` is assigned by the store on save;
      `errorMessage` is filled only for FAILED rows. */
  datatype Entity = Entity(
    id: Option<string>,
    githubUsername: string,
    recipientEmail: string,
    fileName: string,
    filePath: string,
    fileSizeBytes: int,
    sentAt: Instant,
    status: Status,
    errorMessage: Option<string>)

  /** The domain record returned by the service. */
  datatype ScreenshotRecord = ScreenshotRecord(
    imageId: Option<string>,
    githubUsername: string,
    recipientEmail: string,
    fileName: string,
    path: string,
    fileSize: int,
    sentAt: Instant,
    status: Option<Status>)

  /** The API response: as the record, with the status as its enum name. */
  datatype ScreenshotResponse = ScreenshotResponse(
    imageId: Option<string>,
    githubUsername: string,
    recipientEmail: string,
    fileName: string,
    path: string,
    fileSize: int,
    sentAt: Instant,
    status: Option<string>)

  /** CustomPage: a page of items with its position in the whole result. */
  datatype CustomPage<T> = CustomPage(
    content: Option<seq<Option<T>>>,
    pageNumber: int,
    pageSize: int,
    totalElementCount: int,
    totalPageCount: int)

  /** CustomPagingResponse: the same shape, carried in the HTTP response. */
  datatype CustomPagingResponse<T> = CustomPagingResponse(
    content: Option<seq<Option<T>>>,
    totalElementCount: int,
    totalPageCount: int,
    pageNumber: int,
    pageSize: int)
}

/**
  The fields of yt-dlp's progress report (`comms::DownloadStatus` and the
  `comms::InfoDict` it carries) that the session logic reads. Floating-point
  fields are not modelled; `total_bytes_estimate` is kept already converted
  to a whole number of bytes, as `f64 as usize` leaves it.
 */
module Status {
  import opened Wrappers
  import opened Bytes

  type U32 = x: int | 0 <= x < 0x1_0000_0000

  datatype InfoDict = InfoDict(
    creator: Option<string>,
    uploader: string,
    title: string,
    displayId: string,
    artist: Option<string>,
    duration: U32,
    description: string,
    webpageUrl: string,
    acodec: string,
    vcodec: string,
    realDownload: bool)   // `__real_download`

  datatype DownloadStatus = DownloadStatus(
    status: string,
    info: InfoDict,
    downloadedBytes: Usize,
    totalBytes: Option<Usize>,
    totalBytesEstimate: Option<Usize>)

  /** `DownloadStatus::default()`: empty strings, zeroes, None and false. */
  const DefaultStatus: DownloadStatus :=
    DownloadStatus("", InfoDict(None, "", "", "", None, 0, "", "", "", "", false), 0, None, None)
}

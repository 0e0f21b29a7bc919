/**
  What a session derives from one decoded status report (src/main.rs, the
  `Message::JSON` arm): the progress bar's message, length and position, and
  the completion record a finished real download writes to the DB. The bar
  itself is rendered by indicatif; the model keeps only these values.
 */
module Sink {
  import opened Wrappers
  import opened Status
  import opened Store

  /** `ProgressBar::new_spinner()` / `ProgressStyle::default_spinner()`, or the byte-bar template. */
  datatype Style = Spinner | ByteBar

  datatype ProgressBar = ProgressBar(message: string, length: nat, position: nat, style: Style)

  /** `ProgressBar::new_spinner()` followed by `set_length(10000)`. */
  const NewBar: ProgressBar := ProgressBar("", 10000, 0, Spinner)

  /** `creator`, or else `uploader`. */
  function Author(info: InfoDict): (r: string)
    ensures info.creator.Some? ==> r == info.creator.value
    ensures info.creator.None? ==> r == info.uploader
  {
    info.creator.GetOr(info.uploader)
  }

  /** `"{creator or uploader} - {title} [{display_id}]"`. */
  function Label(st: DownloadStatus): string
  {
    Author(st.info) + " - " + st.info.title + " [" + st.info.displayId + "]"
  }

  /**
    The bar message is the author, " - ", the title, " [", the display id
    and "]", in that order, with nothing else in between.
   */
  lemma LabelLayout(st: DownloadStatus)
    ensures var r, a, t, id := Label(st), Author(st.info), st.info.title, st.info.displayId;
            |r| == |a| + |t| + |id| + 6 &&
            r[..|a|] == a &&
            r[|a|..|a| + 3] == " - " &&
            r[|a| + 3..|a| + 3 + |t|] == t &&
            r[|a| + 3 + |t|..|a| + 5 + |t|] == " [" &&
            r[|r| - |id| - 1..|r| - 1] == id &&
            r[|r| - 1] == ']'
  {
  }

  /** `total_bytes`, else the truncated `total_bytes_estimate`, else 0. */
  function BarLength(st: DownloadStatus): (r: nat)
    ensures st.totalBytes.Some? ==> r == st.totalBytes.value
    ensures st.totalBytes.None? && st.totalBytesEstimate.Some? ==> r == st.totalBytesEstimate.value
    ensures st.totalBytes.None? && st.totalBytesEstimate.None? ==> r == 0
  {
    st.totalBytes.GetOr(st.totalBytesEstimate.GetOr(0))
  }

  /** `set_message`, `set_length`, `set_position` from one report; the style is left alone. */
  function Report(bar: ProgressBar, st: DownloadStatus): (r: ProgressBar)
    ensures r.message == Label(st) && r.length == BarLength(st)
    ensures r.position == st.downloadedBytes
    ensures r.style == bar.style
  {
    ProgressBar(Label(st), BarLength(st), st.downloadedBytes, bar.style)
  }

  /** A report overwrites everything it sets: what the bar showed before leaves no trace but the style. */
  lemma ReportOverwrites(b1: ProgressBar, b2: ProgressBar, st: DownloadStatus)
    requires b1.style == b2.style
    ensures Report(b1, st) == Report(b2, st)
    ensures Report(Report(b1, st), st) == Report(b1, st)
  {
  }

  /** Whether a report marks a genuine finished download, the only kind that is recorded. */
  predicate IsCompletion(st: DownloadStatus)
  {
    st.status == "finished" && st.info.realDownload
  }

  /**
    The `NewVideo` a finished, real download is recorded as: uid from
    `display_id`, link from `webpage_url`, author from `artist`; title,
    duration and description copied.
   */
  function CompletionRecord(st: DownloadStatus): (r: Option<NewVideo>)
    ensures r.Some? <==> IsCompletion(st)
    ensures r.Some? ==> r.value.uid == st.info.displayId && r.value.link == Some(st.info.webpageUrl)
    ensures r.Some? ==> r.value.title == Some(st.info.title) && r.value.author == st.info.artist
    ensures r.Some? ==> r.value.duration == Some(st.info.duration as int)
    ensures r.Some? ==> r.value.description == Some(st.info.description)
  {
    if IsCompletion(st) then
      Some(NewVideo(
        uid := st.info.displayId,
        link := Some(st.info.webpageUrl),
        title := Some(st.info.title),
        author := st.info.artist,
        duration := Some(st.info.duration as int),
        description := Some(st.info.description)))
    else None
  }
}

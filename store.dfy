/**
  The `videos` table of links.db as the master uses it: the uids it loads
  once at start-up, and the rows it appends (`models::NewVideo`).
 */
module Store {
  import opened Wrappers

  /** `models::NewVideo`. `duration` is an `i64` filled from a `u32`. */
  datatype NewVideo = NewVideo(
    uid: string,
    link: Option<string>,
    title: Option<string>,
    author: Option<string>,
    duration: Option<int>,
    description: Option<string>)

  function UidsOf(rows: seq<NewVideo>): (r: seq<string>)
    ensures |r| == |rows| && forall i :: 0 <= i < |rows| ==> r[i] == rows[i].uid
  {
    if rows == [] then [] else [rows[0].uid] + UidsOf(rows[1..])
  }

  /** The table. Inserts append; nothing is ever changed or removed. */
  class VideoStore {
    var rows: seq<NewVideo>

    constructor (rows: seq<NewVideo>)
      ensures this.rows == rows
    {
      this.rows := rows;
    }

    /** `videos.select(..).load(..)` mapped to uids: the downloaded_videos list. */
    function Uids(): (r: seq<string>)
      reads this
      ensures |r| == |rows|
    {
      UidsOf(rows)
    }

    /** `diesel::insert_into(videos).values(v).execute(..)`. */
    method Insert(v: NewVideo)
      modifies this
      ensures rows == old(rows) + [v]
    {
      rows := rows + [v];
    }
  }
}

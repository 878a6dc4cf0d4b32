/** The values the playback dispatcher works on: a video whose resume offset it
    rewrites in place, and the shared FIFO of videos waiting to be played
    (the injected java.util.LinkedList<VideoContentInfo>). */
module Media {

  datatype Option<T> = None | Some(value: T)

  /** A playable video. Whether it counts as partially watched is decided by
      code that is not part of this model; it may depend on the resume
      offset, so nothing is known of it once the offset has been set. */
  class VideoContentInfo {
    /** Stored playback position; 0 means "from the start". */
    var resumeOffset: int
    /** Stands for isPartiallyWatched() on the video's current state. */
    var partiallyWatched: bool

    constructor (resumeOffset: int, partiallyWatched: bool)
      ensures this.resumeOffset == resumeOffset && this.partiallyWatched == partiallyWatched
    {
      this.resumeOffset := resumeOffset;
      this.partiallyWatched := partiallyWatched;
    }

    /** setResumeOffset: stores the new offset; the contract leaves the watch
        state open, since it is derived by code outside this model. */
    method SetResumeOffset(offset: int)
      modifies this
      ensures resumeOffset == offset
    {
      resumeOffset := offset;
    }
  }

  /** The video queue: items are added at the tail and polled from the head.
      The same object is shared with the screens that enqueue videos. */
  class VideoQueue {
    var items: seq<VideoContentInfo>

    constructor (items: seq<VideoContentInfo>)
      ensures this.items == items
    {
      this.items := items;
    }

    method IsEmpty() returns (empty: bool)
      ensures empty <==> items == []
    {
      empty := |items| == 0;
    }

    method Clear()
      modifies this
      ensures items == []
    {
      items := [];
    }

    method Add(video: VideoContentInfo)
      modifies this
      ensures items == old(items) + [video]
    {
      items := items + [video];
    }

    /** Removes and returns the head, or returns None (Java's null) on an empty queue. */
    method Poll() returns (head: Option<VideoContentInfo>)
      modifies this
      ensures old(items) == [] ==> head == None && items == []
      ensures old(items) != [] ==> head == Some(old(items)[0]) && items == old(items)[1..]
    {
      if |items| == 0 {
        head := None;
      } else {
        head := Some(items[0]);
        items := items[1..];
      }
    }
  }

  /** First in, first out: two videos added to an empty queue come back in
      the order they went in, and then the queue is empty. */
  method FifoLaw(a: VideoContentInfo, b: VideoContentInfo)
    returns (first: Option<VideoContentInfo>, second: Option<VideoContentInfo>, third: Option<VideoContentInfo>)
    ensures first == Some(a) && second == Some(b) && third == None
  {
    var q := new VideoQueue([]);
    q.Add(a);
    q.Add(b);
    first := q.Poll();
    second := q.Poll();
    third := q.Poll();
  }
}

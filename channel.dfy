/** The device command channel as the client sees it: the requests it can
    issue, the events a session leaves behind, the tracking statuses the
    device reports, and the failures a call can end in.

    The camera is an oracle. Reply bodies come from a script, in order, and
    a request that finds the script exhausted fails as a transport error,
    the way `requests` raises when the device does not answer. */
module Channel {

  datatype Option<+T> = None | Some(value: T)

  /** The ways a client operation can fail. */
  datatype Error =
    | Transport    // the device gave no reply
    | Protocol     // a reply did not have the shape the client reads
    | OutOfRange   // a motion target outside the accepted pan/tilt range
    | NotFound     // a preset index that the directory cannot resolve

  datatype Result<+T> = Ok(value: T) | Err(error: Error)

  /** The status the tracking subsystem reports (the `Status` member of its JSON reply). */
  datatype TrackingStatus = Waiting | Tracking | Missing | Sleep

  datatype Request =
    | Get(url: string)
    | Delete(url: string)
    | Put(url: string)
    | Post(url: string, body: string)

  /** What a session does, in order: a request sent, or a pause of some milliseconds. */
  datatype Event = Http(request: Request) | Pause(millis: int)

  /** The reply the next request receives from a script of reply bodies. */
  function ReplyOf<T>(script: seq<T>): (r: Result<T>)
    ensures r.Ok? <==> script != []
    ensures r.Ok? ==> r.value == script[0]
  {
    if script == [] then Err(Transport) else Ok(script[0])
  }

  /** The script left once one request has been answered (or has failed). */
  function Rest<T>(script: seq<T>): (r: seq<T>)
    ensures script != [] ==> |r| == |script| - 1 && r == script[1..]
    ensures script == [] ==> r == []
  {
    if script == [] then [] else script[1..]
  }

  /** The number of times `url` is fetched with a GET in `events`. */
  function Fetches(events: seq<Event>, url: string): nat
  {
    if events == [] then 0
    else Fetches(events[..|events| - 1], url) + (if events[|events| - 1] == Http(Get(url)) then 1 else 0)
  }

  /** The total length of the pauses in `events`, in milliseconds. */
  function Paused(events: seq<Event>): int
  {
    if events == [] then 0
    else Paused(events[..|events| - 1]) + (if events[|events| - 1].Pause? then events[|events| - 1].millis else 0)
  }

  /** A single event is one fetch of its own URL and pauses for its own length. */
  lemma OneEvent(e: Event, url: string)
    ensures Fetches([e], url) == (if e == Http(Get(url)) then 1 else 0)
    ensures Paused([e]) == (if e.Pause? then e.millis else 0)
  {
    assert [e][..0] == [];
  }

  /** Regroups three concatenated sequences; trace proofs call it where the solver
      would otherwise search for the grouping. */
  lemma Associative<T>(a: seq<T>, b: seq<T>, c: seq<T>)
    ensures a + b + c == a + (b + c)
  {
  }

  lemma {:induction false} FetchesAppend(a: seq<Event>, b: seq<Event>, url: string)
    ensures Fetches(a + b, url) == Fetches(a, url) + Fetches(b, url)
    ensures Paused(a + b) == Paused(a) + Paused(b)
    decreases |b|
  {
    if b == [] {
      assert a + b == a;
    } else {
      var b' := b[..|b| - 1];
      assert (a + b)[..|a + b| - 1] == a + b';
      FetchesAppend(a, b', url);
    }
  }
}

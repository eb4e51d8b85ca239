/** Properties of the smart-tracking protocol, stated over the specification
    functions that the `SmartPtz` methods are proved to follow. */
module TrackingProperties {
  import opened Channel
  import opened PyText
  import opened PtzController
  import opened SmartTracking
  import DirectoryProperties

  // ---- supervision ----

  /** The loop polls once per leading `Tracking` status and once more, and pauses
      `perSec` seconds after every `Tracking` poll. */
  lemma {:induction false} WatchCounts(ip: string, perSec: int, s: Session)
    ensures var w := Watch(ip, perSec, s);
            && Fetches(w.events, StatusUrl(ip)) == LeadingTracking(s.statuses) + 1
            && Paused(w.events) == LeadingTracking(s.statuses) * perSec * 1000
    decreases |s.statuses|
  {
    var poll := Http(Get(StatusUrl(ip)));
    OneEvent(poll, StatusUrl(ip));
    if s.statuses != [] && s.statuses[0] == Tracking {
      var rest := s.(statuses := s.statuses[1..]);
      var next := Watch(ip, perSec, rest);
      WatchCounts(ip, perSec, rest);
      var pause := Pause(perSec * 1000);
      OneEvent(pause, StatusUrl(ip));
      FetchesAppend([poll], [pause], StatusUrl(ip));
      FetchesAppend([poll, pause], next.events, StatusUrl(ip));
      var n := LeadingTracking(rest.statuses);
      assert LeadingTracking(s.statuses) == n + 1;
      OnePausePlus(n, perSec);
    }
  }

  /** One more polling interval adds one interval's milliseconds (an arithmetic step
      for `WatchCounts`). */
  lemma OnePausePlus(n: int, perSec: int)
    ensures (n + 1) * perSec * 1000 == n * perSec * 1000 + perSec * 1000
  {
    assert (n + 1) * perSec == n * perSec + perSec;
  }

  /** The loop never looks at the preset directory. */
  lemma {:induction false} WatchIgnoresNames(ip: string, perSec: int, s: Session, names: seq<string>)
    ensures var w, v := Watch(ip, perSec, s), Watch(ip, perSec, s.(names := names));
            v.outcome == w.outcome && v.events == w.events && v.after == w.after.(names := names)
    decreases |s.statuses|
  {
    if s.statuses != [] && s.statuses[0] == Tracking {
      WatchIgnoresNames(ip, perSec, s.(statuses := s.statuses[1..]), names);
      assert s.(names := names).(statuses := s.statuses[1..]) == s.(statuses := s.statuses[1..]).(names := names);
    }
  }

  /** Supervision with a positive interval: a 3 s grace pause, one poll per leading
      `Tracking` status and one more, and one pause of the interval per `Tracking`
      poll. It ends normally exactly when a status other than `Tracking` arrives. */
  lemma SupervisedPolls(ip: string, perSec: int, s: Session)
    requires perSec > 0
    ensures var r, n := Supervise(ip, perSec, s), LeadingTracking(s.statuses);
            && Fetches(r.events, StatusUrl(ip)) == n + 1
            && Paused(r.events) == 3000 + n * perSec * 1000
            && (r.outcome.Ok? <==> n < |s.statuses|)
            && r.after.statuses == Drop(s.statuses, n + 1)
  {
    var w := Watch(ip, perSec, s);
    WatchCounts(ip, perSec, s);
    WatchEnds(ip, perSec, s);
    OneEvent(Pause(3000), StatusUrl(ip));
    FetchesAppend([Pause(3000)], w.events, StatusUrl(ip));
  }

  /** Supervision switched off: no event at all and no status consumed. */
  /** A run followed by a successful step that does nothing is the run itself. */
  lemma NothingAfter(run: Run<()>)
    ensures Then(run, Run(Ok(()), [], run.after)) == run
  {
    match run.outcome
    case Ok(()) =>
      assert run.events + [] == run.events;
    case Err(_) =>
  }

  lemma SupervisionOff(ip: string, perSec: int, s: Session)
    requires perSec <= 0
    ensures Supervise(ip, perSec, s) == Run(Ok(()), [], s)
  {
  }

  /** Two seconds of tracking and then a lost target, polled every second. */
  lemma SupervisionScenario(ip: string, s: Session)
    requires s.statuses == [Tracking, Tracking, Missing]
    ensures var poll := Http(Get(StatusUrl(ip)));
            Supervise(ip, 1, s) ==
              Run(Ok(()), [Pause(3000), poll, Pause(1000), poll, Pause(1000), poll], s.(statuses := []))
  {
    var poll := Http(Get(StatusUrl(ip)));
    var s1, s2, s3 := s.(statuses := [Tracking, Missing]), s.(statuses := [Missing]), s.(statuses := []);
    assert Watch(ip, 1, s2) == Run(Ok(()), [poll], s3);
    assert Watch(ip, 1, s1) == Run(Ok(()), [poll, Pause(1000), poll], s3);
    assert Watch(ip, 1, s) == Run(Ok(()), [poll, Pause(1000), poll, Pause(1000), poll], s3);
  }

  // ---- arming and the order of a tracking session ----

  /** The events of issuing `reqs` in order. */
  function Sent(reqs: seq<Request>): (r: seq<Event>)
    ensures |r| == |reqs| && forall i :: 0 <= i < |reqs| ==> r[i] == Http(reqs[i])
  {
    seq(|reqs|, i requires 0 <= i < |reqs| => Http(reqs[i]))
  }

  /** Arming issues its five commands in order, one reply each; when the device
      stops answering, the command that found no reply is the last one issued and
      the arming fails as a transport error. */
  lemma ArmOrder(ip: string, s: Session)
    ensures var r := Arming(ip, s);
            var drop, home, rule := Http(Delete(RuleUrl(ip))), Http(Put(HomeViewUrl(ip))), Http(Post(RuleUrl(ip), FullScreenRule));
            var track, reload := Http(Get(ObjTrackUrl(ip))), Http(Get(ReloadUrl(ip)));
            && (|s.script| >= 5 ==> r == Run(Ok(()), [drop, home, rule, track, reload], s.(script := s.script[5..])))
            && (|s.script| < 5 ==> r.outcome == Err(Transport) && r.after == s.(script := []))
            && (|s.script| == 0 ==> r.events == [drop])
            && (|s.script| == 1 ==> r.events == [drop, home])
            && (|s.script| == 2 ==> r.events == [drop, home, rule])
            && (|s.script| == 3 ==> r.events == [drop, home, rule, track])
            && (|s.script| == 4 ==> r.events == [drop, home, rule, track, reload])
  {
    var n := |s.script|;
    if n >= 5 {
      assert s.script[5..] == s.script[1..][1..][1..][1..][1..];
    } else if n == 0 {
    } else if n == 1 {
    } else if n == 2 {
    } else if n == 3 {
    } else {
    }
  }

  /** The arming events are the arming commands, in order. */
  lemma ArmEvents(ip: string)
    ensures Sent(ArmRequests(ip)) ==
            [Http(Delete(RuleUrl(ip))), Http(Put(HomeViewUrl(ip))), Http(Post(RuleUrl(ip), FullScreenRule)),
             Http(Get(ObjTrackUrl(ip))), Http(Get(ReloadUrl(ip)))]
  {
  }

  /** All the events are requests: there is no pause among them. */
  predicate RequestsOnly(events: seq<Event>)
  {
    forall i :: 0 <= i < |events| ==> events[i].Http?
  }

  lemma {:induction false} RequestsDoNotPause(events: seq<Event>)
    requires RequestsOnly(events)
    ensures Paused(events) == 0
    decreases |events|
  {
    if events != [] {
      RequestsDoNotPause(events[..|events| - 1]);
    }
  }

  /** The move that starts a session only issues requests and never reads a status. */
  lemma StartMoveRequests(ip: string, index: int, home: bool, s: Session)
    ensures var r := StartMove(ip, index, home, s);
            RequestsOnly(r.events) && r.after.statuses == s.statuses
  {
    if !home {
      MoveRequests(ip, index, s);
    }
  }

  /** A rebuild of the directory only issues requests and never reads a status. */
  lemma RebuildRequests(ip: string, s: Session)
    ensures var r := Rebuild(ip, s);
            RequestsOnly(r.events) && r.after.statuses == s.statuses
  {
    var r := Rebuild(ip, s);
    var count := Http(Get(CountUrl(ip)));
    if CountReply(ReplyOf(s.script)).Ok? {
      var c := CountReply(ReplyOf(s.script)).value;
      var entries := Entries(ip, if c >= 0 then c else 0, s.(script := Rest(s.script)));
      assert r.events == [count] + entries.events;
      DirectoryProperties.EntryTraceAt(ip, |entries.events|);
      forall i | 0 <= i < |r.events| ensures r.events[i].Http? {
        if i > 0 {
          assert r.events[i] == entries.events[i - 1];
        }
      }
    } else {
      assert r.events == [count];
    }
  }

  /** Moving to a preset by index only issues requests and never reads a status. */
  lemma MoveRequests(ip: string, index: int, s: Session)
    ensures var r := MovePresetIndex(ip, index, s);
            RequestsOnly(r.events) && r.after.statuses == s.statuses
  {
    var start := if NeedsRebuild(|s.names|, index) then Rebuild(ip, s) else Run(Ok(s.names), [], s);
    if NeedsRebuild(|s.names|, index) {
      RebuildRequests(ip, s);
    }
    assert RequestsOnly(start.events) && start.after.statuses == s.statuses;
    var names := start.after.names;
    var r := MovePresetIndex(ip, index, s);
    if start.outcome.Ok? && PyIndex(|names|, index).Some? {
      var recall := Http(Get(RecallUrl(ip, names[PyIndex(|names|, index).value])));
      assert r.events == start.events + [recall];
    } else {
      assert r.events == start.events;
    }
  }

  /** A tracking session issues, in order, the start move (home, or the preset at
      the index), then the five arming commands; supervision comes only after. */
  lemma TrackOrder(ip: string, index: int, home: bool, perSec: int, s: Session)
    ensures var start := StartMove(ip, index, home, s);
            var r := Track(ip, index, home, perSec, s);
            && (home ==> start.events == [Http(Get(HomeUrl(ip)))])
            && (start.outcome.Ok? && |start.after.script| >= 5 ==>
                  var armed := start.events + Sent(ArmRequests(ip));
                  |r.events| >= |armed| && r.events[..|armed|] == armed)
  {
    var start := StartMove(ip, index, home, s);
    if start.outcome.Ok? && |start.after.script| >= 5 {
      ArmOrder(ip, start.after);
      ArmEvents(ip);
      var armed := start.events + Sent(ArmRequests(ip));
      var r := Track(ip, index, home, perSec, s);
      assert r.events == armed + Supervise(ip, perSec, Arming(ip, start.after).after).events;
    }
  }

  /** With a non-positive interval the session ends after the arming commands: no
      status is polled and nothing pauses. */
  lemma TrackWithoutPolling(ip: string, index: int, home: bool, perSec: int, s: Session)
    requires perSec <= 0
    ensures var r := Track(ip, index, home, perSec, s);
            r.after.statuses == s.statuses && Paused(r.events) == 0
    ensures var start := StartMove(ip, index, home, s);
            var r := Track(ip, index, home, perSec, s);
            r == Then(start, Arming(ip, start.after)) && RequestsOnly(r.events)
  {
    var start := StartMove(ip, index, home, s);
    StartMoveRequests(ip, index, home, s);
    var arm := Arming(ip, start.after);
    ArmOrder(ip, start.after);
    SupervisionOff(ip, perSec, arm.after);
    NothingAfter(arm);
    var r := Track(ip, index, home, perSec, s);
    assert r == Then(start, arm);
    assert RequestsOnly(r.events) by {
      assert r.events == start.events || r.events == start.events + arm.events;
    }
    RequestsDoNotPause(r.events);
  }

  /** With a positive interval and a device that answers the start move and the
      arming, the session polls until the first status other than `Tracking`:
      it consumes that many statuses and pauses 3 s plus one interval per
      `Tracking` poll. */
  lemma TrackWithPolling(ip: string, index: int, home: bool, perSec: int, s: Session)
    requires perSec > 0
    ensures var start := StartMove(ip, index, home, s);
            var r, n := Track(ip, index, home, perSec, s), LeadingTracking(s.statuses);
            start.outcome.Ok? && |start.after.script| >= 5 ==>
              && Paused(r.events) == 3000 + n * perSec * 1000
              && r.after.statuses == Drop(s.statuses, n + 1)
              && (r.outcome.Ok? <==> n < |s.statuses|)
  {
    var start := StartMove(ip, index, home, s);
    if start.outcome.Ok? && |start.after.script| >= 5 {
      StartMoveRequests(ip, index, home, s);
      ArmOrder(ip, start.after);
      var arm := Arming(ip, start.after);
      var sup := Supervise(ip, perSec, arm.after);
      SupervisedPolls(ip, perSec, arm.after);
      assert RequestsOnly(start.events + arm.events);
      RequestsDoNotPause(start.events + arm.events);
      FetchesAppend(start.events + arm.events, sup.events, StatusUrl(ip));
      Associative(start.events, arm.events, sup.events);
    }
  }

  /** From home the preset directory is neither consulted nor changed: the index
      and the cached names make no difference. */
  lemma HomeIgnoresDirectory(ip: string, i: int, j: int, perSec: int, s: Session, names: seq<string>)
    ensures var r, q := Track(ip, i, true, perSec, s), Track(ip, j, true, perSec, s.(names := names));
            q.outcome == r.outcome && q.events == r.events &&
            r.after.names == s.names && q.after.names == names
  {
    var start := Request1(Get(HomeUrl(ip)), s);
    var arm := Arming(ip, start.after);
    var armQ := Arming(ip, start.after.(names := names));
    assert armQ.after == arm.after.(names := names);
    WatchIgnoresNames(ip, perSec, arm.after, names);
    WatchEnds(ip, perSec, arm.after);
  }

  /** Home, then stop, each fetched once and in that order; the stop is not issued
      when the home request finds no reply. */
  lemma HomeAndStopOrder(ip: string, s: Session)
    ensures var r, home, stop := HomeAndStop(ip, s), Http(Get(HomeUrl(ip))), Http(Get(StopUrl(ip)));
            && (|s.script| >= 2 ==> r == Run(Ok(()), [home, stop], s.(script := s.script[2..])))
            && (|s.script| == 1 ==> r == Run(Err(Transport), [home, stop], s.(script := [])))
            && (s.script == [] ==> r == Run(Err(Transport), [home], s))
  {
    if |s.script| >= 2 {
      assert s.script[1..][1..] == s.script[2..];
    }
  }
}

/** Smart tracking on top of the motion controller: the preset directory
    (how many presets the device has and what they are called), moving to a
    preset by index or to the home position, arming the device's smart
    tracking with a fixed sequence of commands, and supervising it by
    polling the tracking status until the camera stops tracking.

    Every operation is specified by a function from the session before it
    (the cached preset names and what the device will still answer) to a
    `Run`: the outcome, the events it leaves in the trace, and the session
    after it. The methods of `SmartPtz` are proved to follow these
    functions, and the properties of the device protocol are lemmas about
    the functions. */
module SmartTracking {
  import opened Channel
  import opened PyText
  import opened PtzController

  // ---- endpoints ----

  function CountUrl(ip: string): string
  {
    CamCtrl(ip, "cam=getsetpreset")
  }

  /** The parameter holding the name of preset slot `i`. */
  function NameUrl(ip: string, i: int): string
  {
    "http://" + ip + ("/cgi-bin/admin/getparam.cgi?camctrl_c0_preset_i" + IntToString(i) + "_name")
  }

  function RecallUrl(ip: string, name: string): string
  {
    CamCtrl(ip, "recall=" + name)
  }

  function HomeUrl(ip: string): string
  {
    CamCtrl(ip, "move=home")
  }

  function StopUrl(ip: string): string
  {
    CamCtrl(ip, "auto=stop")
  }

  function ObjTrackUrl(ip: string): string
  {
    CamCtrl(ip, "auto=objtrack")
  }

  /** An endpoint of the video content analysis service. */
  function Vca(ip: string, path: string): string
  {
    "http://" + ip + ("/VCA/" + path)
  }

  function RuleUrl(ip: string): string
  {
    Vca(ip, "Config/RE/SmartTrackingDetection")
  }

  function HomeViewUrl(ip: string): string
  {
    Vca(ip, "PTZ/HomeView")
  }

  function ReloadUrl(ip: string): string
  {
    Vca(ip, "Config/Reload")
  }

  function StatusUrl(ip: string): string
  {
    Vca(ip, "Camera/Status")
  }

  /** The single detection rule the tracking is armed with: the full screen. */
  const FullScreenRule: string :=
    "{\"Full Screen\":{\"EventName\":\"Full Screen\",\"Field\":[],\"RuleName\":\"Full Screen\",\"Type\":\"full\"}}"

  // ---- sessions and runs ----

  /** What the client knows and what the device will still answer. */
  datatype Session = Session(names: seq<string>, script: seq<string>, statuses: seq<TrackingStatus>)

  /** One operation: its outcome, the events it adds, and the session after it. */
  datatype Run<+T> = Run(outcome: Result<T>, events: seq<Event>, after: Session)

  /** `first` and then `next`, which is started from `first.after`; a failure stops the sequence. */
  function Then<T, U>(first: Run<T>, next: Run<U>): Run<U>
  {
    if first.outcome.Err? then Run(Err(first.outcome.error), first.events, first.after)
    else Run(next.outcome, first.events + next.events, next.after)
  }

  /** A request whose reply is not read further: it fails only when the device does not answer. */
  function Request1(req: Request, s: Session): Run<()>
  {
    Run(if s.script == [] then Err(Transport) else Ok(()), [Http(req)], s.(script := Rest(s.script)))
  }

  function Drop<T>(s: seq<T>, n: nat): (r: seq<T>)
    ensures n <= |s| ==> r == s[n..]
    ensures n >= |s| ==> r == []
  {
    if n <= |s| then s[n..] else []
  }

  // ---- the preset directory ----

  /** The text after the first `=` and before any second one. */
  function Field(text: string): Option<string>
  {
    var parts := Split(text, '=');
    if |parts| < 2 then None else Some(parts[1])
  }

  /** The preset count of the `getsetpreset` reply: its field read as an integer. */
  function CountOf(text: string): Option<int>
  {
    match Field(text)
    case None => None
    case Some(f) => ParseInt(f)
  }

  /** The preset name of a reply: its field cut at the first carriage return, quotes removed. */
  function NameOf(text: string): (r: Option<string>)
    ensures r.Some? <==> '=' in text
    ensures r.Some? ==> '\'' !in r.value && '\r' !in r.value
  {
    SplitSingle(text, '=');
    match Field(text)
    case None => None
    case Some(f) => Some(Remove(Split(f, '\r')[0], '\''))
  }

  /** The names read from the first `n` replies, and the failure that stopped the reading, if any. */
  datatype Reading = Reading(names: seq<string>, failure: Option<Error>)

  function ReadNames(replies: seq<string>, n: nat): (r: Reading)
    ensures r.failure.None? ==> |r.names| == n
    ensures r.failure.Some? ==> |r.names| < n
    ensures forall k :: 0 <= k < |r.names| ==> k < |replies| && NameOf(replies[k]) == Some(r.names[k])
    ensures r.failure == Some(Transport) ==> |r.names| == |replies|
    ensures r.failure == Some(Protocol) ==> |r.names| < |replies| && NameOf(replies[|r.names|]).None?
    ensures r.failure.Some? ==> r.failure == Some(Transport) || r.failure == Some(Protocol)
    decreases n
  {
    if n == 0 then Reading([], None)
    else
      var prev := ReadNames(replies, n - 1);
      if prev.failure.Some? then prev
      else if n - 1 >= |replies| then Reading(prev.names, Some(Transport))
      else match NameOf(replies[n - 1])
        case None => Reading(prev.names, Some(Protocol))
        case Some(name) =>
          var names := prev.names + [name];
          assert |prev.names| == n - 1 && names[n - 1] == name;
          assert forall k :: 0 <= k < n - 1 ==> names[k] == prev.names[k];
          Reading(names, None)
  }

  /** The URL entry `k` of the directory is fetched from: the count query again for
      the first, and the name of slot `k - 1` after it. */
  function EntryUrl(ip: string, k: nat): string
  {
    if k == 0 then CountUrl(ip) else NameUrl(ip, k - 1)
  }

  /** The fetches of the first `k` entries, in order. */
  function EntryTrace(ip: string, k: nat): (r: seq<Event>)
    ensures |r| == k
  {
    if k == 0 then [] else EntryTrace(ip, k - 1) + [Http(Get(EntryUrl(ip, k - 1)))]
  }

  lemma DropStep<T>(s: seq<T>, i: nat)
    ensures Rest(Drop(s, i)) == Drop(s, i + 1)
    ensures ReplyOf(Drop(s, i)) == (if i < |s| then Ok(s[i]) else Err(Transport))
  {
  }

  /** Reading `n` directory entries: the list is cleared, then one name is read per
      fetched entry until `n` have been read or a fetch or a name fails. */
  function Entries(ip: string, n: nat, s: Session): Run<seq<string>>
  {
    var reading := ReadNames(s.script, n);
    var issued := if reading.failure.Some? then |reading.names| + 1 else n;
    Run(if reading.failure.Some? then Err(reading.failure.value) else Ok(reading.names),
        EntryTrace(ip, issued),
        s.(names := reading.names, script := Drop(s.script, issued)))
  }

  /** The preset count a reply carries; a missing reply is a transport error and
      an unreadable count a protocol error. */
  function CountReply(reply: Result<string>): Result<int>
  {
    match reply
    case Err(e) => Err(e)
    case Ok(text) => if CountOf(text).Some? then Ok(CountOf(text).value) else Err(Protocol)
  }

  /** Rebuilding the directory: ask for the count, then read that many entries
      (none when the count is negative). The cached names stay as they were when
      the count cannot be read. */
  function Rebuild(ip: string, s: Session): Run<seq<string>>
  {
    var count := Run(CountReply(ReplyOf(s.script)), [Http(Get(CountUrl(ip)))], s.(script := Rest(s.script)));
    var n := if count.outcome.Ok? && count.outcome.value >= 0 then count.outcome.value else 0;
    Then(count, Entries(ip, n, count.after))
  }

  // ---- moving to a preset ----

  /** Python's `xs[i]` on a list of length `len`: the position it reads, if any. */
  function PyIndex(len: nat, i: int): (r: Option<nat>)
    ensures r.Some? <==> -(len as int) <= i < len
    ensures r.Some? ==> r.value < len && r.value == (if i < 0 then len + i else i)
  {
    if 0 <= i < len then Some(i) else if -(len as int) <= i < 0 then Some(len + i) else None
  }

  /** The directory is rebuilt when it is empty or shorter than the index. */
  predicate NeedsRebuild(len: nat, index: int)
  {
    len == 0 || len < index
  }

  /** Rebuild the directory if it needs it, then recall the preset at `index`. */
  function MovePresetIndex(ip: string, index: int, s: Session): Run<()>
  {
    var start := if NeedsRebuild(|s.names|, index) then Rebuild(ip, s) else Run(Ok(s.names), [], s);
    var names := start.after.names;
    var next := match PyIndex(|names|, index)
      case None => Run(Err(NotFound), [], start.after)
      case Some(k) => Request1(Get(RecallUrl(ip, names[k])), start.after);
    Then(start, next)
  }

  // ---- arming and supervising the tracking ----

  /** The five commands that arm the tracking: drop the old rule, take the current
      view as home, install the full-screen rule, start tracking, reload. */
  function ArmRequests(ip: string): seq<Request>
  {
    [Delete(RuleUrl(ip)), Put(HomeViewUrl(ip)), Post(RuleUrl(ip), FullScreenRule),
     Get(ObjTrackUrl(ip)), Get(ReloadUrl(ip))]
  }

  function Arming(ip: string, s: Session): Run<()>
  {
    var a := Request1(Delete(RuleUrl(ip)), s);
    var b := Request1(Put(HomeViewUrl(ip)), a.after);
    var c := Request1(Post(RuleUrl(ip), FullScreenRule), b.after);
    var d := Request1(Get(ObjTrackUrl(ip)), c.after);
    var e := Request1(Get(ReloadUrl(ip)), d.after);
    Then(a, Then(b, Then(c, Then(d, e))))
  }

  /** How many statuses at the front of `ss` are `Tracking`. */
  function LeadingTracking(ss: seq<TrackingStatus>): (n: nat)
    ensures n <= |ss|
    ensures forall j :: 0 <= j < n ==> ss[j] == Tracking
    ensures n < |ss| ==> ss[n] != Tracking
  {
    if ss == [] || ss[0] != Tracking then 0 else 1 + LeadingTracking(ss[1..])
  }

  /** The polling loop: poll, and while the camera is tracking, pause and poll again. */
  function Watch(ip: string, perSec: int, s: Session): Run<()>
    decreases |s.statuses|
  {
    var poll := Http(Get(StatusUrl(ip)));
    if s.statuses == [] then Run(Err(Transport), [poll], s)
    else if s.statuses[0] == Tracking then
      var next := Watch(ip, perSec, s.(statuses := s.statuses[1..]));
      Run(next.outcome, [poll, Pause(perSec * 1000)] + next.events, next.after)
    else Run(Ok(()), [poll], s.(statuses := s.statuses[1..]))
  }

  /** The loop consumes the leading run of `Tracking` statuses and the one after it;
      it ends normally exactly when the device reports a status other than
      `Tracking`, and fails as a transport error when the statuses run out first. */
  lemma {:induction false} WatchEnds(ip: string, perSec: int, s: Session)
    ensures var r := Watch(ip, perSec, s);
            && r.after.names == s.names && r.after.script == s.script
            && r.after.statuses == Drop(s.statuses, LeadingTracking(s.statuses) + 1)
            && (r.outcome.Ok? <==> LeadingTracking(s.statuses) < |s.statuses|)
            && (r.outcome.Err? ==> r.outcome.error == Transport)
    decreases |s.statuses|
  {
    if s.statuses != [] && s.statuses[0] == Tracking {
      WatchEnds(ip, perSec, s.(statuses := s.statuses[1..]));
    }
  }

  /** Supervision is off for a non-positive interval; otherwise a 3 s grace pause, then the loop. */
  function Supervise(ip: string, perSec: int, s: Session): Run<()>
  {
    if perSec <= 0 then Run(Ok(()), [], s)
    else var w := Watch(ip, perSec, s); Run(w.outcome, [Pause(3000)] + w.events, w.after)
  }

  /** The move that starts a tracking session: home, or the preset at `index`. */
  function StartMove(ip: string, index: int, home: bool, s: Session): Run<()>
  {
    if home then Request1(Get(HomeUrl(ip)), s) else MovePresetIndex(ip, index, s)
  }

  /** Track from here: the start move, the arming commands, then supervision. */
  function Track(ip: string, index: int, home: bool, perSec: int, s: Session): Run<()>
  {
    var start := StartMove(ip, index, home, s);
    var arm := Arming(ip, start.after);
    Then(start, Then(arm, Supervise(ip, perSec, arm.after)))
  }

  /** Home and then stop the tracking. */
  function HomeAndStop(ip: string, s: Session): Run<()>
  {
    var home := Request1(Get(HomeUrl(ip)), s);
    Then(home, Request1(Get(StopUrl(ip)), home.after))
  }

  /** The smart-tracking client: a motion controller together with the cached
      list of preset names. */
  class SmartPtz {
    const ptz: Controller
    var presetNames: seq<string>

    /** A tracking client around a connected motion controller, with an empty directory. */
    constructor (ptz: Controller)
      requires ptz.connected
      ensures this.ptz == ptz && presetNames == []
    {
      this.ptz := ptz;
      presetNames := [];
    }

    /** Connecting: the controller's connection, then an empty directory. */
    static method Open(ip: string, script: seq<string>, statuses: seq<TrackingStatus>)
      returns (r: Result<SmartPtz>)
      ensures r.Ok? <==> Connects(script)
      ensures var lim, pos := LimitsOf(ReplyOf(script)), PositionOf(ReplyOf(Rest(script)));
              r.Err? ==> r.error == (if lim.Err? then lim.error else pos.error)
      ensures r.Ok? ==>
                var c := r.value.ptz;
                var pos := ReplyOf(Rest(script));
                fresh(r.value) && fresh(c) && r.value.presetNames == [] &&
                c.connected && c.ip == ip && Ok(c.limits) == LimitsOf(ReplyOf(script)) &&
                c.currentX == PolledPan(pos) && c.currentY == PolledTilt(pos) &&
                c.script == Rest(Rest(script)) && c.statuses == statuses &&
                c.trace == [Http(Get(ParamUrl(ip, LimitNames))), Http(Get(ParamUrl(ip, PositionNames)))]
    {
      var c := Controller.Open(ip, script, statuses);
      if c.Err? {
        return Err(c.error);
      }
      var sp := new SmartPtz(c.value);
      return Ok(sp);
    }

    /** The session as the specification functions see it. */
    function Now(): Session
      reads this, ptz
    {
      Session(presetNames, ptz.script, ptz.statuses)
    }

    /** A GET or other request whose reply body is not used. */
    method Issue(req: Request) returns (r: Result<()>)
      modifies ptz`script, ptz`trace
      ensures var run := Request1(req, old(Now()));
              r == run.outcome && ptz.trace == old(ptz.trace) + run.events && Now() == run.after
    {
      var reply := ptz.Send(req);
      r := if reply.Ok? then Ok(()) else Err(reply.error);
    }

    method MoveToHome() returns (r: Result<()>)
      modifies ptz`script, ptz`trace
      ensures var run := Request1(Get(HomeUrl(ptz.ip)), old(Now()));
              r == run.outcome && ptz.trace == old(ptz.trace) + run.events && Now() == run.after
    {
      r := Issue(Get(HomeUrl(ptz.ip)));
    }

    /** Recalls a preset by its name. */
    method MoveToPreset(name: string) returns (r: Result<()>)
      modifies ptz`script, ptz`trace
      ensures var run := Request1(Get(RecallUrl(ptz.ip, name)), old(Now()));
              r == run.outcome && ptz.trace == old(ptz.trace) + run.events && Now() == run.after
    {
      r := Issue(Get(RecallUrl(ptz.ip, name)));
    }

    method StopSmartTracking() returns (r: Result<()>)
      modifies ptz`script, ptz`trace
      ensures var run := Request1(Get(StopUrl(ptz.ip)), old(Now()));
              r == run.outcome && ptz.trace == old(ptz.trace) + run.events && Now() == run.after
    {
      r := Issue(Get(StopUrl(ptz.ip)));
    }

    /** Reads the directory: the count, then one name per preset, the first from
        the count query itself and each later one from the slot before it. */
    method GetPresetNames() returns (r: Result<seq<string>>)
      modifies this`presetNames, ptz`script, ptz`trace
      ensures var run := Rebuild(ptz.ip, old(Now()));
              r == run.outcome && ptz.trace == old(ptz.trace) + run.events && Now() == run.after
    {
      var count := ReadCount();
      if count.Err? {
        return Err(count.error);
      }
      ghost var t0, c, t1 := old(ptz.trace), [Http(Get(CountUrl(ptz.ip)))], ptz.trace;
      r := ReadEntries(if count.value < 0 then 0 else count.value);
      ghost var e := ptz.trace[|t1|..];
      assert t0 + c + e == t0 + (c + e);
    }

    /** The first request of the directory read: how many presets there are. */
    method ReadCount() returns (r: Result<int>)
      modifies ptz`script, ptz`trace
      ensures ptz.trace == old(ptz.trace) + [Http(Get(CountUrl(ptz.ip)))]
      ensures ptz.script == Rest(old(ptz.script))
      ensures r == CountReply(ReplyOf(old(ptz.script)))
    {
      var reply := ptz.Send(Get(CountUrl(ptz.ip)));
      if reply.Err? {
        return Err(reply.error);
      }
      var count := CountOf(reply.value);
      if count.None? {
        return Err(Protocol);
      }
      return Ok(count.value);
    }

    /** The loop of the directory read: the list is cleared, then entry `i` is
        fetched from the URL left by the previous round (the count query at first)
        and its name appended. A failed fetch or an unreadable name ends the loop
        with the names read so far, as the exception does. */
    method ReadEntries(n: nat) returns (r: Result<seq<string>>)
      modifies this`presetNames, ptz`script, ptz`trace
      ensures var run := Entries(ptz.ip, n, old(Now()));
              r == run.outcome && ptz.trace == old(ptz.trace) + run.events && Now() == run.after
    {
      ghost var replies := ptz.script;
      ghost var t0 := ptz.trace;
      var url := CountUrl(ptz.ip);
      presetNames := [];
      var failure: Option<Error> := None;
      var i := 0;
      while i < n && failure.None?
        invariant i <= n
        invariant ReadNames(replies, i) == Reading(presetNames, failure)
        invariant failure.Some? ==> |presetNames| + 1 == i
        invariant ptz.script == Drop(replies, i)
        invariant ptz.trace == t0 + EntryTrace(ptz.ip, i)
        invariant failure.None? ==> url == EntryUrl(ptz.ip, i)
      {
        DropStep(replies, i);
        Associative(t0, EntryTrace(ptz.ip, i), [Http(Get(url))]);
        var reply := ptz.Send(Get(url));
        if reply.Err? {
          failure := Some(reply.error);
        } else {
          var name := NameOf(reply.value);
          if name.None? {
            failure := Some(Protocol);
          } else {
            presetNames := presetNames + [name.value];
            url := NameUrl(ptz.ip, i);
          }
        }
        i := i + 1;
      }
      if failure.Some? {
        ReadingStops(replies, i, n);
        r := Err(failure.value);
      } else {
        r := Ok(presetNames);
      }
    }

    /** Moves to the preset at a Python list index, rebuilding the directory first
        when it is empty or shorter than the index. */
    method MoveToPresetIndex(index: int) returns (r: Result<()>)
      modifies this`presetNames, ptz`script, ptz`trace
      ensures var run := MovePresetIndex(ptz.ip, index, old(Now()));
              r == run.outcome && ptz.trace == old(ptz.trace) + run.events && Now() == run.after
    {
      ghost var t0, s0 := ptz.trace, Now();
      if |presetNames| == 0 || |presetNames| < index {
        var names := GetPresetNames();
        if names.Err? {
          return Err(names.error);
        }
      }
      ghost var e1 := ptz.trace[|t0|..];
      assert ptz.trace == t0 + e1;
      var k := PyIndex(|presetNames|, index);
      if k.None? {
        return Err(NotFound);
      }
      ghost var e2 := [Http(Get(RecallUrl(ptz.ip, presetNames[k.value])))];
      r := MoveToPreset(presetNames[k.value]);
      Associative(t0, e1, e2);
    }

    /** One status poll. */
    method CheckTrackingStatus() returns (r: Result<TrackingStatus>)
      modifies ptz`statuses, ptz`trace
      ensures ptz.trace == old(ptz.trace) + [Http(Get(StatusUrl(ptz.ip)))]
      ensures r == ReplyOf(old(ptz.statuses)) && ptz.statuses == Rest(old(ptz.statuses))
    {
      r := ptz.SendForStatus(StatusUrl(ptz.ip));
    }

    method IsCameraTracking() returns (r: Result<bool>)
      modifies ptz`statuses, ptz`trace
      ensures ptz.trace == old(ptz.trace) + [Http(Get(StatusUrl(ptz.ip)))]
      ensures ptz.statuses == Rest(old(ptz.statuses))
      ensures r.Ok? <==> old(ptz.statuses) != []
      ensures r.Err? ==> r.error == Transport
      ensures r.Ok? ==> (r.value <==> old(ptz.statuses)[0] == Tracking)
    {
      var status := CheckTrackingStatus();
      if status.Err? {
        return Err(status.error);
      }
      return Ok(status.value == Tracking);
    }

    /** The five arming commands, in order, stopping at the first that fails. */
    method Arm() returns (r: Result<()>)
      modifies ptz`script, ptz`trace
      ensures var run := Arming(ptz.ip, old(Now()));
              r == run.outcome && ptz.trace == old(ptz.trace) + run.events && Now() == run.after
    {
      ghost var t0 := ptz.trace;
      ghost var a := Request1(Delete(RuleUrl(ptz.ip)), Now());
      r := Issue(Delete(RuleUrl(ptz.ip)));
      if r.Err? {
        return;
      }
      ghost var b := Request1(Put(HomeViewUrl(ptz.ip)), a.after);
      r := Issue(Put(HomeViewUrl(ptz.ip)));
      Associative(t0, a.events, b.events);
      if r.Err? {
        return;
      }
      ghost var c := Request1(Post(RuleUrl(ptz.ip), FullScreenRule), b.after);
      r := Issue(Post(RuleUrl(ptz.ip), FullScreenRule));
      Associative(t0, a.events + b.events, c.events);
      Associative(a.events, b.events, c.events);
      if r.Err? {
        return;
      }
      ghost var d := Request1(Get(ObjTrackUrl(ptz.ip)), c.after);
      r := Issue(Get(ObjTrackUrl(ptz.ip)));
      Associative(t0, a.events + (b.events + c.events), d.events);
      Associative(a.events, b.events + c.events, d.events);
      Associative(b.events, c.events, d.events);
      if r.Err? {
        return;
      }
      ghost var e := Request1(Get(ReloadUrl(ptz.ip)), d.after);
      r := Issue(Get(ReloadUrl(ptz.ip)));
      Associative(t0, a.events + (b.events + (c.events + d.events)), e.events);
      Associative(a.events, b.events + (c.events + d.events), e.events);
      Associative(b.events, c.events + d.events, e.events);
      Associative(c.events, d.events, e.events);
    }

    /** Starts tracking from home or from a preset, then, for a positive interval,
        waits 3 s and polls the status every `checkPerSec` seconds until the camera
        is no longer tracking. */
    method TrackFromHere(presetIndex: int, home: bool := false, checkPerSec: int := 0) returns (r: Result<()>)
      modifies this`presetNames, ptz`script, ptz`trace, ptz`statuses
      ensures var run := Track(ptz.ip, presetIndex, home, checkPerSec, old(Now()));
              r == run.outcome && ptz.trace == old(ptz.trace) + run.events && Now() == run.after
    {
      ghost var t0, s0 := ptz.trace, Now();
      ghost var start := StartMove(ptz.ip, presetIndex, home, s0);
      r := StartTracking(presetIndex, home);
      if r.Err? {
        return;
      }
      ghost var arm := Arming(ptz.ip, start.after);
      ghost var e1, e2 := start.events, arm.events;
      r := Arm();
      if r.Err? {
        Associative(t0, e1, e2);
        return;
      }
      ghost var e3 := Supervise(ptz.ip, checkPerSec, arm.after).events;
      r := SuperviseTracking(checkPerSec);
      Associative(t0, e1, e2);
      Associative(t0, e1 + e2, e3);
      Associative(e1, e2, e3);
    }

    /** The move a tracking session starts with: home, or the preset at `presetIndex`. */
    method StartTracking(presetIndex: int, home: bool) returns (r: Result<()>)
      modifies this`presetNames, ptz`script, ptz`trace
      ensures var run := StartMove(ptz.ip, presetIndex, home, old(Now()));
              r == run.outcome && ptz.trace == old(ptz.trace) + run.events && Now() == run.after
    {
      if home {
        r := MoveToHome();
      } else {
        r := MoveToPresetIndex(presetIndex);
      }
    }

    /** For a positive interval, a 3 s grace pause and then the polling loop. */
    method SuperviseTracking(checkPerSec: int) returns (r: Result<()>)
      modifies ptz`statuses, ptz`trace
      ensures var run := Supervise(ptz.ip, checkPerSec, old(Now()));
              r == run.outcome && ptz.trace == old(ptz.trace) + run.events && Now() == run.after
    {
      if checkPerSec <= 0 {
        return Ok(());
      }
      ptz.Sleep(3000);
      r := WatchTracking(checkPerSec);
    }

    /** Polls the status, every `checkPerSec` seconds, until the camera is no longer tracking. */
    method WatchTracking(checkPerSec: int) returns (r: Result<()>)
      modifies ptz`statuses, ptz`trace
      ensures var run := Watch(ptz.ip, checkPerSec, old(Now()));
              r == run.outcome && ptz.trace == old(ptz.trace) + run.events && Now() == run.after
    {
      ghost var t0, w0 := ptz.trace, Watch(ptz.ip, checkPerSec, Now());
      ghost var done: seq<Event> := [];
      ghost var poll := [Http(Get(StatusUrl(ptz.ip)))];
      while true
        invariant ptz.trace == t0 + done
        invariant var w := Watch(ptz.ip, checkPerSec, Now());
                  w0.events == done + w.events && w0.outcome == w.outcome && w0.after == w.after
        decreases |ptz.statuses|
      {
        ghost var here := Now();
        var tracking := IsCameraTracking();
        if tracking.Err? {
          assert Watch(ptz.ip, checkPerSec, here) == Run(Err(Transport), poll, here);
          Associative(t0, done, poll);
          return Err(tracking.error);
        }
        assert Now() == here.(statuses := here.statuses[1..]);
        if !tracking.value {
          assert Watch(ptz.ip, checkPerSec, here).events == poll;
          Associative(t0, done, poll);
          return Ok(());
        }
        ptz.Sleep(checkPerSec * 1000);
        ghost var step := poll + [Pause(checkPerSec * 1000)];
        ghost var later := Watch(ptz.ip, checkPerSec, Now());
        assert Watch(ptz.ip, checkPerSec, here).events == step + later.events;
        Associative(t0, done, step);
        Associative(done, step, later.events);
        done := done + step;
      }
    }

    method MoveToHomeAndStopTracking() returns (r: Result<()>)
      modifies ptz`script, ptz`trace
      ensures var run := HomeAndStop(ptz.ip, old(Now()));
              r == run.outcome && ptz.trace == old(ptz.trace) + run.events && Now() == run.after
    {
      r := MoveToHome();
      if r.Err? {
        return;
      }
      r := StopSmartTracking();
    }

    method MoveToHomeAndTracking(checkPerSec: int := 0) returns (r: Result<()>)
      modifies this`presetNames, ptz`script, ptz`trace, ptz`statuses
      ensures var run := Track(ptz.ip, 0, true, checkPerSec, old(Now()));
              r == run.outcome && ptz.trace == old(ptz.trace) + run.events && Now() == run.after
    {
      r := TrackFromHere(0, true, checkPerSec);
    }
  }

  /** Once reading stops at entry `i`, reading more entries stops at the same place. */
  lemma {:induction false} ReadingStops(replies: seq<string>, i: nat, n: nat)
    requires i <= n
    requires ReadNames(replies, i).failure.Some?
    ensures ReadNames(replies, n) == ReadNames(replies, i)
    decreases n - i
  {
    if i < n {
      ReadingStops(replies, i + 1, n);
    }
  }
}

/** The motion controller of a VIVOTEK PTZ camera: pan/tilt limits read once
    when the client connects, the last polled position, vector moves with a
    speed cap and an optional zoom, and absolute moves checked against the
    limits. */
module PtzController {
  import opened Channel
  import opened PyText
  import opened ParamCodec

  /** The pan and tilt bounds the device reports. */
  datatype MotionLimits = MotionLimits(minPan: int, maxPan: int, minTilt: int, maxTilt: int)

  const LimitNames: seq<string> := ["minpan", "maxpan", "mintilt", "maxtilt"]
  const PositionNames: seq<string> := ["pan", "tilt"]

  /** A request to the camera control CGI. */
  function CamCtrl(ip: string, query: string): string
  {
    "http://" + ip + ("/cgi-bin/camctrl/camctrl.cgi?" + query)
  }

  function ParamUrl(ip: string, names: seq<string>): string
  {
    CamCtrl(ip, Query(names))
  }

  /** The limits a parameter map carries: all four bounds must be present. */
  function LimitsFrom(data: Result<map<string, int>>): (r: Result<MotionLimits>)
    ensures data.Err? ==> r == Err(data.error)
    ensures data.Ok? ==>
              var d := data.value;
              if "minpan" in d && "maxpan" in d && "mintilt" in d && "maxtilt" in d
              then r == Ok(MotionLimits(d["minpan"], d["maxpan"], d["mintilt"], d["maxtilt"]))
              else r == Err(Protocol)
  {
    match data
    case Err(e) => Err(e)
    case Ok(d) =>
      if "minpan" in d && "maxpan" in d && "mintilt" in d && "maxtilt" in d then
        Ok(MotionLimits(d["minpan"], d["maxpan"], d["mintilt"], d["maxtilt"]))
      else Err(Protocol)
  }

  /** The limits a reply carries. */
  function LimitsOf(reply: Result<string>): Result<MotionLimits>
  {
    LimitsFrom(ParamsOf(reply))
  }

  /** The position a reply carries: the whole parameter map, provided it has `pan` and `tilt`. */
  function PositionOf(reply: Result<string>): (r: Result<map<string, int>>)
    ensures r.Ok? <==> ParamsOf(reply).Ok? && "pan" in ParamsOf(reply).value && "tilt" in ParamsOf(reply).value
    ensures r.Ok? ==> r.value == ParamsOf(reply).value
    ensures r.Err? && ParamsOf(reply).Err? ==> r.error == ParamsOf(reply).error
    ensures r.Err? && ParamsOf(reply).Ok? ==> r.error == Protocol
  {
    match ParamsOf(reply)
    case Err(e) => Err(e)
    case Ok(d) => if "pan" in d && "tilt" in d then Ok(d) else Err(Protocol)
  }

  /** The pan a position poll stores: it is stored as soon as it has been read,
      even when the tilt turns out to be missing. */
  function PolledPan(reply: Result<string>): Option<int>
  {
    match ParamsOf(reply)
    case Ok(d) => if "pan" in d then Some(d["pan"]) else None
    case Err(_) => None
  }

  /** The tilt a position poll stores. */
  function PolledTilt(reply: Result<string>): Option<int>
  {
    match PositionOf(reply)
    case Ok(d) => Some(d["tilt"])
    case Err(_) => None
  }

  function Update(current: Option<int>, polled: Option<int>): Option<int>
  {
    if polled.Some? then polled else current
  }

  /** A limits reply that lists well-named parameters (with any trailing whitespace)
      yields exactly the four bounds it lists, and a protocol error when one of them
      is missing. */
  lemma LimitsRoundTrip(ps: seq<Param>, ws: string)
    requires |ps| >= 1 && WellNamed(ps)
    requires AllSpace(ws)
    ensures var m := AsMap(ps);
            LimitsOf(Ok(Encode(ps) + ws)) ==
              if "minpan" in m && "maxpan" in m && "mintilt" in m && "maxtilt" in m
              then Ok(MotionLimits(m["minpan"], m["maxpan"], m["mintilt"], m["maxtilt"]))
              else Err(Protocol)
  {
    ParamsRoundTrip(ps, ws);
  }

  /** A position reply that lists well-named parameters yields the whole map when it
      has both `pan` and `tilt`, and a protocol error otherwise; the pan it lists is
      stored even without a tilt, the tilt only with both. */
  lemma PositionRoundTrip(ps: seq<Param>, ws: string)
    requires |ps| >= 1 && WellNamed(ps)
    requires AllSpace(ws)
    ensures var m, reply := AsMap(ps), Ok(Encode(ps) + ws);
            && PositionOf(reply) == (if "pan" in m && "tilt" in m then Ok(m) else Err(Protocol))
            && PolledPan(reply) == (if "pan" in m then Some(m["pan"]) else None)
            && PolledTilt(reply) == (if "pan" in m && "tilt" in m then Some(m["tilt"]) else None)
  {
    ParamsRoundTrip(ps, ws);
  }

  // ---- vector moves ----

  /** The speed cap of a vector move: values above 150 become 150, all others pass unchanged. */
  function Clamp(v: int): (r: int)
    ensures r <= 150
    ensures v <= 150 ==> r == v
    ensures v > 150 ==> r == 150
  {
    if v > 150 then 150 else v
  }

  /** The zoom direction: lower-cased and stripped, kept only when it is `tele` or `wide`. */
  function NormalizeZoom(zooming: Option<string>): (r: Option<string>)
    ensures r.Some? ==> r.value == "tele" || r.value == "wide"
    ensures r.Some? <==> zooming.Some? && Strip(Lower(zooming.value)) in {"tele", "wide"}
    ensures r.Some? ==> r.value == Strip(Lower(zooming.value))
  {
    if zooming.None? then None
    else
      var z := Strip(Lower(zooming.value));
      if z == "tele" || z == "wide" then Some(z) else None
  }

  /** Python's `'{}'.format(x)` of an optional text: `None` when absent. */
  function Show(x: Option<string>): string
  {
    if x.Some? then x.value else "None"
  }

  /** The zoom part of a vector move, sent when a direction or a zoom speed is given. */
  function ZoomSuffix(zoom: Option<string>, zs: Option<string>): (r: string)
    ensures r != "" <==> zoom.Some? || zs.Some?
  {
    if zoom.Some? || zs.Some? then "&zooming=" + Show(zoom) + "&zs=" + Show(zs) else ""
  }

  /** The query of a vector move. */
  function VectorQuery(vx: int, vy: int, zooming: Option<string>, zs: Option<string>): string
  {
    "stream=3&channel=0&vx=" + IntToString(Clamp(vx)) + "&vy=" + IntToString(Clamp(vy))
    + ("&vs=10" + ZoomSuffix(NormalizeZoom(zooming), zs))
  }

  /** The fields of a vector move: the capped speeds, then the zoom pair exactly
      when a valid direction or a zoom speed was given. */
  lemma VectorQueryFields(vx: int, vy: int, zooming: Option<string>, zs: Option<string>)
    requires zs.Some? ==> '&' !in zs.value
    ensures var zoom := NormalizeZoom(zooming);
            Split(VectorQuery(vx, vy, zooming, zs), '&') ==
              ["stream=3", "channel=0", "vx=" + IntToString(Clamp(vx)), "vy=" + IntToString(Clamp(vy)), "vs=10"]
              + (if zoom.Some? || zs.Some? then ["zooming=" + Show(zoom), "zs=" + Show(zs)] else [])
  {
    var zoom := NormalizeZoom(zooming);
    var x, y := IntToString(Clamp(vx)), IntToString(Clamp(vy));
    NoAmpersand(x);
    NoAmpersand(y);
    if zoom.Some? || zs.Some? {
      var z, w := Show(zoom), Show(zs);
      ShownZoomPlain(zoom);
      ShowPlain(zs);
      assert ZoomSuffix(zoom, zs) == "&zooming=" + z + "&zs=" + w;
      ZoomedQueryFields(x, y, z, w);
    } else {
      PlainQueryFields(x, y);
      assert ZoomSuffix(zoom, zs) == "";
    }
  }

  lemma ShowPlain(x: Option<string>)
    requires x.Some? ==> '&' !in x.value
    ensures '&' !in Show(x)
  {
    if x.None? {
      assert Show(x) == ['N', 'o', 'n', 'e'];
    }
  }

  lemma ShownZoomPlain(zoom: Option<string>)
    requires zoom.Some? ==> zoom.value == "tele" || zoom.value == "wide"
    ensures '&' !in Show(zoom)
  {
    var z := Show(zoom);
    assert z == "tele" || z == "wide" || z == "None";
    assert forall i :: 0 <= i < |z| ==> 'A' <= z[i] <= 'z';
  }

  lemma ZoomedQueryFields(x: string, y: string, z: string, w: string)
    requires '&' !in x && '&' !in y && '&' !in z && '&' !in w
    ensures Split("stream=3&channel=0&vx=" + x + "&vy=" + y + ("&vs=10" + ("&zooming=" + z + "&zs=" + w)), '&') ==
            ["stream=3", "channel=0", "vx=" + x, "vy=" + y, "vs=10"] + ["zooming=" + z, "zs=" + w]
  {
    ZoomedShape(x, y, z, w);
    SplitSeven("stream=3", "channel=0", "vx=" + x, "vy=" + y, "vs=10", "zooming=" + z, "zs=" + w);
  }

  lemma PlainQueryFields(x: string, y: string)
    requires '&' !in x && '&' !in y
    ensures Split("stream=3&channel=0&vx=" + x + "&vy=" + y + ("&vs=10" + ""), '&') ==
            ["stream=3", "channel=0", "vx=" + x, "vy=" + y, "vs=10"] + []
  {
    PlainShape(x, y);
    SplitFive("stream=3", "channel=0", "vx=" + x, "vy=" + y, "vs=10");
  }

  lemma NoAmpersand(digits: string)
    requires forall i :: 0 <= i < |digits| ==> digits[i] == '-' || IsDigit(digits[i])
    ensures '&' !in digits
  {
  }

  lemma SplitFive(a: string, b: string, c: string, d: string, e: string)
    requires '&' !in a && '&' !in b && '&' !in c && '&' !in d && '&' !in e
    ensures Split(a + ['&'] + (b + ['&'] + (c + ['&'] + (d + ['&'] + e))), '&') == [a, b, c, d, e]
  {
    JoinFive(a, b, c, d, e);
    SplitJoin([a, b, c, d, e], '&');
  }

  lemma SplitSeven(a: string, b: string, c: string, d: string, e: string, f: string, g: string)
    requires '&' !in a && '&' !in b && '&' !in c && '&' !in d && '&' !in e && '&' !in f && '&' !in g
    ensures Split(a + ['&'] + (b + ['&'] + (c + ['&'] + (d + ['&'] + (e + ['&'] + (f + ['&'] + g))))), '&') ==
            [a, b, c, d, e, f, g]
  {
    JoinSeven(a, b, c, d, e, f, g);
    SplitJoin([a, b, c, d, e, f, g], '&');
  }

  lemma JoinFive(a: string, b: string, c: string, d: string, e: string)
    ensures Join([a, b, c, d, e], '&') == a + ['&'] + (b + ['&'] + (c + ['&'] + (d + ['&'] + e)))
  {
    assert [d, e][1..] == [e];
    assert Join([d, e], '&') == d + ['&'] + e;
    assert [c, d, e][1..] == [d, e];
    assert Join([c, d, e], '&') == c + ['&'] + Join([d, e], '&');
    assert [b, c, d, e][1..] == [c, d, e];
    assert Join([b, c, d, e], '&') == b + ['&'] + Join([c, d, e], '&');
    assert [a, b, c, d, e][1..] == [b, c, d, e];
    assert Join([a, b, c, d, e], '&') == a + ['&'] + Join([b, c, d, e], '&');
  }

  lemma JoinSeven(a: string, b: string, c: string, d: string, e: string, f: string, g: string)
    ensures Join([a, b, c, d, e, f, g], '&') == a + ['&'] + (b + ['&'] + (c + ['&'] + (d + ['&'] + (e + ['&'] + (f + ['&'] + g)))))
  {
    JoinFive(c, d, e, f, g);
    assert [b, c, d, e, f, g][1..] == [c, d, e, f, g];
    assert Join([b, c, d, e, f, g], '&') == b + ['&'] + Join([c, d, e, f, g], '&');
    assert [a, b, c, d, e, f, g][1..] == [b, c, d, e, f, g];
    assert Join([a, b, c, d, e, f, g], '&') == a + ['&'] + Join([b, c, d, e, f, g], '&');
  }

  lemma ZoomedShape(x: string, y: string, z: string, w: string)
    ensures "stream=3&channel=0&vx=" + x + "&vy=" + y + ("&vs=10" + ("&zooming=" + z + "&zs=" + w)) ==
            "stream=3" + ['&'] + ("channel=0" + ['&'] + (("vx=" + x) + ['&'] + (("vy=" + y) + ['&'] +
              ("vs=10" + ['&'] + (("zooming=" + z) + ['&'] + ("zs=" + w))))))
  {
    var t1 := ("zooming=" + z) + ['&'] + ("zs=" + w);
    assert "&zooming=" + z + "&zs=" + w == ['&'] + t1;
    var t2 := "vs=10" + ['&'] + t1;
    assert "&vs=10" + ['&'] + t1 == ['&'] + t2;
    var t3 := ("vy=" + y) + ['&'] + t2;
    assert "&vy=" + y + (['&'] + t2) == ['&'] + t3;
    var t4 := ("vx=" + x) + ['&'] + t3;
    assert "stream=3&channel=0&vx=" + x + (['&'] + t3) == "stream=3" + ['&'] + ("channel=0" + ['&'] + t4);
  }

  lemma PlainShape(x: string, y: string)
    ensures "stream=3&channel=0&vx=" + x + "&vy=" + y + ("&vs=10" + "") ==
            "stream=3" + ['&'] + ("channel=0" + ['&'] + (("vx=" + x) + ['&'] + (("vy=" + y) + ['&'] + "vs=10")))
  {
    var t3 := ("vy=" + y) + ['&'] + "vs=10";
    assert "&vy=" + y + ("&vs=10" + "") == ['&'] + t3;
    var t4 := ("vx=" + x) + ['&'] + t3;
    assert "stream=3&channel=0&vx=" + x + (['&'] + t3) == "stream=3" + ['&'] + ("channel=0" + ['&'] + t4);
  }

  /** A direction that is already normalised stays as it is. */
  lemma NormalizeZoomIdempotent(zooming: Option<string>)
    ensures NormalizeZoom(NormalizeZoom(zooming)) == NormalizeZoom(zooming)
  {
    var z := NormalizeZoom(zooming);
    if z.Some? {
      ZoomWordFixed(z.value);
    }
  }

  lemma ZoomWordFixed(w: string)
    requires w == "tele" || w == "wide"
    ensures Strip(Lower(w)) == w
  {
    LowerUnchanged(w);
    StripUnchanged(w);
  }

  // ---- absolute moves ----

  /** Python's `x in range(start, stop)`. */
  predicate InRange(start: int, stop: int, x: int)
  {
    start <= x < stop
  }

  /** The targets an absolute move accepts: `range(min - 1, max + 1)` on each axis. */
  predicate Accepts(limits: MotionLimits, px: int, py: int)
  {
    InRange(limits.minPan - 1, limits.maxPan + 1, px) && InRange(limits.minTilt - 1, limits.maxTilt + 1, py)
  }

  /** The accepted pans are `minPan - 1 .. maxPan` and the accepted tilts `minTilt - 1 .. maxTilt`:
      one below each lower limit is let through, nothing above an upper limit is. */
  lemma AcceptedTargets(limits: MotionLimits, px: int, py: int)
    ensures Accepts(limits, px, py) <==>
              limits.minPan - 1 <= px <= limits.maxPan && limits.minTilt - 1 <= py <= limits.maxTilt
    ensures limits.minPan <= limits.maxPan && limits.minTilt <= limits.maxTilt ==>
              Accepts(limits, limits.minPan - 1, limits.minTilt)
  {
  }

  /** With limits -170..170 and -20..90, the target (200, 0) is rejected. */
  lemma RejectsBeyondMaxPan()
    ensures !Accepts(MotionLimits(-170, 170, -20, 90), 200, 0)
    ensures Accepts(MotionLimits(-170, 170, -20, 90), -171, 0)
  {
  }

  function PositionQuery(px: int, py: int, panSpeed: int, tiltSpeed: int): string
  {
    "setpan=" + IntToString(px) + "&settilt=" + IntToString(py)
    + "&speedx=" + IntToString(panSpeed) + "&speedy=" + IntToString(tiltSpeed)
    + "&setptmode=nonblock"
  }

  /** An absolute move carries the target, both speeds and the non-blocking mode, in that order. */
  lemma PositionQueryFields(px: int, py: int, panSpeed: int, tiltSpeed: int)
    ensures Split(PositionQuery(px, py, panSpeed, tiltSpeed), '&') ==
              ["setpan=" + IntToString(px), "settilt=" + IntToString(py),
               "speedx=" + IntToString(panSpeed), "speedy=" + IntToString(tiltSpeed), "setptmode=nonblock"]
  {
    var a, b, c, d := IntToString(px), IntToString(py), IntToString(panSpeed), IntToString(tiltSpeed);
    NoAmpersand(a);
    NoAmpersand(b);
    NoAmpersand(c);
    NoAmpersand(d);
    PositionFields(a, b, c, d);
  }

  /** The split of a position query, for any field texts free of `&`. */
  lemma PositionFields(a: string, b: string, c: string, d: string)
    requires '&' !in a && '&' !in b && '&' !in c && '&' !in d
    ensures Split("setpan=" + a + "&settilt=" + b + "&speedx=" + c + "&speedy=" + d + "&setptmode=nonblock", '&') ==
              ["setpan=" + a, "settilt=" + b, "speedx=" + c, "speedy=" + d, "setptmode=nonblock"]
  {
    PositionQueryShape(a, b, c, d);
    SplitFive("setpan=" + a, "settilt=" + b, "speedx=" + c, "speedy=" + d, "setptmode=nonblock");
  }

  lemma PositionQueryShape(a: string, b: string, c: string, d: string)
    ensures "setpan=" + a + "&settilt=" + b + "&speedx=" + c + "&speedy=" + d + "&setptmode=nonblock" ==
            ("setpan=" + a) + ['&'] + (("settilt=" + b) + ['&'] + (("speedx=" + c) + ['&'] + (("speedy=" + d) + ['&'] + "setptmode=nonblock")))
  {
    assert "&settilt=" == ['&'] + "settilt=";
    assert "&speedx=" == ['&'] + "speedx=";
    assert "&speedy=" == ['&'] + "speedy=";
    assert "&setptmode=nonblock" == ['&'] + "setptmode=nonblock";
  }

  /** Connecting succeeds when the first reply carries all four limits and the
      second a position. */
  predicate Connects(script: seq<string>)
  {
    LimitsOf(ReplyOf(script)).Ok? && PositionOf(ReplyOf(Rest(script))).Ok?
  }

  /** A client of one camera. The camera itself is an oracle: `script` holds
      the reply bodies it will give, in order, and `statuses` the tracking
      statuses it will report; `trace` records every request and pause. */
  class Controller {
    const ip: string
    var limits: MotionLimits
    var currentX: Option<int>
    var currentY: Option<int>
    var script: seq<string>
    var statuses: seq<TrackingStatus>
    ghost var trace: seq<Event>
    /** Whether the limits have been read, as they are before any client is handed out. */
    ghost var connected: bool

    /** A client that has not yet spoken to the device; only `Open` hands one out,
        after connecting it. */
    constructor (ip: string, script: seq<string>, statuses: seq<TrackingStatus>)
      ensures this.ip == ip && this.script == script && this.statuses == statuses
      ensures currentX == None && currentY == None && trace == [] && !connected
    {
      this.ip := ip;
      this.limits := MotionLimits(0, 0, 0, 0);
      this.currentX, this.currentY := None, None;
      this.script, this.statuses := script, statuses;
      this.trace := [];
      this.connected := false;
    }

    /** Connecting: read the four limits, then poll the position. Fails when
        either reply is missing or malformed. */
    static method Open(ip: string, script: seq<string>, statuses: seq<TrackingStatus>)
      returns (r: Result<Controller>)
      ensures r.Ok? <==> Connects(script)
      ensures var lim, pos := LimitsOf(ReplyOf(script)), PositionOf(ReplyOf(Rest(script)));
              r.Err? ==> r.error == (if lim.Err? then lim.error else pos.error)
      ensures r.Ok? ==>
                var c := r.value;
                var pos := ReplyOf(Rest(script));
                fresh(c) && c.connected && c.ip == ip && Ok(c.limits) == LimitsOf(ReplyOf(script)) &&
                c.currentX == PolledPan(pos) && c.currentY == PolledTilt(pos) &&
                c.script == Rest(Rest(script)) && c.statuses == statuses &&
                c.trace == [Http(Get(ParamUrl(ip, LimitNames))), Http(Get(ParamUrl(ip, PositionNames)))]
    {
      var c := new Controller(ip, script, statuses);
      var connected := c.Connect();
      if connected.Err? {
        return Err(connected.error);
      }
      return Ok(c);
    }

    /** The body of the connection: the limits, then a first position poll. */
    method Connect() returns (r: Result<()>)
      requires !connected
      modifies this`limits, this`script, this`trace, this`currentX, this`currentY, this`connected
      ensures connected <==> r.Ok?
      ensures r.Ok? <==> Connects(old(script))
      ensures var lim, pos := LimitsOf(ReplyOf(old(script))), PositionOf(ReplyOf(Rest(old(script))));
              r.Err? ==> r.error == (if lim.Err? then lim.error else pos.error)
      ensures r.Ok? ==>
                var pos := ReplyOf(Rest(old(script)));
                Ok(limits) == LimitsOf(ReplyOf(old(script))) &&
                currentX == PolledPan(pos) && currentY == PolledTilt(pos) &&
                script == Rest(Rest(old(script))) &&
                trace == old(trace) + [Http(Get(ParamUrl(ip, LimitNames))), Http(Get(ParamUrl(ip, PositionNames)))]
    {
      ghost var s0, t0 := script, trace;
      ghost var ask, poll := Http(Get(ParamUrl(ip, LimitNames))), Http(Get(ParamUrl(ip, PositionNames)));
      var lim := ReadLimits();
      if lim.Err? {
        return Err(lim.error);
      }
      ghost var t1, s1 := trace, script;
      var p := CurrentPosition();
      assert p == PositionOf(ReplyOf(s1));
      assert trace == t0 + [ask, poll] by {
        assert trace == t1 + [poll];
      }
      if p.Err? {
        return Err(p.error);
      }
      connected := true;
      return Ok(());
    }

    /** The first step of connecting: the four limits are read and stored, and the
        position is cleared; a failed read stores nothing. */
    method ReadLimits() returns (lim: Result<MotionLimits>)
      requires !connected
      modifies this`limits, this`script, this`trace, this`currentX, this`currentY
      ensures lim == LimitsOf(ReplyOf(old(script)))
      ensures script == Rest(old(script))
      ensures trace == old(trace) + [Http(Get(ParamUrl(ip, LimitNames)))]
      ensures lim.Ok? ==> limits == lim.value && currentX == None && currentY == None
      ensures lim.Err? ==> limits == old(limits) && currentX == old(currentX) && currentY == old(currentY)
    {
      var data := GetParam(LimitNames);
      lim := LimitsFrom(data);
      if lim.Ok? {
        limits := lim.value;
        currentX, currentY := None, None;
      }
    }

    /** An HTTP request: recorded, answered by the next scripted reply, or a
        transport error when the device has none left. */
    method Send(req: Request) returns (r: Result<string>)
      modifies this`script, this`trace
      ensures trace == old(trace) + [Http(req)]
      ensures r == ReplyOf(old(script)) && script == Rest(old(script))
    {
      trace := trace + [Http(req)];
      if script == [] {
        r := Err(Transport);
      } else {
        r := Ok(script[0]);
        script := script[1..];
      }
    }

    /** A GET whose reply is the tracking status, read from the status oracle. */
    method SendForStatus(url: string) returns (r: Result<TrackingStatus>)
      modifies this`statuses, this`trace
      ensures trace == old(trace) + [Http(Get(url))]
      ensures r == ReplyOf(old(statuses)) && statuses == Rest(old(statuses))
    {
      trace := trace + [Http(Get(url))];
      if statuses == [] {
        r := Err(Transport);
      } else {
        r := Ok(statuses[0]);
        statuses := statuses[1..];
      }
    }

    /** `time.sleep`, recorded as a pause. */
    method Sleep(millis: int)
      modifies this`trace
      ensures trace == old(trace) + [Pause(millis)]
    {
      trace := trace + [Pause(millis)];
    }

    /** Asks for `names` in one request and reads the reply into a map. */
    method GetParam(names: seq<string>) returns (r: Result<map<string, int>>)
      modifies this`script, this`trace
      ensures trace == old(trace) + [Http(Get(ParamUrl(ip, names)))]
      ensures script == Rest(old(script))
      ensures r == ParamsOf(ReplyOf(old(script)))
    {
      var reply := Send(Get(ParamUrl(ip, names)));
      if reply.Err? {
        return Err(reply.error);
      }
      r := ParseBody(reply.value);
    }

    /** Polls `pan` and `tilt` and stores them as the current position. */
    method CurrentPosition() returns (r: Result<map<string, int>>)
      modifies this`script, this`trace, this`currentX, this`currentY
      ensures trace == old(trace) + [Http(Get(ParamUrl(ip, PositionNames)))]
      ensures script == Rest(old(script))
      ensures r == PositionOf(ReplyOf(old(script)))
      ensures currentX == Update(old(currentX), PolledPan(ReplyOf(old(script))))
      ensures currentY == Update(old(currentY), PolledTilt(ReplyOf(old(script))))
      ensures limits == old(limits)
    {
      var data := GetParam(PositionNames);
      if data.Err? {
        return Err(data.error);
      }
      if "pan" !in data.value {
        return Err(Protocol);
      }
      currentX := Some(data.value["pan"]);
      if "tilt" !in data.value {
        return Err(Protocol);
      }
      currentY := Some(data.value["tilt"]);
      return Ok(data.value);
    }

    /** Moves by a speed vector, with an optional zoom, then polls the position.
        Returns the reply to the move. */
    method VectorMove(vx: int, vy: int, zooming: Option<string> := None, zs: Option<string> := None)
      returns (r: Result<string>)
      modifies this`script, this`trace, this`currentX, this`currentY
      ensures var move := Http(Get(CamCtrl(ip, VectorQuery(vx, vy, zooming, zs))));
              old(script) == [] ==>
                r == Err(Transport) && trace == old(trace) + [move] && script == [] &&
                currentX == old(currentX) && currentY == old(currentY)
      ensures var move := Http(Get(CamCtrl(ip, VectorQuery(vx, vy, zooming, zs))));
              var poll := ReplyOf(Rest(old(script)));
              old(script) != [] ==>
                trace == old(trace) + [move, Http(Get(ParamUrl(ip, PositionNames)))] &&
                script == Rest(Rest(old(script))) &&
                currentX == Update(old(currentX), PolledPan(poll)) &&
                currentY == Update(old(currentY), PolledTilt(poll)) &&
                (PositionOf(poll).Ok? ==> r == Ok(old(script)[0])) &&
                (PositionOf(poll).Err? ==> r == Err(PositionOf(poll).error))
      ensures limits == old(limits)
    {
      r := SendVectorMove(VectorQuery(vx, vy, zooming, zs));
    }

    /** The body of a vector move: send the query, then poll the position so that
        the cache follows the camera. */
    method SendVectorMove(query: string) returns (r: Result<string>)
      modifies this`script, this`trace, this`currentX, this`currentY
      ensures var move := Http(Get(CamCtrl(ip, query)));
              old(script) == [] ==>
                r == Err(Transport) && trace == old(trace) + [move] && script == [] &&
                currentX == old(currentX) && currentY == old(currentY)
      ensures var move := Http(Get(CamCtrl(ip, query)));
              var poll := ReplyOf(Rest(old(script)));
              old(script) != [] ==>
                trace == old(trace) + [move, Http(Get(ParamUrl(ip, PositionNames)))] &&
                script == Rest(Rest(old(script))) &&
                currentX == Update(old(currentX), PolledPan(poll)) &&
                currentY == Update(old(currentY), PolledTilt(poll)) &&
                (PositionOf(poll).Ok? ==> r == Ok(old(script)[0])) &&
                (PositionOf(poll).Err? ==> r == Err(PositionOf(poll).error))
      ensures limits == old(limits)
    {
      ghost var s0, t0 := script, trace;
      ghost var move, poll := Http(Get(CamCtrl(ip, query))), Http(Get(ParamUrl(ip, PositionNames)));
      var reply := Send(Get(CamCtrl(ip, query)));
      if reply.Err? {
        return Err(reply.error);
      }
      ghost var t1, s1 := trace, script;
      assert t1 == t0 + [move] && s1 == Rest(s0);
      var p := CurrentPosition();
      assert trace == t0 + [move, poll] by {
        assert trace == t1 + [poll];
      }
      if p.Err? {
        return Err(p.error);
      }
      return reply;
    }

    /** Moves to an absolute target when it is in the accepted range, pauses
        100 ms and polls the position; an out-of-range target issues nothing. */
    method PositionMove(px: int, py: int, panSpeed: int := 100, tiltSpeed: int := 100)
      returns (r: Result<string>)
      requires connected
      modifies this`script, this`trace, this`currentX, this`currentY
      ensures !Accepts(limits, px, py) ==>
                r == Err(OutOfRange) && trace == old(trace) && script == old(script) &&
                currentX == old(currentX) && currentY == old(currentY)
      ensures var move := Http(Get(CamCtrl(ip, PositionQuery(px, py, panSpeed, tiltSpeed))));
              Accepts(limits, px, py) && old(script) == [] ==>
                r == Err(Transport) && trace == old(trace) + [move] && script == [] &&
                currentX == old(currentX) && currentY == old(currentY)
      ensures var move := Http(Get(CamCtrl(ip, PositionQuery(px, py, panSpeed, tiltSpeed))));
              var poll := ReplyOf(Rest(old(script)));
              Accepts(limits, px, py) && old(script) != [] ==>
                trace == old(trace) + [move, Pause(100), Http(Get(ParamUrl(ip, PositionNames)))] &&
                script == Rest(Rest(old(script))) &&
                currentX == Update(old(currentX), PolledPan(poll)) &&
                currentY == Update(old(currentY), PolledTilt(poll)) &&
                (PositionOf(poll).Ok? ==> r == Ok(old(script)[0])) &&
                (PositionOf(poll).Err? ==> r == Err(PositionOf(poll).error))
      ensures limits == old(limits)
    {
      if !InRange(limits.minPan - 1, limits.maxPan + 1, px) {
        return Err(OutOfRange);
      }
      if !InRange(limits.minTilt - 1, limits.maxTilt + 1, py) {
        return Err(OutOfRange);
      }
      assert Accepts(limits, px, py);
      r := SendPositionMove(PositionQuery(px, py, panSpeed, tiltSpeed));
    }

    /** The accepted part of a position move: send the query, wait a tenth of a
        second, then poll the position so that the cache follows the camera. */
    method SendPositionMove(query: string) returns (r: Result<string>)
      modifies this`script, this`trace, this`currentX, this`currentY
      ensures var move := Http(Get(CamCtrl(ip, query)));
              old(script) == [] ==>
                r == Err(Transport) && trace == old(trace) + [move] && script == [] &&
                currentX == old(currentX) && currentY == old(currentY)
      ensures var move := Http(Get(CamCtrl(ip, query)));
              var poll := ReplyOf(Rest(old(script)));
              old(script) != [] ==>
                trace == old(trace) + [move, Pause(100), Http(Get(ParamUrl(ip, PositionNames)))] &&
                script == Rest(Rest(old(script))) &&
                currentX == Update(old(currentX), PolledPan(poll)) &&
                currentY == Update(old(currentY), PolledTilt(poll)) &&
                (PositionOf(poll).Ok? ==> r == Ok(old(script)[0])) &&
                (PositionOf(poll).Err? ==> r == Err(PositionOf(poll).error))
    {
      ghost var s0, t0 := script, trace;
      ghost var move, poll := Http(Get(CamCtrl(ip, query))), Http(Get(ParamUrl(ip, PositionNames)));
      var reply := Send(Get(CamCtrl(ip, query)));
      if reply.Err? {
        return Err(reply.error);
      }
      Sleep(100);
      ghost var t1, s1 := trace, script;
      assert t1 == t0 + [move] + [Pause(100)] && s1 == Rest(s0);
      var p := CurrentPosition();
      assert trace == t0 + [move, Pause(100), poll] by {
        assert trace == t1 + [poll];
      }
      if p.Err? {
        return Err(p.error);
      }
      return reply;
    }
  }
}

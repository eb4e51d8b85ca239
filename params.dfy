/** The parameter query of the camera control CGI: a request names the
    parameters it wants (`getpan&gettilt`) and the reply lists them as
    `&`-separated `name=value` pairs with integer values. */
module ParamCodec {
  import opened Channel
  import opened PyText

  datatype Param = Param(name: string, value: int)

  /** The query string asking for `names`: each prefixed with `get`, joined by `&`. */
  function Query(names: seq<string>): string
  {
    Join(seq(|names|, i requires 0 <= i < |names| => "get" + names[i]), '&')
  }

  /** One reply item, `name=value`: exactly one `=` and an integer value. */
  function ParseItem(item: string): Option<Param>
  {
    var parts := Split(item, '=');
    if |parts| != 2 then None
    else match ParseInt(parts[1])
      case None => None
      case Some(v) => Some(Param(parts[0], v))
  }

  /** The items read in order into a map, a later name overwriting an earlier
      one; any malformed item makes the whole reply a protocol error. */
  function ParseItems(items: seq<string>): (r: Result<map<string, int>>)
    ensures r.Err? ==> r.error == Protocol
    decreases |items|
  {
    if items == [] then Ok(map[])
    else match ParseItems(items[..|items| - 1])
      case Err(e) => Err(e)
      case Ok(m) =>
        match ParseItem(items[|items| - 1])
        case None => Err(Protocol)
        case Some(p) => Ok(m[p.name := p.value])
  }

  /** The reply body: trailing whitespace dropped, split on `&`, each item parsed. */
  function ParseParams(body: string): Result<map<string, int>>
  {
    ParseItems(Split(RStrip(body), '&'))
  }

  /** The parameters a reply to a request carries; a missing reply is a transport error. */
  function ParamsOf(reply: Result<string>): (r: Result<map<string, int>>)
    ensures reply.Err? ==> r == Err(reply.error)
    ensures reply.Ok? ==> r == ParseParams(reply.value)
  {
    match reply
    case Err(e) => Err(e)
    case Ok(body) => ParseParams(body)
  }

  function EncodeItem(p: Param): string
  {
    p.name + "=" + IntToString(p.value)
  }

  function EncodeItems(ps: seq<Param>): (items: seq<string>)
    ensures |items| == |ps|
    ensures forall i :: 0 <= i < |ps| ==> items[i] == EncodeItem(ps[i])
  {
    seq(|ps|, i requires 0 <= i < |ps| => EncodeItem(ps[i]))
  }

  /** The reply body the device gives for `ps`. */
  function Encode(ps: seq<Param>): string
  {
    Join(EncodeItems(ps), '&')
  }

  /** The map that results from entering `ps` in order. */
  function AsMap(ps: seq<Param>): map<string, int>
    decreases |ps|
  {
    if ps == [] then map[] else AsMap(ps[..|ps| - 1])[ps[|ps| - 1].name := ps[|ps| - 1].value]
  }

  predicate WellNamed(ps: seq<Param>)
  {
    forall i :: 0 <= i < |ps| ==> '&' !in ps[i].name && '=' !in ps[i].name
  }

  /** The query lists the requested names, each prefixed with `get`, in order, separated by `&`. */
  lemma QueryLists(names: seq<string>)
    requires |names| >= 1
    requires forall i :: 0 <= i < |names| ==> '&' !in names[i]
    ensures Split(Query(names), '&') == seq(|names|, i requires 0 <= i < |names| => "get" + names[i])
  {
    var parts := seq(|names|, i requires 0 <= i < |names| => "get" + names[i]);
    forall k | 0 <= k < |parts| ensures '&' !in parts[k] {
      assert parts[k] == "get" + names[k];
    }
    SplitJoin(parts, '&');
  }

  lemma EncodedItemShape(p: Param)
    requires '&' !in p.name
    ensures var e := EncodeItem(p); '&' !in e && e != [] && IsDigit(e[|e| - 1])
  {
    var digits := IntToString(p.value);
    assert '&' !in digits;
  }

  /** An encoded item parses back to itself. */
  lemma ItemRoundTrip(p: Param)
    requires '&' !in p.name && '=' !in p.name
    ensures ParseItem(EncodeItem(p)) == Some(p)
  {
    var digits := IntToString(p.value);
    assert EncodeItem(p) == p.name + ['='] + digits;
    SplitAfter(p.name, '=', digits);
    SplitWhole(digits, '=');
    ParseIntToString(p.value, "", "");
    assert "" + digits + "" == digits;
  }

  lemma {:induction false} ItemsRoundTrip(ps: seq<Param>)
    requires WellNamed(ps)
    ensures ParseItems(EncodeItems(ps)) == Ok(AsMap(ps))
    decreases |ps|
  {
    if ps != [] {
      var init, last := ps[..|ps| - 1], ps[|ps| - 1];
      var items := EncodeItems(ps);
      ItemsRoundTrip(init);
      assert items[..|items| - 1] == EncodeItems(init);
      assert items[|items| - 1] == EncodeItem(last);
      ItemRoundTrip(last);
    }
  }

  /** An encoded reply ends in a digit, and none of its items contains `&`. */
  lemma EncodedShape(ps: seq<Param>)
    requires |ps| >= 1 && WellNamed(ps)
    ensures forall k :: 0 <= k < |ps| ==> '&' !in EncodeItems(ps)[k]
    ensures var body := Encode(ps); body != [] && IsDigit(body[|body| - 1])
  {
    var items := EncodeItems(ps);
    var body := Join(items, '&');
    forall k | 0 <= k < |items| ensures '&' !in items[k] {
      EncodedItemShape(ps[k]);
    }
    var last := items[|items| - 1];
    EncodedItemShape(ps[|ps| - 1]);
    if |items| >= 2 {
      JoinLast(items, '&');
      assert body == Join(items[..|items| - 1], '&') + ['&'] + last;
    }
    assert body[|body| - 1] == last[|last| - 1];
  }

  /** Round trip: a reply listing `ps` as `name=value` pairs, with any trailing
      whitespace, parses to the map of those pairs. */
  lemma ParamsRoundTrip(ps: seq<Param>, ws: string)
    requires |ps| >= 1 && WellNamed(ps)
    requires AllSpace(ws)
    ensures ParseParams(Encode(ps) + ws) == Ok(AsMap(ps))
  {
    var body := Encode(ps);
    EncodedShape(ps);
    assert RStrip(body + ws) == body by {
      assert !IsSpace(body[|body| - 1]);
      RStripAppended(body, ws);
    }
    assert Split(body, '&') == EncodeItems(ps) by {
      SplitJoin(EncodeItems(ps), '&');
    }
    ItemsRoundTrip(ps);
  }

  /** The map of `ps` holds exactly the names of `ps`, each with the value of its last occurrence. */
  lemma {:induction false} AsMapLookup(ps: seq<Param>)
    ensures forall k :: k in AsMap(ps) <==> exists i :: 0 <= i < |ps| && ps[i].name == k
    ensures forall i :: 0 <= i < |ps| && (forall j :: i < j < |ps| ==> ps[j].name != ps[i].name) ==>
              AsMap(ps)[ps[i].name] == ps[i].value
    decreases |ps|
  {
    if ps != [] {
      var init := ps[..|ps| - 1];
      AsMapLookup(init);
      forall i | 0 <= i < |ps| && (forall j :: i < j < |ps| ==> ps[j].name != ps[i].name)
        ensures AsMap(ps)[ps[i].name] == ps[i].value
      {
        if i < |init| {
          assert ps[|ps| - 1].name != ps[i].name;
          assert init[i] == ps[i];
          assert forall j :: i < j < |init| ==> init[j].name != init[i].name by {
            forall j | i < j < |init| ensures init[j].name != init[i].name {
              assert init[j] == ps[j];
            }
          }
        }
      }
      forall k ensures k in AsMap(ps) <==> exists i :: 0 <= i < |ps| && ps[i].name == k {
        if k in AsMap(init) {
          var i :| 0 <= i < |init| && init[i].name == k;
          assert ps[i].name == k;
        }
        if exists i :: 0 <= i < |ps| && ps[i].name == k {
          var i :| 0 <= i < |ps| && ps[i].name == k;
          if i < |init| { assert init[i].name == k; }
        }
      }
    }
  }

  /** One more item: a malformed one makes the prefix fail, a well-formed one after a
      parsed prefix adds its pair to the map. */
  lemma ParsePrefixStep(items: seq<string>, i: nat)
    requires i < |items|
    ensures ParseItem(items[i]).None? ==> ParseItems(items[..i + 1]).Err?
    ensures var m, p := ParseItems(items[..i]), ParseItem(items[i]);
            m.Ok? && p.Some? ==> ParseItems(items[..i + 1]) == Ok(m.value[p.value.name := p.value.value])
  {
    assert items[..i + 1][..i] == items[..i];
  }

  /** The parse loop of a reply: the body is stripped on the right and split at `&`,
      and each item's pair is added to the map in turn; the first malformed item
      ends the loop with a protocol error. */
  method ParseBody(body: string) returns (r: Result<map<string, int>>)
    ensures r == ParseParams(body)
  {
    var items := Split(RStrip(body), '&');
    var result := map[];
    for i := 0 to |items|
      invariant ParseItems(items[..i]) == Ok(result)
    {
      var item := ParseItem(items[i]);
      ParsePrefixStep(items, i);
      if item.None? {
        ParseErrorPersists(items, i + 1);
        return Err(Protocol);
      }
      result := result[item.value.name := item.value.value];
    }
    assert items[..|items|] == items;
    return Ok(result);
  }

  /** Some item is not a single `name=value` pair with an integer value. */
  predicate Malformed(items: seq<string>)
  {
    exists k :: 0 <= k < |items| && ParseItem(items[k]).None?
  }

  /** A reply is rejected exactly when one of its items is malformed. */
  lemma {:induction false} ItemsFail(items: seq<string>)
    ensures ParseItems(items).Err? <==> Malformed(items)
    decreases |items|
  {
    if items != [] {
      var init := items[..|items| - 1];
      ItemsFail(init);
      MalformedSnoc(init, items[|items| - 1]);
      assert init + [items[|items| - 1]] == items;
    }
  }

  /** Adding an item makes the list malformed exactly when it was already, or the new item is. */
  lemma MalformedSnoc(init: seq<string>, last: string)
    ensures Malformed(init + [last]) <==> Malformed(init) || ParseItem(last).None?
  {
    var items := init + [last];
    if Malformed(init) {
      var k :| 0 <= k < |init| && ParseItem(init[k]).None?;
      assert items[k] == init[k];
    }
    if ParseItem(last).None? {
      assert items[|init|] == last;
    }
    if Malformed(items) {
      var k :| 0 <= k < |items| && ParseItem(items[k]).None?;
      if k < |init| { assert init[k] == items[k]; }
    }
  }

  /** `ParseParams` fails exactly when some `&`-separated item of the stripped body is malformed. */
  lemma ParamsFail(body: string)
    ensures ParseParams(body).Err? <==> Malformed(Split(RStrip(body), '&'))
  {
    ItemsFail(Split(RStrip(body), '&'));
  }

  /** Once a prefix of the items fails to parse, so does every longer prefix. */
  lemma {:induction false} ParseErrorPersists(items: seq<string>, n: nat)
    requires n <= |items|
    requires ParseItems(items[..n]).Err?
    ensures ParseItems(items).Err?
    decreases |items| - n
  {
    if n < |items| {
      assert items[..n + 1][..n] == items[..n];
      ParseErrorPersists(items, n + 1);
    } else {
      assert items[..n] == items;
    }
  }
}

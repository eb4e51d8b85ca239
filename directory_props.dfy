/** Properties of the preset directory: how the count and the names are read
    from the device's replies, what a rebuild leaves in the cache, and the
    order in which the entries are fetched. */
module DirectoryProperties {
  import opened Channel
  import opened PyText
  import opened PtzController
  import opened SmartTracking

  // ---- reading one reply ----

  /** The `getsetpreset` reply `key=<count>` (with any trailing whitespace) yields the count. */
  lemma CountReplyRoundTrip(key: string, n: int, ws: string)
    requires '=' !in key
    requires AllSpace(ws)
    ensures CountOf(key + "=" + IntToString(n) + ws) == Some(n)
  {
    var digits := IntToString(n);
    assert '=' !in digits + ws by {
      assert !IsSpace('=');
    }
    Regroup(key, '=', digits, ws);
    SplitAfter(key, '=', digits + ws);
    SplitWhole(digits + ws, '=');
    ParseIntToString(n, "", ws);
    NoPrefix(digits);
  }

  /** The empty prefix, as the solver needs it spelled out after a split. */
  lemma NoPrefix(s: string)
    ensures "" + s == s
  {
  }

  /** Regroups a concatenation around one character. */
  lemma Regroup(a: string, c: char, b: string, d: string)
    ensures a + [c] + b + d == a + [c] + (b + d)
  {
  }

  /** A name reply `key=<value>` followed by a carriage return and anything at all
      yields the value with every single quote taken out, for a key free of `=` and
      a value free of `=` and carriage returns. */
  lemma NameReplyValue(key: string, v: string, tail: string)
    requires '=' !in key
    requires '=' !in v && '\r' !in v
    ensures NameOf(key + "=" + v + "\r" + tail) == Some(Remove(v, '\''))
  {
    var value := v + "\r" + tail;
    NameReplyShape(key, v, tail);
    SplitAfter(key, '=', value);
    assert Field(key + "=" + v + "\r" + tail) == Some(Split(value, '=')[0]);
    SplitFirst(v + "\r", '=', tail);
    var field := v + ['\r'] + Split(tail, '=')[0];
    assert Split(value, '=')[0] == field;
    SplitAfter(v, '\r', Split(tail, '=')[0]);
    assert Split(field, '\r')[0] == v;
  }

  /** A name reply `key='<name>'` followed by a carriage return and anything at all
      yields the name, for a name free of `=`, quotes and carriage returns. */
  lemma NameReplyRoundTrip(key: string, name: string, tail: string)
    requires '=' !in key
    requires '=' !in name && '\'' !in name && '\r' !in name
    ensures NameOf(key + "='" + name + "'\r" + tail) == Some(name)
  {
    var quoted := "'" + name + "'";
    assert key + "='" + name + "'\r" + tail == key + "=" + quoted + "\r" + tail;
    NameReplyValue(key, quoted, tail);
    Unquote(name);
  }

  /** Regroups a name reply around its first `=` (a step the solver does not find alone). */
  lemma NameReplyShape(key: string, v: string, tail: string)
    requires '=' !in v && '\r' !in v
    ensures key + "=" + v + "\r" + tail == key + ['='] + (v + "\r" + tail)
    ensures '=' !in v + "\r"
  {
  }

  /** Removing the quotes around a name free of quotes gives the name back. */
  lemma Unquote(name: string)
    requires '\'' !in name
    ensures Remove("'" + name + "'", '\'') == name
  {
    RemoveAppend("'" + name, "'", '\'');
    RemoveAppend("'", name, '\'');
    assert Remove("'", '\'') == "" by {
      assert "'"[1..] == "";
    }
  }

  // ---- rebuilding the directory ----

  /** The outcome of a rebuild. A missing count reply or an unreadable count fails
      before any name is read and leaves the cache alone. Otherwise the cache is
      replaced by the names read in order from the replies after the count, at most
      the count of them (none for a negative count), each free of quotes and carriage
      returns; the rebuild succeeds exactly when all of them were read, and then
      returns the new cache. */
  lemma RebuildOutcome(ip: string, s: Session)
    ensures var r, count := Rebuild(ip, s), [Http(Get(CountUrl(ip)))];
            && (s.script == [] ==> r == Run(Err(Transport), count, s))
            && (s.script != [] && CountOf(s.script[0]).None? ==>
                  r == Run(Err(Protocol), count, s.(script := s.script[1..])))
    ensures var r := Rebuild(ip, s);
            s.script != [] && CountOf(s.script[0]).Some? ==>
              var c := CountOf(s.script[0]).value;
              var n := if c < 0 then 0 else c;
              && |r.after.names| <= n
              && (r.outcome.Ok? <==> |r.after.names| == n)
              && (r.outcome.Ok? ==> r.outcome.value == r.after.names)
              && (forall k :: 0 <= k < |r.after.names| ==> k + 1 < |s.script| && NameOf(s.script[k + 1]) == Some(r.after.names[k]))
              && (forall k :: 0 <= k < |r.after.names| ==> '\'' !in r.after.names[k] && '\r' !in r.after.names[k])
  {
    if s.script != [] && CountOf(s.script[0]).Some? {
      var c := CountOf(s.script[0]).value;
      var n := if c < 0 then 0 else c;
      var reading := ReadNames(s.script[1..], n);
      assert Rebuild(ip, s).after.names == reading.names;
      forall k | 0 <= k < |reading.names|
        ensures k + 1 < |s.script| && NameOf(s.script[k + 1]) == Some(reading.names[k])
      {
        assert s.script[1..][k] == s.script[k + 1];
      }
    }
  }

  /** The names cached before a rebuild play no part in it: it issues the same
      requests and ends the same way, and once the count has been read the cache
      it leaves does not depend on them either. */
  lemma RebuildDiscardsCache(ip: string, s: Session, names: seq<string>)
    ensures var r, q := Rebuild(ip, s), Rebuild(ip, s.(names := names));
            && q.outcome == r.outcome && q.events == r.events
            && (CountReply(ReplyOf(s.script)).Ok? ==> q.after == r.after)
            && (CountReply(ReplyOf(s.script)).Err? ==> q.after.names == names)
  {
  }

  /** The fetches of the directory entries are in order: entry `j` from `EntryUrl(ip, j)`. */
  lemma {:induction false} EntryTraceAt(ip: string, k: nat)
    ensures forall j :: 0 <= j < k ==> EntryTrace(ip, k)[j] == Http(Get(EntryUrl(ip, j)))
  {
    if k > 0 {
      EntryTraceAt(ip, k - 1);
    }
  }

  /** The requests of a rebuild, in order: the count query, the count query once
      more for the first entry, then the name of slot `j - 2` as request `j`. A
      successful rebuild issues one request per name and one for the count. */
  lemma RebuildFetchOrder(ip: string, s: Session)
    ensures var r := Rebuild(ip, s);
            && r.events != [] && r.events[0] == Http(Get(CountUrl(ip)))
            && (|r.events| >= 2 ==> r.events[1] == Http(Get(CountUrl(ip))))
            && (forall j :: 2 <= j < |r.events| ==> r.events[j] == Http(Get(NameUrl(ip, j - 2))))
            && (r.outcome.Ok? ==> |r.events| == 1 + |r.outcome.value|)
  {
    var r := Rebuild(ip, s);
    if |r.events| >= 2 {
      var entries := r.events[1..];
      EntryTraceAt(ip, |entries|);
      assert entries == EntryTrace(ip, |entries|);
      forall j | 2 <= j < |r.events| ensures r.events[j] == Http(Get(NameUrl(ip, j - 2))) {
        assert r.events[j] == entries[j - 1];
      }
      assert r.events[1] == entries[0];
    }
  }

  // ---- moving to a preset by index ----

  /** A camera-control URL is the fixed prefix followed by the query. */
  lemma CamCtrlPrefix(ip: string, query: string)
    ensures CamCtrl(ip, query) == CamCtrl(ip, "") + query
  {
  }

  /** Recalling a preset never fetches the count query. */
  lemma RecallIsNotCount(ip: string, name: string)
    ensures RecallUrl(ip, name) != CountUrl(ip)
  {
    var prefix := CamCtrl(ip, "");
    CamCtrlPrefix(ip, "recall=" + name);
    CamCtrlPrefix(ip, "cam=getsetpreset");
    assert RecallUrl(ip, name)[|prefix|] == 'r';
    assert CountUrl(ip)[|prefix|] == 'c';
  }

  /** The directory is rebuilt, which starts with the count query, exactly when the
      cache is empty or shorter than the index. */
  lemma MoveRebuildsIff(ip: string, index: int, s: Session)
    ensures var r := MovePresetIndex(ip, index, s);
            Fetches(r.events, CountUrl(ip)) > 0 <==> NeedsRebuild(|s.names|, index)
  {
    var r := MovePresetIndex(ip, index, s);
    var count := Http(Get(CountUrl(ip)));
    OneEvent(count, CountUrl(ip));
    if NeedsRebuild(|s.names|, index) {
      RebuildFetchOrder(ip, s);
      assert r.events[0] == count;
      assert r.events == [count] + r.events[1..];
      FetchesAppend([count], r.events[1..], CountUrl(ip));
    } else if r.events != [] {
      var k := PyIndex(|s.names|, index).value;
      var recall := Http(Get(RecallUrl(ip, s.names[k])));
      assert r.events == [recall];
      RecallIsNotCount(ip, s.names[k]);
      OneEvent(recall, CountUrl(ip));
    }
  }

  /** What the move does with the directory it has (the cache, or the rebuilt one):
      it recalls exactly the name at the Python index, or, when the index falls
      outside the directory, fails with no recall. A rebuild that fails ends the
      move. */
  lemma MoveRecallsIndex(ip: string, index: int, s: Session)
    ensures var r := MovePresetIndex(ip, index, s);
            var before := if NeedsRebuild(|s.names|, index) then Rebuild(ip, s).events else [];
            var names := r.after.names;
            && (!NeedsRebuild(|s.names|, index) ==> names == s.names)
            && (r.outcome.Ok? ==>
                  PyIndex(|names|, index).Some? &&
                  r.events == before + [Http(Get(RecallUrl(ip, names[PyIndex(|names|, index).value])))])
            && (r.outcome == Err(NotFound) <==>
                  (!NeedsRebuild(|s.names|, index) || Rebuild(ip, s).outcome.Ok?) && PyIndex(|names|, index).None?)
            && (r.outcome == Err(NotFound) ==> r.events == before)
  {
    if NeedsRebuild(|s.names|, index) {
      RebuildReturnsCache(ip, s);
    }
  }

  /** A successful rebuild returns the cache it leaves: the one part of `RebuildOutcome`
      that `MoveRecallsIndex` needs, kept apart so that its proof stays small. */
  lemma RebuildReturnsCache(ip: string, s: Session)
    ensures var r := Rebuild(ip, s);
            r.outcome.Ok? ==> r.outcome.value == r.after.names
  {
  }

  /** The cache check lets an index equal to the cache length through without a
      rebuild, and that index is past the end of the list. */
  lemma IndexAtCacheLength(ip: string, s: Session)
    requires |s.names| > 0
    ensures MovePresetIndex(ip, |s.names|, s) == Run(Err(NotFound), [], s)
  {
  }
}

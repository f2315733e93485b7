/**
 * The aggregation behind `POST /update` in `web_server.py`: a bounded history per
 * key, and running sum, count, minimum, maximum and average for every key whose
 * value converts to a float.
 *
 * `time.strftime` is the parameter `now`; Python's `float()` on a string is `parse`.
 */
module Dashboard {
  import opened Wrappers
  import opened Json
  import opened RealArith

  /** Every history is a `deque(maxlen=300)`. */
  const MAX_HISTORY: nat := 300

  const ELAPSED: string := "Elapsed [s]"

  /** `deque.append` on a full deque drops the oldest entry. */
  function Push(h: seq<real>, x: real): (r: seq<real>)
    requires |h| <= MAX_HISTORY
    ensures |r| <= MAX_HISTORY && |r| > 0 && r[|r| - 1] == x
  {
    if |h| < MAX_HISTORY then h + [x] else h[1..] + [x]
  }

  /** The most recent `MAX_HISTORY` entries of a sequence. */
  function Window(s: seq<real>): (r: seq<real>)
    ensures |r| <= MAX_HISTORY
  {
    if |s| <= MAX_HISTORY then s else s[|s| - MAX_HISTORY..]
  }

  /** A sequence of appends, in order. */
  function PushAll(h: seq<real>, xs: seq<real>): (r: seq<real>)
    requires |h| <= MAX_HISTORY
    ensures |r| <= MAX_HISTORY
    decreases |xs|
  {
    if |xs| == 0 then h else PushAll(Push(h, xs[0]), xs[1..])
  }

  /** The statistics kept for one key. */
  datatype KeyStats = KeyStats(sum: real, count: nat, lo: real, hi: real, avg: real)

  datatype State = State(latest: Value, history: map<string, seq<real>>, stats: map<string, KeyStats>)

  const INITIAL: State := State(JObject([]), map[], map[])

  /** `history[key]`, which a `defaultdict` starts empty. */
  function HistoryOf(st: State, key: string): seq<real> {
    if key in st.history then st.history[key] else []
  }

  /**
   * One accepted value folded into a key's statistics: sum and count grow, the minimum
   * and maximum move only past the old ones, and the average is recomputed.
   */
  function Include(s: Option<KeyStats>, x: real): (r: KeyStats)
    ensures r.count >= 1 && r.lo <= x <= r.hi
    ensures r.avg == r.sum / r.count as real
    ensures s.Some? ==> r.count == s.value.count + 1 && r.sum == s.value.sum + x && r.lo <= s.value.lo && r.hi >= s.value.hi
    ensures s.Some? ==> (r.lo == x || r.lo == s.value.lo) && (r.hi == x || r.hi == s.value.hi)
    ensures s.None? ==> r == KeyStats(x, 1, x, x, x)
  {
    match s
      case None => KeyStats(x, 1, x, x, x)
      case Some(k) =>
        var sum := k.sum + x;
        var count := k.count + 1;
        KeyStats(sum, count, if x < k.lo then x else k.lo, if x > k.hi then x else k.hi, sum / count as real)
  }

  predicate Bounded(st: State) {
    forall k :: k in st.history ==> |st.history[k]| <= MAX_HISTORY
  }

  /** One numeric value for `key`: appended to its history and folded into its statistics. */
  function Record(st: State, key: string, x: real): (r: State)
    requires Bounded(st)
    ensures Bounded(r) && r.latest == st.latest
    ensures key in r.history && r.history[key] == Window(HistoryOf(st, key) + [x])
    ensures key in r.stats && r.stats[key].count == (if key in st.stats then st.stats[key].count + 1 else 1)
    ensures forall k :: k != key ==> At(r, k) == At(st, k)
  {
    PushIsWindow(HistoryOf(st, key), x);
    st.(history := st.history[key := Push(HistoryOf(st, key), x)],
        stats := st.stats[key := Include(if key in st.stats then Some(st.stats[key]) else None, x)])
  }

  /** The loop over `data.items()`: values that do not convert are skipped. */
  function RecordAll(st: State, fields: seq<(string, Value)>, parse: string -> Option<real>): (r: State)
    requires Bounded(st)
    ensures Bounded(r) && r.latest == st.latest
    decreases |fields|
  {
    if |fields| == 0 then st
    else
      var next := match ToFloat(fields[0].1, parse)
        case None => st
        case Some(x) => Record(st, fields[0].0, x);
      RecordAll(next, fields[1..], parse)
  }

  /** The reply: `{"status": "ok"}`, or an exception (HTTP 500) part-way through. */
  datatype Reply = Ok | ServerError

  datatype Response = Response(state: State, reply: Reply)

  /** A payload as Python's `json` decodes it: objects are dicts. */
  predicate WellFormed(payload: Value) {
    payload.JObject? ==>
      && IsDict(payload.fields)
      && var data := GetOr(payload.fields, "data", JObject([]));
         data.JObject? ==> IsDict(data.fields)
  }

  /**
   * `update()`: the payload becomes `latest_data` at once; a payload that is not an
   * object fails at `.get`, one whose `data` is not an object fails at `.items()`
   * after the timestamp is stamped. The elapsed time, or 0 when absent, is appended
   * once more after the loop.
   */
  function Update(st: State, payload: Value, now: string, parse: string -> Option<real>): (r: Response)
    requires Bounded(st) && WellFormed(payload)
    ensures Bounded(r.state)
    ensures r.reply == Ok <==> payload.JObject? && GetOr(payload.fields, "data", JObject([])).JObject?
    ensures payload.JObject? ==> r.state.latest == JObject(Set(payload.fields, "timestamp", JString(now)))
    ensures !payload.JObject? ==> r.state == st.(latest := payload)
  {
    if !payload.JObject? then Response(st.(latest := payload), ServerError)
    else
      var data := GetOr(payload.fields, "data", JObject([]));
      var stamped := Stamp(st, payload.fields, now);
      if !data.JObject? then Response(stamped, ServerError)
      else Response(AppendElapsed(RecordAll(stamped, data.fields, parse), data.fields, parse), Ok)
  }

  /** `latest_data = payload` followed by `latest_data["timestamp"] = timestamp`. */
  function Stamp(st: State, fields: seq<(string, Value)>, now: string): (r: State)
    requires Bounded(st)
    ensures Bounded(r) && r.history == st.history && r.stats == st.stats
  {
    st.(latest := JObject(Set(fields, "timestamp", JString(now))))
  }

  /** After the loop, `float(data.get("Elapsed [s]", 0))` is appended to the elapsed history when it converts. */
  function AppendElapsed(st: State, data: seq<(string, Value)>, parse: string -> Option<real>): (r: State)
    requires Bounded(st)
    ensures Bounded(r) && r.stats == st.stats && r.latest == st.latest
    ensures forall k :: k != ELAPSED ==> (k in r.history <==> k in st.history) && (k in st.history ==> r.history[k] == st.history[k])
  {
    match ToFloat(GetOr(data, ELAPSED, JNumber(0.0)), parse)
      case None => st
      case Some(e) => st.(history := st.history[ELAPSED := Push(HistoryOf(st, ELAPSED), e)])
  }

  /** What the state holds for one key. */
  function At(st: State, key: string): (Option<seq<real>>, Option<KeyStats>) {
    (if key in st.history then Some(st.history[key]) else None,
     if key in st.stats then Some(st.stats[key]) else None)
  }

  /** Sum, count, minimum, maximum and average agree with each other. */
  predicate Consistent(s: KeyStats) {
    && s.count >= 1
    && s.lo * s.count as real <= s.sum <= s.hi * s.count as real
    && s.avg == s.sum / s.count as real
  }

  predicate Valid(st: State) {
    Bounded(st) && forall k :: k in st.stats ==> Consistent(st.stats[k])
  }

  // ---------------------------------------------------------------------------
  // Lemmas

  /** A push keeps the last `MAX_HISTORY` entries of the history followed by the new value. */
  lemma PushIsWindow(h: seq<real>, x: real)
    requires |h| <= MAX_HISTORY
    ensures Push(h, x) == Window(h + [x])
  {
  }

  /** Any run of appends leaves exactly the most recent `MAX_HISTORY` values, oldest first. */
  lemma {:induction false} PushAllIsWindow(h: seq<real>, xs: seq<real>)
    requires |h| <= MAX_HISTORY
    ensures PushAll(h, xs) == Window(h + xs)
    decreases |xs|
  {
    if |xs| > 0 {
      PushIsWindow(h, xs[0]);
      PushAllIsWindow(Push(h, xs[0]), xs[1..]);
      WindowAppend(h + [xs[0]], xs[1..]);
      assert h + [xs[0]] + xs[1..] == h + xs;
    }
  }

  lemma WindowAppend(s: seq<real>, t: seq<real>)
    ensures Window(Window(s) + t) == Window(s + t)
  {
    if |s| > MAX_HISTORY {
      var w := s[|s| - MAX_HISTORY..];
      assert (w + t)[|w + t| - (if |w + t| <= MAX_HISTORY then |w + t| else MAX_HISTORY)..]
          == (s + t)[|s + t| - MAX_HISTORY..];
    }
  }

  /** Including a value keeps the statistics consistent. */
  lemma IncludeConsistent(s: Option<KeyStats>, x: real)
    requires s.Some? ==> Consistent(s.value)
    ensures Consistent(Include(s, x))
  {
    if s.Some? {
      var k := s.value;
      var r := Include(s, x);
      IncludeKeepsBounds(k.lo, k.hi, k.sum, k.count as real, x, r.lo, r.hi);
      assert r.count as real == k.count as real + 1.0;
    }
  }

  /** Consistent statistics report min ≤ avg ≤ max. */
  lemma AverageBetween(s: KeyStats)
    requires Consistent(s)
    ensures s.lo <= s.avg <= s.hi
  {
    MeanBetween(s.lo, s.hi, s.sum, s.count as real);
  }

  lemma {:induction false} RecordAllValid(st: State, fields: seq<(string, Value)>, parse: string -> Option<real>)
    requires Valid(st)
    ensures Valid(RecordAll(st, fields, parse))
    decreases |fields|
  {
    if |fields| > 0 {
      var next := match ToFloat(fields[0].1, parse)
        case None => st
        case Some(x) => Record(st, fields[0].0, x);
      if ToFloat(fields[0].1, parse).Some? {
        var key := fields[0].0;
        IncludeConsistent(if key in st.stats then Some(st.stats[key]) else None, ToFloat(fields[0].1, parse).value);
      }
      RecordAllValid(next, fields[1..], parse);
    }
  }

  /** `update()` keeps every history within 300 entries and every key's min ≤ avg ≤ max. */
  lemma UpdateValid(st: State, payload: Value, now: string, parse: string -> Option<real>)
    requires Valid(st) && WellFormed(payload)
    ensures Valid(Update(st, payload, now, parse).state)
    ensures forall k :: k in Update(st, payload, now, parse).state.stats ==>
      Update(st, payload, now, parse).state.stats[k].lo <= Update(st, payload, now, parse).state.stats[k].avg
        <= Update(st, payload, now, parse).state.stats[k].hi
  {
    if payload.JObject? {
      var data := GetOr(payload.fields, "data", JObject([]));
      if data.JObject? {
        var stamped := st.(latest := JObject(Set(payload.fields, "timestamp", JString(now))));
        RecordAllValid(stamped, data.fields, parse);
      }
    }
    var s := Update(st, payload, now, parse).state;
    forall k | k in s.stats
      ensures s.stats[k].lo <= s.stats[k].avg <= s.stats[k].hi
    {
      AverageBetween(s.stats[k]);
    }
  }

  /**
   * Over a dict, the loop treats every key on its own: a key whose value converts
   * gets exactly that one value recorded, and a key that is absent or does not
   * convert is left exactly as it was.
   */
  lemma {:induction false} RecordAllAt(st: State, fields: seq<(string, Value)>, parse: string -> Option<real>, key: string)
    requires Bounded(st) && IsDict(fields)
    ensures At(RecordAll(st, fields, parse), key) ==
      match Get(fields, key)
        case Some(v) => (match ToFloat(v, parse)
          case Some(x) => At(Record(st, key, x), key)
          case None => At(st, key))
        case None => At(st, key)
    decreases |fields|
  {
    if |fields| > 0 {
      var rest := fields[1..];
      var next := match ToFloat(fields[0].1, parse)
        case None => st
        case Some(x) => Record(st, fields[0].0, x);
      assert IsDict(rest);
      RecordAllAt(next, rest, parse, key);
      GetSplit(fields, key);
      if fields[0].0 == key {
        assert !HasKey(rest, key);
        RecordAllUntouched(next, rest, parse, key);
      }
    }
  }

  /** A key missing from the rest of the members is untouched by their loop. */
  lemma {:induction false} RecordAllUntouched(st: State, fields: seq<(string, Value)>, parse: string -> Option<real>, key: string)
    requires Bounded(st) && !HasKey(fields, key)
    ensures At(RecordAll(st, fields, parse), key) == At(st, key)
    decreases |fields|
  {
    if |fields| > 0 {
      var next := match ToFloat(fields[0].1, parse)
        case None => st
        case Some(x) => Record(st, fields[0].0, x);
      assert !HasKey(fields[1..], key);
      RecordAllUntouched(next, fields[1..], parse, key);
    }
  }

  /** Looking a key up in a dict: the first member, or the rest. */
  lemma GetSplit(fields: seq<(string, Value)>, key: string)
    requires |fields| > 0 && IsDict(fields)
    ensures fields[0].0 == key ==> Get(fields, key) == Some(fields[0].1) && !HasKey(fields[1..], key)
    ensures fields[0].0 != key ==> Get(fields, key) == Get(fields[1..], key)
  {
    var rest := fields[1..];
    if fields[0].0 == key {
      assert !HasKey(rest, key);
      GetFindsLast(fields, key, 0);
    } else {
      GetDropFirst(fields, key);
    }
  }

  lemma {:induction false} GetDropFirst(fields: seq<(string, Value)>, key: string)
    requires |fields| > 0 && fields[0].0 != key
    ensures Get(fields, key) == Get(fields[1..], key)
    decreases |fields|
  {
    var n := |fields|;
    if n > 1 && fields[n - 1].0 != key {
      GetDropFirst(fields[..n - 1], key);
      assert fields[..n - 1][1..] == fields[1..][..n - 2];
    }
  }

  /** The value `update()` records for a key of `data`, if it converts. */
  function Converted(data: seq<(string, Value)>, key: string, parse: string -> Option<real>): Option<real> {
    match Get(data, key)
      case None => None
      case Some(v) => ToFloat(v, parse)
  }

  /**
   * For any key other than the elapsed time: a value that converts is appended to that
   * key's history and folded into its statistics; an absent or non-numeric value leaves
   * the key's history and statistics exactly as they were.
   */
  lemma UpdateKey(st: State, payload: Value, now: string, parse: string -> Option<real>, key: string)
    requires Bounded(st) && WellFormed(payload) && key != ELAPSED
    requires payload.JObject? && GetOr(payload.fields, "data", JObject([])).JObject?
    ensures var data := GetOr(payload.fields, "data", JObject([])).fields;
      var r := Update(st, payload, now, parse);
      && r.reply == Ok
      && At(r.state, key) == match Converted(data, key, parse)
           case None => At(st, key)
           case Some(x) => At(Record(st, key, x), key)
  {
    var data := GetOr(payload.fields, "data", JObject([])).fields;
    var stamped := Stamp(st, payload.fields, now);
    RecordAllAt(stamped, data, parse, key);
    var looped := RecordAll(stamped, data, parse);
    assert At(Update(st, payload, now, parse).state, key) == At(looped, key);
    assert At(stamped, key) == At(st, key);
    if Converted(data, key, parse).Some? {
      var x := Converted(data, key, parse).value;
      assert At(Record(stamped, key, x), key) == At(Record(st, key, x), key);
    }
  }

  /**
   * The elapsed time gets a second append after the loop: a numeric elapsed value is
   * appended twice, a missing one appends 0, a non-numeric one appends nothing.
   */
  lemma ElapsedAppends(st: State, payload: Value, now: string, parse: string -> Option<real>)
    requires Bounded(st) && WellFormed(payload)
    requires payload.JObject? && GetOr(payload.fields, "data", JObject([])).JObject?
    ensures var data := GetOr(payload.fields, "data", JObject([])).fields;
      var h := HistoryOf(st, ELAPSED);
      var after := HistoryOf(Update(st, payload, now, parse).state, ELAPSED);
      after == match Get(data, ELAPSED)
        case None => Push(h, 0.0)
        case Some(v) => (match ToFloat(v, parse)
          case Some(e) => Push(Push(h, e), e)
          case None => h)
  {
    var data := GetOr(payload.fields, "data", JObject([])).fields;
    var stamped := Stamp(st, payload.fields, now);
    RecordAllAt(stamped, data, parse, ELAPSED);
    var looped := RecordAll(stamped, data, parse);
    var h := HistoryOf(st, ELAPSED);
    var mid := HistoryOf(looped, ELAPSED);
    assert Update(st, payload, now, parse).state == AppendElapsed(looped, data, parse);
    AppendElapsedHistory(looped, data, parse);
    match Get(data, ELAPSED) {
      case None =>
        assert mid == h;
      case Some(v) =>
        match ToFloat(v, parse) {
          case None =>
            assert mid == h;
          case Some(e) =>
            assert mid == Push(h, e);
        }
    }
  }

  lemma AppendElapsedHistory(st: State, data: seq<(string, Value)>, parse: string -> Option<real>)
    requires Bounded(st)
    ensures HistoryOf(AppendElapsed(st, data, parse), ELAPSED) ==
      match ToFloat(GetOr(data, ELAPSED, JNumber(0.0)), parse)
        case None => HistoryOf(st, ELAPSED)
        case Some(e) => Push(HistoryOf(st, ELAPSED), e)
  {
  }

  /**
   * `latest_data` is the payload as received, carrying the server's timestamp when
   * the payload is an object; a payload that is not an object fails with nothing
   * else changed.
   */
  lemma LatestStamped(st: State, payload: Value, now: string, parse: string -> Option<real>)
    requires Bounded(st) && WellFormed(payload)
    ensures var r := Update(st, payload, now, parse);
      && (payload.JObject? ==> r.state.latest.JObject? && Get(r.state.latest.fields, "timestamp") == Some(JString(now)))
      && (!payload.JObject? ==> r == Response(st.(latest := payload), ServerError))
  {
    if payload.JObject? {
      SetGet(payload.fields, "timestamp", JString(now), "data");
    }
  }

  /** A `data` member that is not an object fails at `.items()`: only the stamped payload is kept. */
  lemma BadDataFails(st: State, payload: Value, now: string, parse: string -> Option<real>)
    requires Bounded(st) && WellFormed(payload)
    requires payload.JObject? && !GetOr(payload.fields, "data", JObject([])).JObject?
    ensures var r := Update(st, payload, now, parse);
      && r.reply == ServerError
      && r.state.history == st.history && r.state.stats == st.stats
  {
  }
}

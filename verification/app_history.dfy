/**
 * The earlier dashboard back end, `POST /update` in `app.py`: a fixed set of
 * history lists, one per channel, that grow in lock-step by one entry per update.
 *
 * Python's `float()` on a string is the parameter `parse`.
 */
module AppHistory {
  import opened Wrappers
  import opened Json

  const ELAPSED: string := "Elapsed [s]"

  /** The keys the history is created with: the elapsed time and the eleven sensor channels. */
  const KEYS: seq<string> := [
    ELAPSED,
    "Temp_BME280 [°C]", "Hum [%]", "Press [hPa]", "Alt [m]",
    "Acc x [m/s²]", "Acc y [m/s²]", "Acc z [m/s²]",
    "Gyro x [°/s]", "Gyro y [°/s]", "Gyro z [°/s]",
    "Temp_MPU [°C]"
  ]

  /** Each list holds a reading, or `None` where a channel's value was missing or not numeric. */
  datatype State = State(latest: Value, history: map<string, seq<Option<real>>>)

  const INITIAL: State := State(
    JObject([("timestamp", JString("")), ("data", JObject([]))]),
    map k | k in KEYS :: [])

  /** The shape `update` keeps: exactly the initial keys, all lists of one length. */
  predicate Valid(st: State) {
    && st.history.Keys == set k | k in KEYS
    && forall a, b :: a in st.history && b in st.history ==> |st.history[a]| == |st.history[b]|
  }

  /** `content["data"]` of an object, when present. */
  function Data(content: Value): Option<Value> {
    if content.JObject? then Get(content.fields, "data") else None
  }

  /** `float(content["data"][key])`, or `None` where that raises. */
  function Reading(data: seq<(string, Value)>, key: string, parse: string -> Option<real>): Option<real> {
    match Get(data, key)
      case None => None
      case Some(v) => ToFloat(v, parse)
  }

  datatype Reply = Ok | ServerError

  datatype Response = Response(state: State, reply: Reply)

  /**
   * `update()`: the content becomes `latest_data` at once. Unless the content is an
   * object whose `data` is an object with a numeric elapsed time, the handler raises
   * before any append; otherwise every list gets one entry.
   */
  function Update(st: State, content: Value, parse: string -> Option<real>): (r: Response)
    ensures r.state.latest == content
    ensures r.state.history.Keys == st.history.Keys
  {
    match Data(content)
      case Some(JObject(data)) =>
        (match Reading(data, ELAPSED, parse)
          case None => Response(st.(latest := content), ServerError)
          case Some(e) =>
            Response(State(content,
              map k | k in st.history :: st.history[k] + [if k == ELAPSED then Some(e) else Reading(data, k, parse)]),
              Ok))
      case _ => Response(st.(latest := content), ServerError)
  }

  // ---------------------------------------------------------------------------
  // Lemmas

  lemma InitialValid()
    ensures Valid(INITIAL)
  {
  }

  lemma ValidHasElapsed(st: State)
    requires Valid(st)
    ensures ELAPSED in st.history
  {
    assert KEYS[0] == ELAPSED;
  }

  /** `update` never adds or removes keys, and keeps every list the same length. */
  lemma UpdateValid(st: State, content: Value, parse: string -> Option<real>)
    requires Valid(st)
    ensures Valid(Update(st, content, parse).state)
  {
  }

  /**
   * A successful update appends exactly one entry to every list: the elapsed time to
   * its own list, and each channel's reading, or `None` where it is missing or not numeric.
   */
  lemma UpdateAppendsOne(st: State, content: Value, parse: string -> Option<real>, key: string)
    requires key in st.history
    requires Update(st, content, parse).reply == Ok
    ensures var data := Data(content).value.fields;
      var h := Update(st, content, parse).state.history[key];
      && |h| == |st.history[key]| + 1
      && h[..|st.history[key]|] == st.history[key]
      && h[|st.history[key]|] == (if key == ELAPSED then Reading(data, ELAPSED, parse) else Reading(data, key, parse))
      && (key == ELAPSED ==> h[|st.history[key]|].Some?)
  {
  }

  /** Missing or non-numeric elapsed time (or a malformed content): history unchanged, `latest_data` still replaced. */
  lemma UpdateFailsWithoutElapsed(st: State, content: Value, parse: string -> Option<real>)
    requires !(Data(content).Some? && Data(content).value.JObject? && Reading(Data(content).value.fields, ELAPSED, parse).Some?)
    ensures Update(st, content, parse) == Response(st.(latest := content), ServerError)
  {
  }

  /** Members of `data` under keys the history does not have make no difference. */
  lemma IgnoresExtraKeys(st: State, c1: Value, c2: Value, parse: string -> Option<real>)
    requires Valid(st)
    requires Data(c1).Some? && Data(c1).value.JObject? && Data(c2).Some? && Data(c2).value.JObject?
    requires forall k :: k in st.history ==> Reading(Data(c1).value.fields, k, parse) == Reading(Data(c2).value.fields, k, parse)
    ensures Update(st, c1, parse).state.history == Update(st, c2, parse).state.history
    ensures Update(st, c1, parse).reply == Update(st, c2, parse).reply
  {
    var d1 := Data(c1).value.fields;
    var d2 := Data(c2).value.fields;
    ValidHasElapsed(st);
    if Reading(d1, ELAPSED, parse).Some? {
      var e := Reading(d1, ELAPSED, parse).value;
      var h1 := Update(st, c1, parse).state.history;
      var h2 := Update(st, c2, parse).state.history;
      forall k | k in st.history
        ensures h1[k] == h2[k]
      {
      }
    }
  }
}

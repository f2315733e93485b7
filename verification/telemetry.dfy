/**
 * The ground station's live loop in `lorareceivertest.py`: each serial line is
 * filtered by field count, folded into per-channel running statistics, passed
 * through a per-channel last-sent threshold filter and posted to the dashboard.
 *
 * Readings are `real`; Python's `float()` on a field is the parameter `parse`.
 * Channels are indexed 0..11 in `LABELS` order: the per-channel lists and the
 * label-keyed dictionaries of the program both follow that order.
 *
 * The program's statistics step can leave a rejected line half-applied. Both the
 * loop as written (`ProcessLineAsWritten`, `ListenAsWritten`) and the corrected
 * loop (`ProcessLine`, `Listen`) are modelled; they differ only in that step.
 */
module Telemetry {
  import opened Wrappers
  import opened Text
  import opened RealArith

  const ELAPSED: string := "Elapsed [s]"

  const LABELS: seq<string> := [
    ELAPSED,
    "Temp_BME280 [°C]", "Hum [%]", "Press [hPa]", "Alt [m]",
    "Acc x [m/s²]", "Acc y [m/s²]", "Acc z [m/s²]",
    "Gyro x [°/s]", "Gyro y [°/s]", "Gyro z [°/s]",
    "Temp_MPU [°C]"
  ]

  /** Per-label send thresholds; the elapsed-time channel has none. */
  const THRESHOLDS: map<string, real> := map[
    "Temp_BME280 [°C]" := 0.25, "Hum [%]" := 1.0, "Press [hPa]" := 0.5, "Alt [m]" := 0.5,
    "Acc x [m/s²]" := 0.25, "Acc y [m/s²]" := 0.25, "Acc z [m/s²]" := 0.25,
    "Gyro x [°/s]" := 5.0, "Gyro y [°/s]" := 5.0, "Gyro z [°/s]" := 5.0,
    "Temp_MPU [°C]" := 0.25
  ]

  const CHANNELS: nat := 12
  /** A line needs the timestamp plus one field per label. */
  const MIN_COLUMNS: nat := CHANNELS + 1

  /** `THRESHOLDS.get(key, 0)`. */
  function Threshold(key: string): real {
    if key in THRESHOLDS then THRESHOLDS[key] else 0.0
  }

  // ---------------------------------------------------------------------------
  // Running statistics

  /** One channel's running minimum, maximum (`None` = ±infinity, the initial values) and sum. */
  datatype Channel = Channel(lo: Option<real>, hi: Option<real>, total: real)

  const EMPTY_CHANNEL: Channel := Channel(None, None, 0.0)

  datatype Stats = Stats(channels: seq<Channel>, count: nat)

  const INITIAL_STATS: Stats := Stats(seq(CHANNELS, _ => EMPTY_CHANNEL), 0)

  /** The outcome of folding one line into the statistics, and whether the line got past the `try`. */
  datatype Update = Update(stats: Stats, accepted: bool)

  function Min(a: real, b: real): real {
    if b < a then b else a
  }

  function Max(a: real, b: real): real {
    if b > a then b else a
  }

  /** `min_data[i] = min(min_data[i], val)`, likewise for max, and `sum_data[i] += val`. */
  function Include(c: Channel, v: real): (r: Channel)
    ensures r.lo.Some? && r.lo.value <= v && (c.lo.Some? ==> r.lo.value <= c.lo.value)
    ensures r.lo.value == v || (c.lo.Some? && r.lo.value == c.lo.value)
    ensures r.hi.Some? && r.hi.value >= v && (c.hi.Some? ==> r.hi.value >= c.hi.value)
    ensures r.hi.value == v || (c.hi.Some? && r.hi.value == c.hi.value)
    ensures r.total == c.total + v
  {
    Channel(
      Some(if c.lo.None? then v else Min(c.lo.value, v)),
      Some(if c.hi.None? then v else Max(c.hi.value, v)),
      c.total + v)
  }

  /**
   * The stats loop as written: channel by channel, each parsed value goes straight
   * into min, max and sum; a field that does not parse, or a thirteenth value with no
   * slot to go to, raises and abandons the line with the earlier channels already updated.
   */
  function PartialUpdate(chs: seq<Channel>, values: seq<string>, i: nat, parse: string -> Option<real>): (r: (seq<Channel>, bool))
    requires i <= |values|
    ensures |r.0| == |chs|
    decreases |values| - i
  {
    if i == |values| then (chs, true)
    else match parse(values[i])
      case None => (chs, false)
      case Some(v) =>
        if i < |chs| then PartialUpdate(chs[i := Include(chs[i], v)], values, i + 1, parse)
        else (chs, false)
  }

  /**
   * The statistics step the program performs: the count moves only when every value
   * went in, while the channels may have moved regardless.
   */
  function UpdateAsWritten(st: Stats, values: seq<string>, parse: string -> Option<real>): (r: Update)
    ensures |r.stats.channels| == |st.channels|
    ensures r.stats.count == if r.accepted then st.count + 1 else st.count
  {
    var (chs, ok) := PartialUpdate(st.channels, values, 0, parse);
    Update(Stats(chs, if ok then st.count + 1 else st.count), ok)
  }

  /** Every field parses: the readings, in order. */
  function ParseAll(values: seq<string>, parse: string -> Option<real>): (r: Option<seq<real>>)
    ensures r.Some? ==> |r.value| == |values|
    decreases |values|
  {
    if |values| == 0 then Some([])
    else match parse(values[0])
      case None => None
      case Some(v) =>
        match ParseAll(values[1..], parse)
          case None => None
          case Some(vs) => Some([v] + vs)
  }

  /** A line the statistics take in full: exactly one parsable value per channel. */
  predicate FullLine(values: seq<string>, parse: string -> Option<real>, width: nat) {
    |values| == width && ParseAll(values, parse).Some?
  }

  function IncludeAll(chs: seq<Channel>, xs: seq<real>): (r: seq<Channel>)
    requires |xs| == |chs|
    ensures |r| == |chs|
  {
    seq(|chs|, i requires 0 <= i < |chs| => Include(chs[i], xs[i]))
  }

  /**
   * The statistics update the rest of the model uses: a line counts, and moves the
   * channels, only as a whole; anything else leaves the statistics alone.
   */
  function UpdateStats(st: Stats, values: seq<string>, parse: string -> Option<real>): (r: Update)
    ensures r.accepted <==> FullLine(values, parse, |st.channels|)
    ensures r.accepted ==> r.stats.count == st.count + 1 && |r.stats.channels| == |st.channels|
    ensures !r.accepted ==> r.stats == st
  {
    match ParseAll(values, parse)
      case None => Update(st, false)
      case Some(xs) =>
        if |xs| == |st.channels| then Update(Stats(IncludeAll(st.channels, xs), st.count + 1), true)
        else Update(st, false)
  }

  /** Each channel's minimum and maximum bracket `count` times its sum; an untouched channel is still at its initial values. */
  predicate ChannelConsistent(c: Channel, count: nat) {
    if count == 0 then c == EMPTY_CHANNEL
    else
      && c.lo.Some? && c.hi.Some?
      && c.lo.value * count as real <= c.total <= c.hi.value * count as real
  }

  predicate Consistent(st: Stats) {
    && |st.channels| == CHANNELS
    && forall i :: 0 <= i < |st.channels| ==> ChannelConsistent(st.channels[i], st.count)
  }

  /** `sum_data[i] / count_data`. */
  function Average(c: Channel, count: nat): real
    requires count > 0
  {
    c.total / count as real
  }

  // ---------------------------------------------------------------------------
  // Threshold filter

  /** What goes into the payload for a channel: the raw field text, or the stored baseline. */
  datatype Sent = Raw(text: string) | Held(value: real)

  datatype Filtered = Filtered(sent: Sent, baseline: Option<real>, triggered: bool)

  /**
   * The threshold filter for one channel: a reading at least `threshold` away from the
   * baseline (or the first reading) is sent raw and becomes the baseline; a closer one
   * sends the baseline again; a field that does not parse is sent raw.
   */
  function FilterChannel(threshold: real, raw: string, last: Option<real>, parse: string -> Option<real>): (f: Filtered)
    ensures f.triggered ==> f.sent == Raw(raw) && f.baseline == parse(raw)
    ensures !f.triggered ==> f.baseline == last
  {
    match parse(raw)
      case None => Filtered(Raw(raw), last, false)
      case Some(v) =>
        if last.None? || Abs(v - last.value) >= threshold then Filtered(Raw(raw), Some(v), true)
        else Filtered(Held(last.value), last, false)
  }

  datatype Filter = Filter(data: seq<Sent>, baselines: seq<Option<real>>, send: bool)

  function FilterOf(values: seq<string>, baselines: seq<Option<real>>, parse: string -> Option<real>, i: nat): Filtered
    requires |values| == CHANNELS && |baselines| == CHANNELS && i < CHANNELS
  {
    FilterChannel(Threshold(LABELS[i]), values[i], baselines[i], parse)
  }

  /** The whole filter: every channel on its own baseline; the line is sent when any channel triggered. */
  function FilterLine(values: seq<string>, baselines: seq<Option<real>>, parse: string -> Option<real>): (r: Filter)
    requires |values| == CHANNELS && |baselines| == CHANNELS
    ensures |r.data| == CHANNELS && |r.baselines| == CHANNELS
    ensures forall i :: 0 <= i < CHANNELS ==> r.baselines[i] == baselines[i] || r.data[i] == Raw(values[i])
    ensures forall i :: 0 <= i < CHANNELS && r.data[i].Held? ==> baselines[i] == Some(r.data[i].value)
    ensures !r.send ==> r.baselines == baselines
  {
    Filter(
      seq(CHANNELS, i requires 0 <= i < CHANNELS => FilterOf(values, baselines, parse, i).sent),
      seq(CHANNELS, i requires 0 <= i < CHANNELS => FilterOf(values, baselines, parse, i).baseline),
      exists i :: 0 <= i < CHANNELS && FilterOf(values, baselines, parse, i).triggered)
  }

  // ---------------------------------------------------------------------------
  // The loop body

  datatype Receiver = Receiver(stats: Stats, baselines: seq<Option<real>>)

  const INITIAL: Receiver := Receiver(INITIAL_STATS, seq(CHANNELS, _ => None))

  predicate Valid(rx: Receiver) {
    Consistent(rx.stats) && |rx.baselines| == CHANNELS
  }

  /** The dashboard payload: timestamp, filtered data and per-channel min, max, average. */
  datatype Post = Post(timestamp: string, data: seq<Sent>, lo: seq<Option<real>>, hi: seq<Option<real>>, avg: seq<real>)

  /** A line the loop looks at: non-empty after stripping, with at least `MIN_COLUMNS - 1` commas. */
  predicate Considered(line: string) {
    line != "" && Count(line, ',') >= MIN_COLUMNS - 1
  }

  /** The values after the timestamp of a stripped line. */
  function Values(line: string): seq<string> {
    Split(line, ',')[1..]
  }

  /** A post whose statistics are the channels' minimum, maximum and average. */
  predicate Reports(p: Post, st: Stats) {
    && st.count > 0
    && |p.lo| == |p.hi| == |p.avg| == |st.channels|
    && forall i :: 0 <= i < |st.channels| ==>
         p.lo[i] == st.channels[i].lo && p.hi[i] == st.channels[i].hi && p.avg[i] == Average(st.channels[i], st.count)
  }

  function MakePost(timestamp: string, data: seq<Sent>, st: Stats): (p: Post)
    requires st.count > 0
    ensures Reports(p, st) && p.timestamp == timestamp && p.data == data
  {
    Post(timestamp, data,
      seq(|st.channels|, i requires 0 <= i < |st.channels| => st.channels[i].lo),
      seq(|st.channels|, i requires 0 <= i < |st.channels| => st.channels[i].hi),
      seq(|st.channels|, i requires 0 <= i < |st.channels| => Average(st.channels[i], st.count)))
  }

  datatype Outcome = Outcome(rx: Receiver, post: Option<Post>)

  /** The receiver has one statistics channel and one baseline slot per label. */
  predicate Shaped(rx: Receiver) {
    |rx.stats.channels| == CHANNELS && |rx.baselines| == CHANNELS
  }

  /**
   * A line whose statistics step went through: the threshold filter moves the
   * baselines, and the post goes out when any channel triggered.
   */
  function Forward(rx: Receiver, line: string, st: Stats, parse: string -> Option<real>): (o: Outcome)
    requires |Values(line)| == CHANNELS && |rx.baselines| == CHANNELS && st.count > 0
    ensures o.rx.stats == st && |o.rx.baselines| == CHANNELS
    ensures o.post.Some? ==> Reports(o.post.value, st)
    ensures o.post.Some? <==> exists i :: 0 <= i < CHANNELS && FilterOf(Values(line), rx.baselines, parse, i).triggered
  {
    var f := FilterLine(Values(line), rx.baselines, parse);
    Outcome(Receiver(st, f.baselines), if f.send then Some(MakePost(Split(line, ',')[0], f.data, st)) else None)
  }

  /**
   * One received line as the program handles it: a line that is not considered is
   * skipped; a rejected line skips the filter and the post but keeps whatever its
   * statistics step already did to the channels.
   */
  function ProcessLineAsWritten(rx: Receiver, raw: string, parse: string -> Option<real>): (o: Outcome)
    requires Shaped(rx)
    ensures Shaped(o.rx)
    ensures o.post.None? ==> o.rx.baselines == rx.baselines
    ensures o.rx.stats.count == rx.stats.count || o.rx.stats.count == rx.stats.count + 1
  {
    var line := Strip(raw);
    if !Considered(line) then Outcome(rx, None)
    else
      var values := Values(line);
      var u := UpdateAsWritten(rx.stats, values, parse);
      if !u.accepted then Outcome(Receiver(u.stats, rx.baselines), None)
      else
        ConsideredHasChannels(line);
        AsWrittenAcceptsFullLines(rx.stats, values, parse);
        Forward(rx, line, u.stats, parse)
  }

  /**
   * One received line with the corrected statistics step: a rejected line changes
   * nothing at all.
   */
  function ProcessLine(rx: Receiver, raw: string, parse: string -> Option<real>): (o: Outcome)
    requires Valid(rx)
    ensures Shaped(o.rx)
    ensures o.post.None? ==> o.rx.baselines == rx.baselines
    ensures o.rx.stats.count == rx.stats.count ==> o.rx == rx && o.post.None?
  {
    var line := Strip(raw);
    if !Considered(line) then Outcome(rx, None)
    else
      var values := Values(line);
      var u := UpdateStats(rx.stats, values, parse);
      if !u.accepted then Outcome(rx, None)
      else Forward(rx, line, u.stats, parse)
  }

  /** A line that reaches the statistics and counts. */
  predicate Counted(raw: string, parse: string -> Option<real>) {
    Considered(Strip(raw)) && FullLine(Values(Strip(raw)), parse, CHANNELS)
  }

  function NumCounted(lines: seq<string>, parse: string -> Option<real>): (n: nat)
    ensures n <= |lines|
  {
    if |lines| == 0 then 0
    else (if Counted(lines[0], parse) then 1 else 0) + NumCounted(lines[1..], parse)
  }

  datatype Session = Session(rx: Receiver, posts: seq<Post>)

  /** The program's loop over a stream of lines. */
  function ListenAsWritten(rx: Receiver, lines: seq<string>, parse: string -> Option<real>): (s: Session)
    requires Shaped(rx)
    ensures Shaped(s.rx) && |s.posts| <= |lines|
    ensures s.rx.stats.count <= rx.stats.count + |lines|
    decreases |lines|
  {
    if |lines| == 0 then Session(rx, [])
    else
      var o := ProcessLineAsWritten(rx, lines[0], parse);
      var s := ListenAsWritten(o.rx, lines[1..], parse);
      Session(s.rx, (if o.post.Some? then [o.post.value] else []) + s.posts)
  }

  /** The loop over a stream of lines with the corrected statistics step. */
  function Listen(rx: Receiver, lines: seq<string>, parse: string -> Option<real>): (s: Session)
    requires Valid(rx)
    ensures Valid(s.rx) && |s.posts| <= |lines|
    decreases |lines|
  {
    if |lines| == 0 then Session(rx, [])
    else
      ProcessPreservesValid(rx, lines[0], parse);
      var o := ProcessLine(rx, lines[0], parse);
      var s := Listen(o.rx, lines[1..], parse);
      Session(s.rx, (if o.post.Some? then [o.post.value] else []) + s.posts)
  }

  // ---------------------------------------------------------------------------
  // Lemmas

  /** The elapsed-time channel has no threshold entry, so its threshold is 0. */
  lemma ElapsedThresholdZero()
    ensures LABELS[0] == ELAPSED && Threshold(ELAPSED) == 0.0
    ensures |LABELS| == CHANNELS
  {
  }

  /** A considered line has at least one value per channel. */
  lemma ConsideredHasChannels(line: string)
    requires Considered(line)
    ensures |Values(line)| >= CHANNELS
  {
    SplitPieces(line, ',');
  }

  /** The as-written and the whole-line update accept exactly the same considered lines, and count them alike. */
  lemma AsWrittenAcceptsFullLines(st: Stats, values: seq<string>, parse: string -> Option<real>)
    requires |values| >= |st.channels|
    ensures UpdateAsWritten(st, values, parse).accepted <==> FullLine(values, parse, |st.channels|)
    ensures UpdateAsWritten(st, values, parse).stats.count == UpdateStats(st, values, parse).stats.count
  {
    PartialAcceptsFrom(st.channels, values, 0, parse);
    ParseAllFrom(values, 0, parse);
    assert values[0..] == values;
  }

  lemma {:induction false} PartialAcceptsFrom(chs: seq<Channel>, values: seq<string>, i: nat, parse: string -> Option<real>)
    requires i <= |values|
    ensures PartialUpdate(chs, values, i, parse).1 <==>
      (i < |values| ==> |values| <= |chs|) && forall j :: i <= j < |values| ==> parse(values[j]).Some?
    decreases |values| - i
  {
    if i < |values| && parse(values[i]).Some? && i < |chs| {
      var next := chs[i := Include(chs[i], parse(values[i]).value)];
      PartialAcceptsFrom(next, values, i + 1, parse);
      assert PartialUpdate(chs, values, i, parse) == PartialUpdate(next, values, i + 1, parse);
    }
  }

  lemma {:induction false} ParseAllFrom(values: seq<string>, i: nat, parse: string -> Option<real>)
    requires i <= |values|
    ensures ParseAll(values[i..], parse).Some? <==> forall j :: i <= j < |values| ==> parse(values[j]).Some?
    decreases |values| - i
  {
    if i < |values| {
      ParseAllFrom(values, i + 1, parse);
      assert values[i..][1..] == values[i + 1..];
    }
  }

  /** `ParseAll` reads each field with `parse`, in order. */
  lemma {:induction false} ParseAllPointwise(values: seq<string>, parse: string -> Option<real>)
    requires ParseAll(values, parse).Some?
    ensures forall j :: 0 <= j < |values| ==> parse(values[j]) == Some(ParseAll(values, parse).value[j])
    decreases |values|
  {
    if |values| > 0 {
      ParseAllPointwise(values[1..], parse);
    }
  }

  /** On a fully parsed line the as-written update and the whole-line update agree. */
  lemma AsWrittenAgreesOnFullLines(st: Stats, values: seq<string>, parse: string -> Option<real>)
    requires FullLine(values, parse, |st.channels|)
    ensures UpdateAsWritten(st, values, parse) == UpdateStats(st, values, parse)
  {
    var xs := ParseAll(values, parse).value;
    ParseAllPointwise(values, parse);
    PartialFull(st.channels, st.channels, values, xs, 0, parse);
  }

  lemma {:induction false} PartialFull(orig: seq<Channel>, chs: seq<Channel>, values: seq<string>, xs: seq<real>, i: nat, parse: string -> Option<real>)
    requires |values| == |orig| == |xs| && i <= |values|
    requires forall j :: 0 <= j < |values| ==> parse(values[j]) == Some(xs[j])
    requires chs == IncludeAll(orig, xs)[..i] + orig[i..]
    ensures PartialUpdate(chs, values, i, parse) == (IncludeAll(orig, xs), true)
    decreases |values| - i
  {
    if i < |values| {
      var next := chs[i := Include(chs[i], xs[i])];
      assert next == IncludeAll(orig, xs)[..i + 1] + orig[i + 1..];
      PartialFull(orig, next, values, xs, i + 1, parse);
      assert PartialUpdate(chs, values, i, parse) == PartialUpdate(next, values, i + 1, parse);
    } else {
      assert chs == IncludeAll(orig, xs);
    }
  }

  /** A line whose first value parses and whose second does not updates channel 0 and is not counted. */
  lemma AbandonedAtSecond(st: Stats, values: seq<string>, parse: string -> Option<real>)
    requires |values| >= 2 && |st.channels| >= 2
    requires parse(values[0]).Some? && parse(values[1]).None?
    ensures UpdateAsWritten(st, values, parse) ==
      Update(Stats(st.channels[0 := Include(st.channels[0], parse(values[0]).value)], st.count), false)
  {
    var next := st.channels[0 := Include(st.channels[0], parse(values[0]).value)];
    assert PartialUpdate(next, values, 1, parse) == (next, false);
    assert PartialUpdate(st.channels, values, 0, parse) == (next, false);
  }

  /**
   * The partial update is what breaks the statistics: a line whose first value parses
   * and whose second does not moves channel 0 without being counted, so after one full
   * line of 1.0 the average of channel 0 is 1001 while its maximum is 1000.
   */
  lemma PartialUpdateBreaksAverage(parse: string -> Option<real>, big: string, bad: string, one: string)
    requires parse(big) == Some(1000.0) && parse(bad) == None && parse(one) == Some(1.0)
    ensures var s1 := UpdateAsWritten(INITIAL_STATS, [big] + seq(11, _ => bad), parse).stats;
      var s2 := UpdateAsWritten(s1, seq(12, _ => one), parse).stats;
      && s2.count == 1
      && s2.channels[0].hi == Some(1000.0)
      && Average(s2.channels[0], s2.count) == 1001.0
  {
    var line1 := [big] + seq(11, _ => bad);
    var line2 := seq(12, _ => one);
    AbandonedAtSecond(INITIAL_STATS, line1, parse);
    var s1 := UpdateAsWritten(INITIAL_STATS, line1, parse).stats;
    assert s1.count == 0 && s1.channels[0] == Channel(Some(1000.0), Some(1000.0), 1000.0);
    ParseAllFrom(line2, 0, parse);
    assert line2[0..] == line2;
    AsWrittenAgreesOnFullLines(s1, line2, parse);
    ParseAllPointwise(line2, parse);
  }

  /** Including a reading keeps a channel consistent with a count one higher. */
  lemma IncludeConsistent(c: Channel, n: nat, v: real)
    requires ChannelConsistent(c, n)
    ensures ChannelConsistent(Include(c, v), n + 1)
  {
    var r := Include(c, v);
    if n > 0 {
      IncludeKeepsBounds(c.lo.value, c.hi.value, c.total, n as real, v, r.lo.value, r.hi.value);
      assert (n + 1) as real == n as real + 1.0;
    }
  }

  /** The whole-line update keeps the statistics consistent. */
  lemma UpdatePreservesConsistent(st: Stats, values: seq<string>, parse: string -> Option<real>)
    requires Consistent(st)
    ensures Consistent(UpdateStats(st, values, parse).stats)
  {
    var u := UpdateStats(st, values, parse);
    if u.accepted {
      var xs := ParseAll(values, parse).value;
      forall i | 0 <= i < |st.channels|
        ensures ChannelConsistent(u.stats.channels[i], u.stats.count)
      {
        IncludeConsistent(st.channels[i], st.count, xs[i]);
      }
    }
  }

  /** The corrected loop body keeps the receiver valid. */
  lemma ProcessPreservesValid(rx: Receiver, raw: string, parse: string -> Option<real>)
    requires Valid(rx)
    ensures Valid(ProcessLine(rx, raw, parse).rx)
  {
    var line := Strip(raw);
    if Considered(line) {
      UpdatePreservesConsistent(rx.stats, Values(line), parse);
    }
  }

  /** With a consistent count, the reported average lies between the channel's minimum and maximum. */
  lemma AverageBetween(c: Channel, count: nat)
    requires count > 0 && ChannelConsistent(c, count)
    ensures c.lo.value <= Average(c, count) <= c.hi.value
  {
    MeanBetween(c.lo.value, c.hi.value, c.total, count as real);
  }

  /** `c` has a minimum and a maximum, and `v` lies between them. */
  predicate Brackets(c: Channel, v: real) {
    c.lo.Some? && c.hi.Some? && c.lo.value <= v <= c.hi.value
  }

  /** `c'` reaches at least as far as `c` on both sides: a minimum never rises, a maximum never falls. */
  predicate Widens(c': Channel, c: Channel) {
    && (c.lo.Some? ==> c'.lo.Some? && c'.lo.value <= c.lo.value)
    && (c.hi.Some? ==> c'.hi.Some? && c'.hi.value >= c.hi.value)
  }

  /**
   * A counted line puts every reading between its channel's minimum and maximum;
   * minima never rise and maxima never fall, and an uncounted line changes nothing.
   */
  lemma UpdateBrackets(st: Stats, values: seq<string>, parse: string -> Option<real>)
    ensures var u := UpdateStats(st, values, parse);
      forall i :: 0 <= i < |st.channels| ==>
        && (u.accepted ==> Brackets(u.stats.channels[i], ParseAll(values, parse).value[i]))
        && Widens(u.stats.channels[i], st.channels[i])
  {
  }

  /**
   * The step the program performs brackets as well: it never raises a minimum or
   * lowers a maximum, whether or not the line goes through, and a line that goes
   * through lies between every channel's minimum and maximum.
   */
  lemma UpdateAsWrittenBrackets(st: Stats, values: seq<string>, parse: string -> Option<real>)
    ensures var u := UpdateAsWritten(st, values, parse);
      && (forall i :: 0 <= i < |st.channels| ==> Widens(u.stats.channels[i], st.channels[i]))
      && (u.accepted ==>
            && |values| <= |st.channels|
            && forall i :: 0 <= i < |values| ==> parse(values[i]).Some? && Brackets(u.stats.channels[i], parse(values[i]).value))
  {
    PartialBrackets(st.channels, values, 0, parse);
    PartialAcceptsFrom(st.channels, values, 0, parse);
  }

  lemma {:induction false} PartialBrackets(chs: seq<Channel>, values: seq<string>, i: nat, parse: string -> Option<real>)
    requires i <= |values|
    ensures var r := PartialUpdate(chs, values, i, parse);
      && (forall k :: 0 <= k < |chs| ==> Widens(r.0[k], chs[k]))
      && (r.1 ==> forall j :: i <= j < |values| && j < |chs| ==> parse(values[j]).Some? && Brackets(r.0[j], parse(values[j]).value))
    decreases |values| - i
  {
    if i < |values| && parse(values[i]).Some? && i < |chs| {
      var v := parse(values[i]).value;
      var next := chs[i := Include(chs[i], v)];
      PartialBrackets(next, values, i + 1, parse);
      var r := PartialUpdate(next, values, i + 1, parse);
      assert PartialUpdate(chs, values, i, parse) == r;
      forall k | 0 <= k < |chs|
        ensures Widens(r.0[k], chs[k])
      {
        WidensTransitive(r.0[k], next[k], chs[k]);
      }
      assert Brackets(r.0[i], v) by {
        assert Brackets(next[i], v);
      }
    }
  }

  lemma WidensTransitive(a: Channel, b: Channel, c: Channel)
    requires Widens(a, b) && Widens(b, c)
    ensures Widens(a, c)
  {
  }

  /** On the program's loop, `count_data` goes up exactly on a `Counted` line, and exactly those lines are posted. */
  lemma ProcessAsWrittenCounts(rx: Receiver, raw: string, parse: string -> Option<real>)
    requires Shaped(rx)
    ensures ProcessLineAsWritten(rx, raw, parse).rx.stats.count == rx.stats.count + (if Counted(raw, parse) then 1 else 0)
    ensures Counted(raw, parse) <==> ProcessLineAsWritten(rx, raw, parse).post.Some?
  {
    var line := Strip(raw);
    if Considered(line) {
      var values := Values(line);
      ConsideredHasChannels(line);
      AsWrittenAcceptsFullLines(rx.stats, values, parse);
      if Counted(raw, parse) {
        ElapsedAlwaysTriggers(values, rx.baselines, parse);
      }
    }
  }

  /** The statistics count a line exactly when it is `Counted`, and exactly those lines are posted. */
  lemma ProcessCounts(rx: Receiver, raw: string, parse: string -> Option<real>)
    requires Valid(rx)
    ensures ProcessLine(rx, raw, parse).rx.stats.count == rx.stats.count + (if Counted(raw, parse) then 1 else 0)
    ensures Counted(raw, parse) <==> ProcessLine(rx, raw, parse).post.Some?
  {
    var line := Strip(raw);
    if Counted(raw, parse) {
      ElapsedAlwaysTriggers(Values(line), rx.baselines, parse);
    }
  }

  /**
   * The program's loop body and the corrected one post the same thing, count alike and
   * move the baselines alike; they differ only in the channels of a line that is
   * considered but not counted.
   */
  lemma ProcessAgrees(rx: Receiver, raw: string, parse: string -> Option<real>)
    requires Valid(rx)
    ensures var a := ProcessLineAsWritten(rx, raw, parse);
      var c := ProcessLine(rx, raw, parse);
      && a.post == c.post && a.rx.baselines == c.rx.baselines && a.rx.stats.count == c.rx.stats.count
      && (Counted(raw, parse) || !Considered(Strip(raw)) ==> a == c)
  {
    var line := Strip(raw);
    if Considered(line) {
      var values := Values(line);
      ConsideredHasChannels(line);
      AsWrittenAcceptsFullLines(rx.stats, values, parse);
      if Counted(raw, parse) {
        AsWrittenAgreesOnFullLines(rx.stats, values, parse);
      }
    }
  }

  /**
   * The program's loop: `count_data` is the number of counted lines, and each counted
   * line yields exactly one post.
   */
  lemma {:induction false} ListenAsWrittenCounts(rx: Receiver, lines: seq<string>, parse: string -> Option<real>)
    requires Shaped(rx)
    ensures ListenAsWritten(rx, lines, parse).rx.stats.count == rx.stats.count + NumCounted(lines, parse)
    ensures |ListenAsWritten(rx, lines, parse).posts| == NumCounted(lines, parse)
    decreases |lines|
  {
    if |lines| > 0 {
      ProcessAsWrittenCounts(rx, lines[0], parse);
      ListenAsWrittenCounts(ProcessLineAsWritten(rx, lines[0], parse).rx, lines[1..], parse);
    }
  }

  /** The corrected loop counts and posts the same lines. */
  lemma {:induction false} ListenCounts(rx: Receiver, lines: seq<string>, parse: string -> Option<real>)
    requires Valid(rx)
    ensures Listen(rx, lines, parse).rx.stats.count == rx.stats.count + NumCounted(lines, parse)
    ensures |Listen(rx, lines, parse).posts| == NumCounted(lines, parse)
    decreases |lines|
  {
    if |lines| > 0 {
      ProcessCounts(rx, lines[0], parse);
      ProcessPreservesValid(rx, lines[0], parse);
      ListenCounts(ProcessLine(rx, lines[0], parse).rx, lines[1..], parse);
    }
  }

  /** A line the corrected step either counts or never looks at: the two loops handle it alike. */
  predicate WholeOrSkipped(raw: string, parse: string -> Option<real>) {
    Counted(raw, parse) || !Considered(Strip(raw))
  }

  /** On a stream without half-readable lines the program's loop is the corrected loop. */
  lemma {:induction false} ListenAgrees(rx: Receiver, lines: seq<string>, parse: string -> Option<real>)
    requires Valid(rx)
    requires forall k :: 0 <= k < |lines| ==> WholeOrSkipped(lines[k], parse)
    ensures ListenAsWritten(rx, lines, parse) == Listen(rx, lines, parse)
    decreases |lines|
  {
    if |lines| > 0 {
      ProcessAgrees(rx, lines[0], parse);
      ProcessPreservesValid(rx, lines[0], parse);
      assert WholeOrSkipped(lines[0], parse);
      ListenAgrees(ProcessLine(rx, lines[0], parse).rx, lines[1..], parse);
    }
  }

  /**
   * The program's loop can post an average above the maximum: the half-applied line
   * 1000, x, …, x followed by a line of twelve 1s posts maximum 1000 and average 1001
   * for the elapsed-time channel.
   */
  lemma ListenAsWrittenBreaksAverage(parse: string -> Option<real>, l1: string, l2: string, big: string, bad: string, one: string)
    requires parse(big) == Some(1000.0) && parse(bad) == None && parse(one) == Some(1.0)
    requires Considered(Strip(l1)) && Values(Strip(l1)) == [big] + seq(11, _ => bad)
    requires Considered(Strip(l2)) && Values(Strip(l2)) == seq(12, _ => one)
    ensures var s := ListenAsWritten(INITIAL, [l1, l2], parse);
      && |s.posts| == 1
      && Reports(s.posts[0], s.rx.stats)
      && s.posts[0].hi[0] == Some(1000.0)
      && s.posts[0].avg[0] == 1001.0
  {
    var line1 := [big] + seq(11, _ => bad);
    var line2 := seq(12, _ => one);
    PartialUpdateBreaksAverage(parse, big, bad, one);
    AbandonedAtSecond(INITIAL_STATS, line1, parse);
    var o1 := ProcessLineAsWritten(INITIAL, l1, parse);
    assert o1.rx.stats == UpdateAsWritten(INITIAL_STATS, [big] + seq(11, _ => bad), parse).stats;
    assert o1.post.None?;
    var o2 := ProcessLineAsWritten(o1.rx, l2, parse);
    var u2 := UpdateAsWritten(o1.rx.stats, line2, parse);
    ParseAllFrom(line2, 0, parse);
    assert line2[0..] == line2;
    AsWrittenAcceptsFullLines(o1.rx.stats, line2, parse);
    assert u2.accepted;
    assert o2.rx.stats == u2.stats;
    ElapsedAlwaysTriggers(Values(Strip(l2)), o1.rx.baselines, parse);
    assert o2.post.Some?;
    assert [l1, l2][1..] == [l2];
    assert ListenAsWritten(o2.rx, [], parse).posts == [];
  }

  /**
   * The elapsed-time channel has threshold 0, so any parsed elapsed value triggers
   * and the line is sent.
   */
  lemma ElapsedAlwaysTriggers(values: seq<string>, baselines: seq<Option<real>>, parse: string -> Option<real>)
    requires |values| == CHANNELS && |baselines| == CHANNELS
    requires parse(values[0]).Some?
    ensures FilterLine(values, baselines, parse).send
    ensures FilterLine(values, baselines, parse).data[0] == Raw(values[0])
    ensures FilterLine(values, baselines, parse).baselines[0] == parse(values[0])
  {
    ElapsedThresholdZero();
    assert FilterOf(values, baselines, parse, 0).triggered;
  }

  /** Every post reports, per channel, a minimum ≤ average ≤ maximum. */
  predicate PostOrdered(p: Post) {
    && |p.lo| == |p.hi| == |p.avg|
    && forall i :: 0 <= i < |p.avg| ==> p.lo[i].Some? && p.hi[i].Some? && p.lo[i].value <= p.avg[i] <= p.hi[i].value
  }

  /** The corrected loop body only posts ordered statistics. */
  lemma ProcessPostOrdered(rx: Receiver, raw: string, parse: string -> Option<real>)
    requires Valid(rx)
    ensures ProcessLine(rx, raw, parse).post.Some? ==> PostOrdered(ProcessLine(rx, raw, parse).post.value)
  {
    var o := ProcessLine(rx, raw, parse);
    if o.post.Some? {
      ProcessPreservesValid(rx, raw, parse);
      var st := o.rx.stats;
      forall i | 0 <= i < |st.channels|
        ensures st.channels[i].lo.value <= Average(st.channels[i], st.count) <= st.channels[i].hi.value
      {
        AverageBetween(st.channels[i], st.count);
      }
    }
  }

  /** Every post of the corrected loop reports ordered statistics. */
  lemma {:induction false} ListenPostsOrdered(rx: Receiver, lines: seq<string>, parse: string -> Option<real>)
    requires Valid(rx)
    ensures forall k :: 0 <= k < |Listen(rx, lines, parse).posts| ==> PostOrdered(Listen(rx, lines, parse).posts[k])
    decreases |lines|
  {
    if |lines| > 0 {
      ProcessPostOrdered(rx, lines[0], parse);
      ProcessPreservesValid(rx, lines[0], parse);
      ListenPostsOrdered(ProcessLine(rx, lines[0], parse).rx, lines[1..], parse);
    }
  }

  /**
   * For a parsed reading, what the dashboard receives is the reading itself (and it
   * becomes the baseline), or a baseline strictly closer than the threshold.
   */
  lemma FilterWithinThreshold(threshold: real, raw: string, last: Option<real>, parse: string -> Option<real>)
    requires parse(raw).Some?
    ensures var f := FilterChannel(threshold, raw, last, parse);
      var v := parse(raw).value;
      || (f.sent == Raw(raw) && f.baseline == Some(v) && f.triggered)
      || (f.sent.Held? && last == Some(f.sent.value) && Abs(v - f.sent.value) < threshold && f.baseline == last)
    ensures FilterChannel(threshold, raw, last, parse).triggered <==>
      last.None? || Abs(parse(raw).value - last.value) >= threshold
  {
  }

  /** Readings 20.0, 20.1, 20.3 against a 0.25 threshold leave the baseline at 20.0, 20.0, 20.3. */
  lemma BaselineExample(parse: string -> Option<real>, a: string, b: string, c: string)
    requires parse(a) == Some(20.0) && parse(b) == Some(20.1) && parse(c) == Some(20.3)
    ensures var f1 := FilterChannel(0.25, a, None, parse);
      var f2 := FilterChannel(0.25, b, f1.baseline, parse);
      var f3 := FilterChannel(0.25, c, f2.baseline, parse);
      && f1.baseline == Some(20.0) && f2.baseline == Some(20.0) && f3.baseline == Some(20.3)
      && f2.sent == Held(20.0) && f3.sent == Raw(c)
  {
  }

  /** Baselines are per channel: a channel that did not trigger keeps its baseline, whatever the others did. */
  lemma BaselinesPerChannel(values: seq<string>, baselines: seq<Option<real>>, parse: string -> Option<real>, i: nat)
    requires |values| == CHANNELS && |baselines| == CHANNELS && i < CHANNELS
    ensures var f := FilterChannel(Threshold(LABELS[i]), values[i], baselines[i], parse);
      && FilterLine(values, baselines, parse).data[i] == f.sent
      && (!f.triggered ==> FilterLine(values, baselines, parse).baselines[i] == baselines[i])
      && (f.triggered ==> FilterLine(values, baselines, parse).baselines[i] == parse(values[i]))
  {
  }
}

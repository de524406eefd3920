/** The oscilloscope wrapper: acquisition, decimation, trigger and sample-reading
    commands, the cached trigger command, and the arm / poll / read acquisition
    sequence. */
module Scope {
  import opened Text
  import opened Transport

  /** Samples per second of the acquisition clock, fixed for the instrument. */
  const SamplingRate: real := 125000000.0

  /** The largest decimation the instrument accepts. */
  const MaxDecimation: int := 65536

  lemma SmallIntStrings()
    ensures IntToString(1) == "1" && IntToString(2) == "2"
  {
    assert NatToString(1) == [DigitChar(1)];
    assert NatToString(2) == [DigitChar(2)];
  }

  // ---------------------------------------------------------------------------
  // Trigger sources

  /** The acquisition trigger a source number and edge select. */
  datatype Trigger =
    | Disabled
    | Now
    | Channel(n: int, edge: string)
    | Ext(edge: string)
    | Awg(edge: string)

  /** The source numbering of `set_trig_source`: -1 disabled, 0 now, 1 and 2 the
      input channels, 3 the external input, 4 the generator; anything else
      falls back to an immediate trigger. */
  function TriggerOf(source: int, edge: string): Trigger
  {
    if source == -1 then Disabled
    else if source == 0 then Now
    else if source == 1 || source == 2 then Channel(source, edge)
    else if source == 3 then Ext(edge)
    else if source == 4 then Awg(edge)
    else Now
  }

  function TriggerCommand(t: Trigger): string
  {
    match t
    case Disabled => "ACQ:TRIG DISABLED"
    case Now => "ACQ:TRIG NOW"
    case Channel(n, e) => "ACQ:TRIG CH" + IntToString(n) + "_" + e
    case Ext(e) => "ACQ:TRIG EXT_" + e
    case Awg(e) => "ACQ:TRIG AWG_" + e
  }

  /** The command `set_trig_source(source, edge)` sends and returns. */
  function TrigSourceCommand(source: int, edge: string): string
  {
    TriggerCommand(TriggerOf(source, edge))
  }

  /** What the instrument reads out of a trigger command. */
  function ParseTrigger(cmd: string): Option<Trigger>
  {
    var head := "ACQ:TRIG ";
    if !(head <= cmd) then None
    else
      var rest := cmd[|head|..];
      if rest == "DISABLED" then Some(Disabled)
      else if rest == "NOW" then Some(Now)
      else if "CH1_" <= rest then Some(Channel(1, rest[4..]))
      else if "CH2_" <= rest then Some(Channel(2, rest[4..]))
      else if "EXT_" <= rest then Some(Ext(rest[4..]))
      else if "AWG_" <= rest then Some(Awg(rest[4..]))
      else None
  }

  /** The table of trigger commands, source by source. */
  lemma TrigSourceTable(source: int, edge: string)
    ensures source == -1 ==> TrigSourceCommand(source, edge) == "ACQ:TRIG DISABLED"
    ensures source == 0 ==> TrigSourceCommand(source, edge) == "ACQ:TRIG NOW"
    ensures source == 1 ==> TrigSourceCommand(source, edge) == "ACQ:TRIG CH1_" + edge
    ensures source == 2 ==> TrigSourceCommand(source, edge) == "ACQ:TRIG CH2_" + edge
    ensures source == 3 ==> TrigSourceCommand(source, edge) == "ACQ:TRIG EXT_" + edge
    ensures source == 4 ==> TrigSourceCommand(source, edge) == "ACQ:TRIG AWG_" + edge
    ensures !(-1 <= source <= 4) ==> TrigSourceCommand(source, edge) == "ACQ:TRIG NOW"
  {
    SmallIntStrings();
  }

  /** Every trigger command decodes to the trigger its source and edge select, for any edge text. */
  lemma TrigSourceRoundTrip(source: int, edge: string)
    ensures ParseTrigger(TrigSourceCommand(source, edge)) == Some(TriggerOf(source, edge))
  {
    var head := "ACQ:TRIG ";
    var cmd := TrigSourceCommand(source, edge);
    TrigSourceTable(source, edge);
    assert head <= cmd;
    var rest := cmd[|head|..];
    match TriggerOf(source, edge)
    case Disabled =>
    case Now =>
    case Channel(n, e) =>
      if n == 1 {
        assert rest == "CH1_" + e && rest[0] == 'C' && rest[4..] == e;
      } else {
        assert rest == "CH2_" + e && rest[0] == 'C' && rest[2] == '2' && rest[4..] == e;
      }
    case Ext(e) =>
      assert rest == "EXT_" + e && rest[0] == 'E' && rest[4..] == e;
    case Awg(e) =>
      assert rest == "AWG_" + e && rest[0] == 'A' && rest[4..] == e;
  }

  /** Two source/edge choices send the same command exactly when they select the same trigger. */
  lemma TrigSourceInjective(s1: int, e1: string, s2: int, e2: string)
    ensures TrigSourceCommand(s1, e1) == TrigSourceCommand(s2, e2) <==> TriggerOf(s1, e1) == TriggerOf(s2, e2)
  {
    TrigSourceRoundTrip(s1, e1);
    TrigSourceRoundTrip(s2, e2);
  }

  // ---------------------------------------------------------------------------
  // Decimation from a time resolution or a total time

  /** Powers of two: 1, 2, 4, ... */
  predicate IsPow2(n: int)
    decreases if n < 0 then 0 else n
  {
    n == 1 || (n > 1 && n % 2 == 0 && IsPow2(n / 2))
  }

  /** The largest power of two not above n (`2**floor(log2(n))`). */
  function Pow2AtMost(n: nat): (p: nat)
    requires n >= 1
    ensures IsPow2(p) && p <= n < 2 * p
    decreases n
  {
    if n == 1 then 1 else 2 * Pow2AtMost(n / 2)
  }

  /** The smallest power of two not below n (`2**ceil(log2(n))`). */
  function Pow2AtLeast(n: nat): (p: nat)
    requires n >= 1
    ensures IsPow2(p) && n <= p
    ensures p == 1 || p / 2 < n
    decreases n
  {
    if n == 1 then 1 else 2 * Pow2AtLeast((n + 1) / 2)
  }

  /** The decimation `set_time_res` chooses: 1 for a resolution at or below one
      sample period, otherwise the largest power of two whose time step does not
      exceed the requested resolution. */
  function DecimationForResolution(res: real): (dec: int)
    ensures dec >= 1 && IsPow2(dec)
    ensures res * SamplingRate >= 1.0 ==>
              dec as real <= res * SamplingRate < 2.0 * dec as real
    ensures res * SamplingRate <= 1.0 ==> dec == 1
  {
    if res <= 1.0 / SamplingRate then 1 else Pow2AtMost((res * SamplingRate).Floor)
  }

  /** The time a full buffer of `bufSize` samples spans at decimation `dec`. */
  function Window(bufSize: int, dec: int): real
  {
    bufSize as real / SamplingRate * dec as real
  }

  /** The longest acquisition window a buffer of `bufSize` samples can cover. */
  function MaxTime(bufSize: int): real
  {
    Window(bufSize, MaxDecimation)
  }

  /** The decimation factor `set_time_total` would need, before rounding to a power of two. */
  function Stretch(total: real, bufSize: int): real
    requires bufSize != 0
  {
    total * SamplingRate / bufSize as real
  }

  /** The decimation `set_time_total` sends: the maximum when the total time exceeds
      what the buffer can hold; otherwise `int(2**ceil(log2(x)))` for the needed
      stretch x, which is the smallest power of two at or above x when x > 1/2,
      0 for 0 <= x <= 1/2 (where the power of two is at most 1/2 and truncates to 0),
      and a ValueError for negative x (the logarithm is NaN). A zero buffer size
      divides by zero. */
  function DecimationForTotal(total: real, bufSize: int): (r: Result<int>)
    ensures total > MaxTime(bufSize) ==> r == Ok(MaxDecimation)
    ensures total <= MaxTime(bufSize) && bufSize == 0 ==> r == Err(ZeroDivisionError)
    ensures total <= MaxTime(bufSize) && bufSize != 0 ==>
              var x := Stretch(total, bufSize);
              && (x < 0.0 ==> r == Err(ValueError))
              && (0.0 <= x <= 0.5 ==> r == Ok(0))
              && (x > 0.5 ==> r.Ok? && IsPow2(r.value) && x <= r.value as real
                               && (r.value == 1 || (r.value as real) < 2.0 * x))
  {
    if total > MaxTime(bufSize) then Ok(MaxDecimation)
    else if bufSize == 0 then Err(ZeroDivisionError)
    else
      var x := Stretch(total, bufSize);
      if x > 1.0 then
        var n := -((-x).Floor);
        var p := Pow2AtLeast(n);
        assert p != 1 ==> p == 2 * (p / 2) && (p / 2) as real < x;
        Ok(p)
      else if x > 0.5 then Ok(1)
      else if x >= 0.0 then Ok(0)
      else Err(ValueError)
  }

  // ---------------------------------------------------------------------------
  // Time axis and sample replies

  /** `np.linspace(0, (bufSize - 1) / SamplingRate * dec, bufSize)`, in exact arithmetic:
      point i lies i sample periods of the decimated clock after the start; a negative
      sample count raises ValueError. */
  function TimePoints(bufSize: int, dec: int): (r: Result<seq<real>>)
    ensures r.Err? <==> bufSize < 0
    ensures r.Ok? ==> |r.value| == bufSize
    ensures r.Ok? ==> forall i :: 0 <= i < bufSize ==> r.value[i] == i as real * (dec as real / SamplingRate)
  {
    if bufSize < 0 then Err(ValueError)
    else Ok(seq(bufSize, i => i as real * (dec as real / SamplingRate)))
  }

  /** The axis starts at 0, ends at `(bufSize - 1) / SamplingRate * dec` and is evenly spaced. */
  lemma TimePointsSpan(bufSize: int, dec: int)
    requires bufSize > 0
    ensures var ts := TimePoints(bufSize, dec).value;
            && ts[0] == 0.0
            && ts[bufSize - 1] == (bufSize - 1) as real / SamplingRate * dec as real
            && forall i :: 0 <= i < bufSize - 1 ==> ts[i + 1] - ts[i] == dec as real / SamplingRate
  {
    var ts := TimePoints(bufSize, dec).value;
    forall i | 0 <= i < bufSize - 1
      ensures ts[i + 1] - ts[i] == dec as real / SamplingRate
    {
      assert ts[i + 1] == (i + 1) as real * (dec as real / SamplingRate);
    }
  }

  /** The characters stripped from both ends of a samples reply. */
  const SampleBrackets: set<char> := {'{', '}', '\n', '\r'}

  /** `reply.strip('{}\n\r').replace("  ", "")`. */
  function SampleText(reply: string): string
  {
    DeleteDoubleSpaces(Strip(reply, SampleBrackets))
  }

  /** The samples of a reply, split on commas (each is then given to `float()`,
      which is not modelled). */
  function SampleTokens(reply: string): seq<string>
  {
    Split(SampleText(reply), ',')
  }

  /** The cleaned reply keeps every comma and has no two spaces left adjacent; there is
      one more token than the reply has commas, none of them holds a comma, and joined
      back they give the cleaned reply. */
  lemma SampleTokensShape(reply: string)
    ensures NoDoubleSpace(SampleText(reply))
    ensures Count(SampleText(reply), ',') == Count(reply, ',')
    ensures |SampleTokens(reply)| == Count(reply, ',') + 1
    ensures forall k :: 0 <= k < |SampleTokens(reply)| ==> ',' !in SampleTokens(reply)[k]
    ensures Join(SampleTokens(reply), ',') == SampleText(reply)
  {
    var stripped := Strip(reply, SampleBrackets);
    StripKeeps(reply, SampleBrackets, ',');
    DeleteDoubleSpacesKeeps(stripped, ',');
    DeleteDoubleSpacesLeavesNone(stripped);
    JoinSplit(SampleText(reply), ',');
    SplitShape(SampleText(reply), ',');
  }

  function SourceData(source: int): string
  {
    "ACQ:SOUR" + IntToString(source) + ":DATA?"
  }

  /** `read_all_samples(1)` and `read_all_samples(2)` ask for the two input channels. */
  lemma SourceDataNames()
    ensures SourceData(1) == "ACQ:SOUR1:DATA?" && SourceData(2) == "ACQ:SOUR2:DATA?"
  {
    SmallIntStrings();
  }

  // ---------------------------------------------------------------------------
  // Specifications of the multi-command operations

  /** The commands sent, the replies consumed and the outcome of an operation. */
  datatype Exchange<T> = Exchange(sent: seq<string>, consumed: nat, result: Result<T>)

  /** The outcome of the trigger poll: status replies consumed, and whether a `TD`
      (triggered) status was seen. */
  datatype Poll = Poll(consumed: nat, fired: bool)

  function Repeat(cmd: string, n: nat): (s: seq<string>)
    ensures |s| == n && forall k :: 0 <= k < n ==> s[k] == cmd
  {
    seq(n, _ => cmd)
  }

  /** The k-th reply reads as the `TD` (triggered) status. */
  predicate Triggered(r: Replies, k: nat)
  {
    r.Parsed(k).value == "TD"
  }

  /** Some reply among the `fuel` from `at` on reads as `TD`. */
  predicate TriggeredWithin(r: Replies, at: nat, fuel: nat)
  {
    exists k :: at <= k < at + fuel && Triggered(r, k)
  }

  /** The poll loop of `acquire_trace` with room for `fuel` polls, reading replies from `at` on:
      each round asks for the status; a `TD` answer stops the acquisition and ends the loop. */
  function PollLoop(r: Replies, at: nat, fuel: nat): (p: Poll)
    ensures p.consumed <= fuel
    decreases fuel
  {
    if fuel == 0 then Poll(0, false)
    else if Triggered(r, at) then Poll(1, true)
    else
      var p := PollLoop(r, at + 1, fuel - 1);
      Poll(p.consumed + 1, p.fired)
  }

  /** The commands a poll sends: one status query per reply it consumed, then
      `ACQ:STOP` when it saw `TD`. */
  function PollSent(p: Poll): seq<string>
  {
    Repeat("ACQ:TRIG:STAT?", p.consumed) + (if p.fired then ["ACQ:STOP"] else [])
  }

  /** `n` more unanswered status queries in front of a poll. */
  function Extend(n: nat, p: Poll): Poll
  {
    Poll(n + p.consumed, p.fired)
  }

  /** The poll fires exactly when a `TD` status comes within its budget; it then stops
      at the first `TD`, and it uses up all its polls when there is none. */
  lemma {:induction false} PollLoopShape(r: Replies, at: nat, fuel: nat)
    ensures var p := PollLoop(r, at, fuel);
            && (p.fired <==> TriggeredWithin(r, at, fuel))
            && (p.fired ==> p.consumed >= 1 && Triggered(r, at + p.consumed - 1))
            && (forall k :: at <= k < at + p.consumed - (if p.fired then 1 else 0) ==> !Triggered(r, k))
            && (!p.fired ==> p.consumed == fuel)
    decreases fuel
  {
    if fuel > 0 && !Triggered(r, at) {
      PollLoopShape(r, at + 1, fuel - 1);
    }
  }

  /** The three values `acquire_trace` returns: the time axis and both channels' samples. */
  datatype Trace = Trace(ts: seq<real>, ch1: seq<string>, ch2: seq<string>)

  /** `get_time_points` reading replies from `at` on: it asks for the buffer size and
      the decimation; either reply failing `int()` ends it with ValueError. */
  function TimePointsExchange(r: Replies, at: nat): Exchange<seq<real>>
  {
    match IntAnswer(r.Parsed(at))
    case Err(e) => Exchange(["ACQ:BUF:SIZE?"], 1, Err(e))
    case Ok(buf) =>
      match IntAnswer(r.Parsed(at + 1))
      case Err(e) => Exchange(["ACQ:BUF:SIZE?", "ACQ:DEC?"], 2, Err(e))
      case Ok(dec) => Exchange(["ACQ:BUF:SIZE?", "ACQ:DEC?"], 2, TimePoints(buf.value, dec.value))
  }

  /** The readout at the end of `acquire_trace`, replies from `at` on: the time axis,
      then (unless that raised) both channels. */
  function ReadoutExchange(r: Replies, at: nat): Exchange<Trace>
  {
    var t := TimePointsExchange(r, at);
    match t.result
    case Err(e) => Exchange(t.sent, t.consumed, Err(e))
    case Ok(ts) =>
      var k := at + t.consumed;
      Exchange(t.sent + ["ACQ:SOUR1:DATA?", "ACQ:SOUR2:DATA?"], t.consumed + 2,
               Ok(Trace(ts, SampleTokens(r.Parsed(k).value), SampleTokens(r.Parsed(k + 1).value))))
  }

  /** `acquire_trace` with the trigger command `cache`, replies from `at` on and room
      for `fuel` status polls: arm, replay the cached trigger, poll, then read out. */
  function AcquisitionExchange(cache: string, r: Replies, at: nat, fuel: nat): Exchange<Trace>
  {
    var p := PollLoop(r, at, fuel);
    var x := ReadoutExchange(r, at + p.consumed);
    Exchange(["ACQ:START", cache] + PollSent(p) + x.sent, p.consumed + x.consumed, x.result)
  }

  /** An acquisition first arms (`ACQ:START`), then replays the cached trigger command;
      after that `ACQ:STOP` is sent once if some status within the poll budget was `TD`
      and never otherwise. */
  lemma AcquisitionStartsAndStops(cache: string, r: Replies, at: nat, fuel: nat)
    ensures var a := AcquisitionExchange(cache, r, at, fuel);
            && |a.sent| >= 3
            && a.sent[..2] == ["ACQ:START", cache]
            && Count(a.sent[2..], "ACQ:STOP") ==
                 if TriggeredWithin(r, at, fuel) then 1 else 0
  {
    var p := PollLoop(r, at, fuel);
    var x := ReadoutExchange(r, at + p.consumed);
    var a := AcquisitionExchange(cache, r, at, fuel);
    assert a.sent == ["ACQ:START", cache] + PollSent(p) + x.sent;
    ReadoutNeverStops(r, at + p.consumed);
    PollStops(r, at, fuel);
    ArmedSequence(cache, PollSent(p), x.sent);
  }

  /** Commands sent after arming and replaying the trigger, read back from the log. */
  lemma ArmedSequence(cache: string, polls: seq<string>, rest: seq<string>)
    requires |rest| >= 1
    ensures var s := ["ACQ:START", cache] + polls + rest;
            && |s| >= 3 && s[..2] == ["ACQ:START", cache]
            && Count(s[2..], "ACQ:STOP") == Count(polls, "ACQ:STOP") + Count(rest, "ACQ:STOP")
  {
    var s := ["ACQ:START", cache] + polls + rest;
    assert s[2..] == polls + rest;
    CountConcat(polls, rest, "ACQ:STOP");
  }

  /** The poll sends `ACQ:STOP` once when a `TD` status comes within its budget and
      never otherwise. */
  lemma PollStops(r: Replies, at: nat, fuel: nat)
    ensures Count(PollSent(PollLoop(r, at, fuel)), "ACQ:STOP") ==
              if TriggeredWithin(r, at, fuel) then 1 else 0
  {
    var p := PollLoop(r, at, fuel);
    PollLoopShape(r, at, fuel);
    var polls := Repeat("ACQ:TRIG:STAT?", p.consumed);
    CountAbsent(polls, "ACQ:STOP");
    var stop: seq<string> := if p.fired then ["ACQ:STOP"] else [];
    CountConcat(polls, stop, "ACQ:STOP");
  }

  /** The readout sends the buffer size and decimation queries and, after them, at most
      the two channel reads; never a stop. */
  lemma ReadoutNeverStops(r: Replies, at: nat)
    ensures var x := ReadoutExchange(r, at);
            && |x.sent| >= 1 && x.sent[0] == "ACQ:BUF:SIZE?"
            && Count(x.sent, "ACQ:STOP") == 0
  {
    var x := ReadoutExchange(r, at);
    assert x.sent == ["ACQ:BUF:SIZE?"] || x.sent == ["ACQ:BUF:SIZE?", "ACQ:DEC?"]
        || x.sent == ["ACQ:BUF:SIZE?", "ACQ:DEC?", "ACQ:SOUR1:DATA?", "ACQ:SOUR2:DATA?"];
    CountAbsent(x.sent, "ACQ:STOP");
  }

  /** When the buffer size and decimation replies are integers and the size is not
      negative, the acquisition succeeds and its last four commands read the buffer
      size, the decimation and the two channels; the time axis has one point per sample. */
  lemma AcquisitionReadsBoth(cache: string, r: Replies, at: nat, fuel: nat)
    requires var p := PollLoop(r, at, fuel);
             && IntAnswer(r.Parsed(at + p.consumed)).Ok?
             && IntAnswer(r.Parsed(at + p.consumed + 1)).Ok?
             && IntAnswer(r.Parsed(at + p.consumed)).value.value >= 0
    ensures var a := AcquisitionExchange(cache, r, at, fuel);
            && a.result.Ok?
            && |a.result.value.ts| == IntAnswer(r.Parsed(at + PollLoop(r, at, fuel).consumed)).value.value
            && |a.sent| >= 6
            && a.sent[|a.sent| - 4..] == ["ACQ:BUF:SIZE?", "ACQ:DEC?", "ACQ:SOUR1:DATA?", "ACQ:SOUR2:DATA?"]
  {
    var p := PollLoop(r, at, fuel);
    var t := TimePointsExchange(r, at + p.consumed);
    assert t.sent == ["ACQ:BUF:SIZE?", "ACQ:DEC?"];
    assert t.result.Ok?;
    var x := ReadoutExchange(r, at + p.consumed);
    assert x.sent == ["ACQ:BUF:SIZE?", "ACQ:DEC?", "ACQ:SOUR1:DATA?", "ACQ:SOUR2:DATA?"];
    var a := AcquisitionExchange(cache, r, at, fuel);
    assert a.sent == (["ACQ:START", cache] + PollSent(p)) + x.sent;
  }

  // ---------------------------------------------------------------------------
  // Specifications of set_time_res and set_time_total

  /** `set_time_res(res)` reading replies from `at` on: buffer size query, the chosen
      decimation, decimation query; the result is the decimation read back over the
      sampling rate. */
  function TimeResExchange(res: real, r: Replies, at: nat): Exchange<real>
  {
    match IntAnswer(r.Parsed(at))
    case Err(e) => Exchange(["ACQ:BUF:SIZE?"], 1, Err(e))
    case Ok(_) =>
      var sent := ["ACQ:BUF:SIZE?", "ACQ:DEC " + IntToString(DecimationForResolution(res)), "ACQ:DEC?"];
      match IntAnswer(r.Parsed(at + 1))
      case Err(e) => Exchange(sent, 2, Err(e))
      case Ok(d) => Exchange(sent, 2, Ok(d.value as real / SamplingRate))
  }

  /** When the instrument accepts the decimation `set_time_res` chose, the resolution it
      reports is no coarser than requested and more than half of it. */
  lemma TimeResHonoured(res: real, r: Replies, at: nat)
    requires IntAnswer(r.Parsed(at)).Ok?
    requires r.Parsed(at + 1).value == IntToString(DecimationForResolution(res))
    requires res * SamplingRate >= 1.0
    ensures var x := TimeResExchange(res, r, at);
            x.result.Ok? && x.result.value <= res < 2.0 * x.result.value
  {
    var dec := DecimationForResolution(res);
    ParseIntOfString(dec);
    assert dec as real / SamplingRate <= res;
  }

  /** `set_time_total(total)` reading replies from `at` on: buffer size query, the chosen
      decimation, decimation query; the result is the window the decimation read back
      gives a full buffer. */
  function TimeTotalExchange(total: real, r: Replies, at: nat): Exchange<real>
  {
    match IntAnswer(r.Parsed(at))
    case Err(e) => Exchange(["ACQ:BUF:SIZE?"], 1, Err(e))
    case Ok(buf) =>
      match DecimationForTotal(total, buf.value)
      case Err(e) => Exchange(["ACQ:BUF:SIZE?"], 1, Err(e))
      case Ok(dec) =>
        var sent := ["ACQ:BUF:SIZE?", "ACQ:DEC " + IntToString(dec), "ACQ:DEC?"];
        match IntAnswer(r.Parsed(at + 1))
        case Err(e) => Exchange(sent, 2, Err(e))
        case Ok(d) => Exchange(sent, 2, Ok(Window(buf.value, d.value)))
  }

  /** When the buffer size is positive, the instrument accepts the chosen decimation and
      the needed stretch exceeds 1/2, the window reported covers the requested total
      time, or is the longest window when the total is beyond it. */
  lemma TimeTotalCovers(total: real, r: Replies, at: nat)
    requires IntAnswer(r.Parsed(at)).Ok?
    requires var buf := IntAnswer(r.Parsed(at)).value.value;
             && buf > 0
             && DecimationForTotal(total, buf).Ok?
             && r.Parsed(at + 1).value == IntToString(DecimationForTotal(total, buf).value)
             && (total <= MaxTime(buf) ==> Stretch(total, buf) > 0.5)
    ensures var buf := IntAnswer(r.Parsed(at)).value.value;
            var x := TimeTotalExchange(total, r, at);
            && x.result.Ok?
            && (total <= MaxTime(buf) ==> total <= x.result.value)
            && (total > MaxTime(buf) ==> x.result.value == MaxTime(buf))
  {
    var buf := IntAnswer(r.Parsed(at)).value.value;
    var dec := DecimationForTotal(total, buf).value;
    IntAnswerOfString(r.Parsed(at + 1).errFlag, dec);
    assert TimeTotalExchange(total, r, at).result == Ok(Window(buf, dec));
    if total <= MaxTime(buf) {
      WindowCovers(total, buf, dec);
    }
  }

  /** As written, `set_time_total` sends `ACQ:DEC 0` for a positive total of at most
      half a sample period per buffer sample (`2**ceil(log2 x)` is then at most 1/2 and
      `int()` truncates it to 0); when the instrument echoes that decimation, the window
      reported is 0, short of the total asked for. */
  lemma TimeTotalFallsShort(total: real, r: Replies, at: nat)
    requires IntAnswer(r.Parsed(at)).Ok?
    requires var buf := IntAnswer(r.Parsed(at)).value.value;
             buf > 0 && 0.0 < total && Stretch(total, buf) <= 0.5
    requires r.Parsed(at + 1).value == "0"
    ensures var x := TimeTotalExchange(total, r, at);
            && x.sent == ["ACQ:BUF:SIZE?", "ACQ:DEC 0", "ACQ:DEC?"]
            && x.result == Ok(0.0)
            && x.result.value < total
  {
    var buf := IntAnswer(r.Parsed(at)).value.value;
    SmallStretchSendsZero(total, buf);
    ZeroString();
    var echo := r.Parsed(at + 1);
    assert echo == Answer(echo.errFlag, IntToString(0));
    IntAnswerOfString(echo.errFlag, 0);
    assert Window(buf, 0) == 0.0;
    var x := TimeTotalExchange(total, r, at);
    assert x.sent == ["ACQ:BUF:SIZE?", "ACQ:DEC " + IntToString(0), "ACQ:DEC?"];
    assert "ACQ:DEC " + "0" == "ACQ:DEC 0";
    assert x.result == Ok(Window(buf, 0));
  }

  lemma ZeroString()
    ensures IntToString(0) == "0"
  {
    assert NatToString(0) == [DigitChar(0)];
  }

  /** A non-negative stretch of at most 1/2 makes `set_time_total` choose decimation 0. */
  lemma SmallStretchSendsZero(total: real, bufSize: int)
    requires bufSize > 0 && 0.0 <= total && Stretch(total, bufSize) <= 0.5
    ensures DecimationForTotal(total, bufSize) == Ok(0)
  {
    StretchBelowMax(total, bufSize);
    StretchNonNegative(total, bufSize);
  }

  /** A total whose stretch is at most 1/2 lies within the longest window. */
  lemma StretchBelowMax(total: real, bufSize: int)
    requires bufSize > 0 && Stretch(total, bufSize) <= 0.5
    ensures total <= MaxTime(bufSize)
  {
    var w := bufSize as real / SamplingRate;
    assert total == w * Stretch(total, bufSize);
    MulMonotone(w, Stretch(total, bufSize), MaxDecimation as real);
  }

  /** A non-negative total over a positive buffer needs a non-negative stretch. */
  lemma StretchNonNegative(total: real, bufSize: int)
    requires bufSize > 0 && 0.0 <= total
    ensures 0.0 <= Stretch(total, bufSize)
  {
  }

  /** 10 microseconds on a 16384-sample buffer: the decimation sent is 0. */
  lemma TenMicrosecondsSendsZero()
    ensures DecimationForTotal(0.00001, 16384) == Ok(0)
  {
    assert Stretch(0.00001, 16384) == 1250.0 / 16384.0;
  }

  /** The decimation `set_time_total` evidently intends: as written, but never below 1,
      so that the window always covers a total the buffer can hold. */
  function CoveringDecimation(total: real, bufSize: int): (r: Result<int>)
    ensures DecimationForTotal(total, bufSize).Ok? <==> r.Ok?
    ensures r.Ok? ==> r.value == if DecimationForTotal(total, bufSize).value < 1 then 1 else DecimationForTotal(total, bufSize).value
  {
    match DecimationForTotal(total, bufSize)
    case Err(e) => Err(e)
    case Ok(d) => Ok(if d < 1 then 1 else d)
  }

  /** With a positive buffer, every total from 0 up to the longest window gets a
      power-of-two decimation whose window covers it, and the next smaller power of
      two would not. */
  lemma CoveringDecimationCovers(total: real, bufSize: int)
    requires bufSize > 0 && 0.0 <= total <= MaxTime(bufSize)
    ensures var r := CoveringDecimation(total, bufSize);
            && r.Ok? && IsPow2(r.value)
            && total <= Window(bufSize, r.value)
            && (r.value == 1 || Window(bufSize, r.value / 2) < total)
  {
    CoveringStretch(total, bufSize);
    var dec := CoveringDecimation(total, bufSize).value;
    WindowCovers(total, bufSize, dec);
    if dec != 1 {
      WindowBelow(total, bufSize, dec / 2);
    }
  }

  /** The covering decimation is a power of two at least the needed stretch, and
      (unless 1) its half is below it. */
  lemma CoveringStretch(total: real, bufSize: int)
    requires bufSize > 0 && 0.0 <= total <= MaxTime(bufSize)
    ensures var r := CoveringDecimation(total, bufSize);
            var x := Stretch(total, bufSize);
            && r.Ok? && IsPow2(r.value) && x <= r.value as real
            && (r.value == 1 || ((r.value / 2) as real) < x)
  {
    StretchNonNegative(total, bufSize);
    var x := Stretch(total, bufSize);
    var d := DecimationForTotal(total, bufSize).value;
    if x > 0.5 && d != 1 {
      Pow2Half(d);
    }
  }

  /** Half of a power of two above 1 is a whole number, and doubling it gives it back. */
  lemma Pow2Half(p: int)
    requires IsPow2(p) && p != 1
    ensures p == 2 * (p / 2)
  {
  }

  /** A decimation below the needed stretch gives a window shorter than the total time. */
  lemma WindowBelow(total: real, bufSize: int, dec: int)
    requires bufSize > 0 && (dec as real) < Stretch(total, bufSize)
    ensures Window(bufSize, dec) < total
  {
    var w := bufSize as real / SamplingRate;
    var x := Stretch(total, bufSize);
    assert total == w * x;
    MulStrict(w, dec as real, x);
  }

  /** A decimation at least the needed stretch gives a window at least the total time. */
  lemma WindowCovers(total: real, bufSize: int, dec: int)
    requires bufSize > 0 && Stretch(total, bufSize) <= dec as real
    ensures total <= Window(bufSize, dec)
  {
    var w := bufSize as real / SamplingRate;
    var x := Stretch(total, bufSize);
    assert total == w * x;
    assert w * x <= w * dec as real by {
      MulMonotone(w, x, dec as real);
    }
  }

  /** Scaling by the positive sample period per buffer keeps an inequality between
      stretches (the non-linear step of `WindowCovers` and `StretchBelowMax`). */
  lemma MulMonotone(w: real, a: real, b: real)
    requires w > 0.0 && a <= b
    ensures w * a <= w * b
  {
  }

  /** The strict form of `MulMonotone`, for `WindowBelow`. */
  lemma MulStrict(w: real, a: real, b: real)
    requires w > 0.0 && a < b
    ensures w * a < w * b
  {
  }

  // ---------------------------------------------------------------------------
  // The wrapper class

  class Scope {
    const rp: Link
    const samplingRate: real := SamplingRate
    var trigCache: string

    /** A fresh wrapper caches the immediate trigger and sends nothing. */
    constructor (rp: Link)
      ensures this.rp == rp && samplingRate == SamplingRate
      ensures trigCache == "ACQ:TRIG NOW" && ParseTrigger(trigCache) == Some(Now)
      ensures rp.sent == old(rp.sent) && rp.received == old(rp.received)
    {
      this.rp := rp;
      trigCache := "ACQ:TRIG NOW";
      TrigSourceRoundTrip(0, "");
    }

    // Higher level API

    /** With an edge other than `PE`/`NE` nothing is sent and the cache is kept; otherwise
        level, delay and source commands in that order, and the source command becomes
        the cached trigger. */
    method SetTrigger(source: int, edge: string, level: string, delay: real)
      modifies this, rp
      ensures edge != "PE" && edge != "NE" ==> rp.sent == old(rp.sent) && trigCache == old(trigCache)
      ensures edge == "PE" || edge == "NE" ==>
                && rp.sent == old(rp.sent) + ["ACQ:TRIG:LEV " + level,
                                              "ACQ:TRIG:DLY " + IntToString(Trunc(delay)),
                                              TrigSourceCommand(source, edge)]
                && trigCache == TrigSourceCommand(source, edge)
                && ParseTrigger(trigCache) == Some(TriggerOf(source, edge))
      ensures rp.received == old(rp.received)
    {
      if edge != "PE" && edge != "NE" {
        return;
      }
      SetTrigLev(level);
      SetTrigDelay(delay);
      var ret := SetTrigSource(source, edge);
      trigCache := ret;
      TrigSourceRoundTrip(source, edge);
    }

    method SetTimeRes(res: real) returns (r: Result<real>)
      modifies rp
      ensures var x := TimeResExchange(res, rp.replies, old(rp.received));
              rp.sent == old(rp.sent) + x.sent && rp.received == old(rp.received) + x.consumed && r == x.result
    {
      var buf := GetBufSize();
      if buf.Err? {
        return Err(buf.error);
      }
      var dec := DecimationForResolution(res);
      SetDec(dec as real);
      var got := GetDec();
      if got.Err? {
        return Err(got.error);
      }
      r := Ok(got.value.value as real / samplingRate);
    }

    method SetTimeTotal(total: real) returns (r: Result<real>)
      modifies rp
      ensures var x := TimeTotalExchange(total, rp.replies, old(rp.received));
              rp.sent == old(rp.sent) + x.sent && rp.received == old(rp.received) + x.consumed && r == x.result
    {
      var buf := GetBufSize();
      if buf.Err? {
        return Err(buf.error);
      }
      var dec := DecimationForTotal(total, buf.value.value);
      if dec.Err? {
        return Err(dec.error);
      }
      SetDec(dec.value as real);
      var got := GetDec();
      if got.Err? {
        return Err(got.error);
      }
      r := Ok(Window(buf.value.value, got.value.value));
    }

    method GetTimePoints() returns (r: Result<seq<real>>)
      modifies rp
      ensures var x := TimePointsExchange(rp.replies, old(rp.received));
              rp.sent == old(rp.sent) + x.sent && rp.received == old(rp.received) + x.consumed && r == x.result
    {
      var buf := GetBufSize();
      if buf.Err? {
        return Err(buf.error);
      }
      var dec := GetDec();
      if dec.Err? {
        return Err(dec.error);
      }
      r := TimePoints(buf.value.value, dec.value.value);
    }

    /** Arm, replay the cached trigger, poll the status at most `fuel` times (the polls
        that fit in the timeout) until `TD`, then read the time axis and both channels. */
    method AcquireTrace(fuel: nat) returns (r: Result<Trace>)
      modifies rp
      ensures var a := AcquisitionExchange(old(trigCache), rp.replies, old(rp.received), fuel);
              rp.sent == old(rp.sent) + a.sent && rp.received == old(rp.received) + a.consumed && r == a.result
    {
      ghost var a := AcquisitionExchange(trigCache, rp.replies, rp.received, fuel);
      ghost var p := PollLoop(rp.replies, rp.received, fuel);
      ghost var x := ReadoutExchange(rp.replies, rp.received + p.consumed);
      assert a.sent == ["ACQ:START", trigCache] + PollSent(p) + x.sent;
      ghost var before := rp.sent;
      StartAcq();
      rp.Tx(trigCache);
      AwaitTrigger(fuel);
      r := ReadOut();
      assert rp.sent == before + (["ACQ:START", trigCache] + PollSent(p) + x.sent);
    }

    /** The wait of `acquire_trace`: poll the status until `TD` (then stop the
        acquisition), at most `fuel` times. */
    method AwaitTrigger(fuel: nat)
      modifies rp
      ensures var p := PollLoop(rp.replies, old(rp.received), fuel);
              rp.sent == old(rp.sent) + PollSent(p) && rp.received == old(rp.received) + p.consumed
    {
      ghost var at := rp.received;
      ghost var start := rp.sent;
      ghost var whole := PollLoop(rp.replies, at, fuel);
      var polls: nat := 0;
      while polls < fuel
        invariant polls <= fuel
        invariant rp.received == at + polls
        invariant rp.sent == start + Repeat("ACQ:TRIG:STAT?", polls)
        invariant whole == Extend(polls, PollLoop(rp.replies, at + polls, fuel - polls))
      {
        var stat := GetTrigStatus();
        if stat.value == "TD" {
          StopAcq();
          assert Repeat("ACQ:TRIG:STAT?", polls) + ["ACQ:TRIG:STAT?"] == Repeat("ACQ:TRIG:STAT?", polls + 1);
          return;
        }
        assert Repeat("ACQ:TRIG:STAT?", polls) + ["ACQ:TRIG:STAT?"] == Repeat("ACQ:TRIG:STAT?", polls + 1);
        polls := polls + 1;
      }
      assert rp.sent == start + PollSent(whole);
    }

    /** The readout of `acquire_trace`: the time axis, then both channels' samples. */
    method ReadOut() returns (r: Result<Trace>)
      modifies rp
      ensures var x := ReadoutExchange(rp.replies, old(rp.received));
              rp.sent == old(rp.sent) + x.sent && rp.received == old(rp.received) + x.consumed && r == x.result
    {
      var ts := GetTimePoints();
      if ts.Err? {
        return Err(ts.error);
      }
      SourceDataNames();
      var ch1 := ReadAllSamples(1);
      var ch2 := ReadAllSamples(2);
      r := Ok(Trace(ts.value, ch1.value, ch2.value));
    }

    // Lower level API: acquisition

    method StartAcq()
      modifies rp
      ensures rp.sent == old(rp.sent) + ["ACQ:START"] && rp.received == old(rp.received)
    {
      rp.Tx("ACQ:START");
    }

    method StopAcq()
      modifies rp
      ensures rp.sent == old(rp.sent) + ["ACQ:STOP"] && rp.received == old(rp.received)
    {
      rp.Tx("ACQ:STOP");
    }

    method ResetAcq()
      modifies rp
      ensures rp.sent == old(rp.sent) + ["ACQ:RST"] && rp.received == old(rp.received)
    {
      rp.Tx("ACQ:RST");
    }

    // Decimation

    method GetDec() returns (r: Result<Answer<int>>)
      modifies rp
      ensures rp.sent == old(rp.sent) + ["ACQ:DEC?"] && rp.received == old(rp.received) + 1
      ensures r == IntAnswer(rp.replies.Parsed(old(rp.received)))
    {
      r := rp.QueryInt("ACQ:DEC?");
    }

    method SetDec(val: real)
      modifies rp
      ensures rp.sent == old(rp.sent) + ["ACQ:DEC " + IntToString(Trunc(val))] && rp.received == old(rp.received)
    {
      rp.Tx("ACQ:DEC " + IntToString(Trunc(val)));
    }

    method GetAvg() returns (a: Answer<string>)
      modifies rp
      ensures rp.sent == old(rp.sent) + ["ACQ:AVG?"] && rp.received == old(rp.received) + 1
      ensures a == rp.replies.Parsed(old(rp.received))
    {
      a := rp.Query("ACQ:AVG?");
    }

    method SetAvg(val: string)
      modifies rp
      ensures rp.sent == old(rp.sent) + ["ACQ:AVG " + val] && rp.received == old(rp.received)
    {
      rp.Tx("ACQ:AVG " + val);
    }

    // Trigger

    /** Sends exactly one trigger command and returns that same command. */
    method SetTrigSource(source: int, edge: string) returns (cmd: string)
      modifies rp
      ensures cmd == TrigSourceCommand(source, edge)
      ensures rp.sent == old(rp.sent) + [cmd] && rp.received == old(rp.received)
    {
      if source == -1 {
        cmd := "ACQ:TRIG DISABLED";
        rp.Tx(cmd);
      } else if source == 0 {
        cmd := "ACQ:TRIG NOW";
        rp.Tx(cmd);
      } else if source == 1 || source == 2 {
        cmd := "ACQ:TRIG CH" + IntToString(source) + "_" + edge;
        rp.Tx(cmd);
      } else if source == 3 {
        cmd := "ACQ:TRIG EXT_" + edge;
        rp.Tx(cmd);
      } else if source == 4 {
        cmd := "ACQ:TRIG AWG_" + edge;
        rp.Tx(cmd);
      } else {
        cmd := "ACQ:TRIG NOW";
        rp.Tx(cmd);
      }
    }

    method GetTrigStatus() returns (a: Answer<string>)
      modifies rp
      ensures rp.sent == old(rp.sent) + ["ACQ:TRIG:STAT?"] && rp.received == old(rp.received) + 1
      ensures a == rp.replies.Parsed(old(rp.received))
    {
      a := rp.Query("ACQ:TRIG:STAT?");
    }

    method GetTrigDelay() returns (r: Result<Answer<int>>)
      modifies rp
      ensures rp.sent == old(rp.sent) + ["ACQ:TRIG:DLY?"] && rp.received == old(rp.received) + 1
      ensures r == IntAnswer(rp.replies.Parsed(old(rp.received)))
    {
      r := rp.QueryInt("ACQ:TRIG:DLY?");
    }

    method SetTrigDelay(val: real)
      modifies rp
      ensures rp.sent == old(rp.sent) + ["ACQ:TRIG:DLY " + IntToString(Trunc(val))] && rp.received == old(rp.received)
    {
      rp.Tx("ACQ:TRIG:DLY " + IntToString(Trunc(val)));
    }

    method GetTrigDelayNs() returns (r: Result<Answer<int>>)
      modifies rp
      ensures rp.sent == old(rp.sent) + ["ACQ:TRIG:DLY:NS?"] && rp.received == old(rp.received) + 1
      ensures r == IntAnswer(rp.replies.Parsed(old(rp.received)))
    {
      r := rp.QueryInt("ACQ:TRIG:DLY:NS?");
    }

    method SetTrigDelayNs(val: real)
      modifies rp
      ensures rp.sent == old(rp.sent) + ["ACQ:TRIG:DLY:NS " + IntToString(Trunc(val))] && rp.received == old(rp.received)
    {
      rp.Tx("ACQ:TRIG:DLY:NS " + IntToString(Trunc(val)));
    }

    /** The hysteresis in volts; its text is returned as is (`float()` is not modelled). */
    method GetTrigHyst() returns (a: Answer<string>)
      modifies rp
      ensures rp.sent == old(rp.sent) + ["ACQ:TRIG:HYST?"] && rp.received == old(rp.received) + 1
      ensures a == rp.replies.Parsed(old(rp.received))
    {
      a := rp.Query("ACQ:TRIG:HYST?");
    }

    method SetTrigHyst(val: string)
      modifies rp
      ensures rp.sent == old(rp.sent) + ["ACQ:TRIG:HYST " + val] && rp.received == old(rp.received)
    {
      rp.Tx("ACQ:TRIG:HYST " + val);
    }

    /** The trigger level in volts; its text is returned as is (`float()` is not modelled). */
    method GetTrigLev() returns (a: Answer<string>)
      modifies rp
      ensures rp.sent == old(rp.sent) + ["ACQ:TRIG:LEV?"] && rp.received == old(rp.received) + 1
      ensures a == rp.replies.Parsed(old(rp.received))
    {
      a := rp.Query("ACQ:TRIG:LEV?");
    }

    method SetTrigLev(val: string)
      modifies rp
      ensures rp.sent == old(rp.sent) + ["ACQ:TRIG:LEV " + val] && rp.received == old(rp.received)
    {
      rp.Tx("ACQ:TRIG:LEV " + val);
    }

    // Data acquisition

    method GetDataUnits() returns (a: Answer<string>)
      modifies rp
      ensures rp.sent == old(rp.sent) + ["ACQ:DATA:UNITS?"] && rp.received == old(rp.received) + 1
      ensures a == rp.replies.Parsed(old(rp.received))
    {
      a := rp.Query("ACQ:DATA:UNITS?");
    }

    method SetDataUnits(val: string)
      modifies rp
      ensures rp.sent == old(rp.sent) + ["ACQ:DATA:UNITS " + val] && rp.received == old(rp.received)
    {
      rp.Tx("ACQ:DATA:UNITS " + val);
    }

    method SetDataFormat(val: string)
      modifies rp
      ensures rp.sent == old(rp.sent) + ["ACQ:DATA:FORMAT " + val] && rp.received == old(rp.received)
    {
      rp.Tx("ACQ:DATA:FORMAT " + val);
    }

    /** The raw reply (no error-marker decoding) split into samples. */
    method ReadSamplesStartEnd(source: int, start: int, end: int) returns (data: seq<string>)
      modifies rp
      ensures rp.sent == old(rp.sent) + ["ACQ:SOUR" + IntToString(source) + ":DATA:STA:END? "
                                         + IntToString(start) + "," + IntToString(end)]
      ensures rp.received == old(rp.received) + 1
      ensures data == SampleTokens(rp.replies.Raw(old(rp.received)))
    {
      rp.Tx("ACQ:SOUR" + IntToString(source) + ":DATA:STA:END? " + IntToString(start) + "," + IntToString(end));
      var reply := rp.Rx();
      data := SampleTokens(reply.text);
    }

    method ReadSamplesFrom(source: int, start: int, nsamples: int) returns (a: Answer<seq<string>>)
      modifies rp
      ensures rp.sent == old(rp.sent) + ["ACQ:SOUR" + IntToString(source) + ":DATA:STA:N? "
                                         + IntToString(start) + "," + IntToString(nsamples)]
      ensures rp.received == old(rp.received) + 1
      ensures var got := rp.replies.Parsed(old(rp.received));
              a == Answer(got.errFlag, SampleTokens(got.value))
    {
      var got := rp.Query("ACQ:SOUR" + IntToString(source) + ":DATA:STA:N? " + IntToString(start) + "," + IntToString(nsamples));
      a := Answer(got.errFlag, SampleTokens(got.value));
    }

    method ReadAllSamples(source: int) returns (a: Answer<seq<string>>)
      modifies rp
      ensures rp.sent == old(rp.sent) + [SourceData(source)] && rp.received == old(rp.received) + 1
      ensures var got := rp.replies.Parsed(old(rp.received));
              a == Answer(got.errFlag, SampleTokens(got.value))
    {
      var got := rp.Query(SourceData(source));
      a := Answer(got.errFlag, SampleTokens(got.value));
    }

    method ReadSamplesFromTrig(source: int, nsamples: int) returns (a: Answer<seq<string>>)
      modifies rp
      ensures rp.sent == old(rp.sent) + ["ACQ:SOUR" + IntToString(source) + ":DATA:OLD:N? " + IntToString(nsamples)]
      ensures rp.received == old(rp.received) + 1
      ensures var got := rp.replies.Parsed(old(rp.received));
              a == Answer(got.errFlag, SampleTokens(got.value))
    {
      var got := rp.Query("ACQ:SOUR" + IntToString(source) + ":DATA:OLD:N? " + IntToString(nsamples));
      a := Answer(got.errFlag, SampleTokens(got.value));
    }

    method ReadSamplesBeforeTrig(source: int, nsamples: int) returns (a: Answer<seq<string>>)
      modifies rp
      ensures rp.sent == old(rp.sent) + ["ACQ:SOUR" + IntToString(source) + ":DATA:LAT:N? " + IntToString(nsamples)]
      ensures rp.received == old(rp.received) + 1
      ensures var got := rp.replies.Parsed(old(rp.received));
              a == Answer(got.errFlag, SampleTokens(got.value))
    {
      var got := rp.Query("ACQ:SOUR" + IntToString(source) + ":DATA:LAT:N? " + IntToString(nsamples));
      a := Answer(got.errFlag, SampleTokens(got.value));
    }

    method GetBufSize() returns (r: Result<Answer<int>>)
      modifies rp
      ensures rp.sent == old(rp.sent) + ["ACQ:BUF:SIZE?"] && rp.received == old(rp.received) + 1
      ensures r == IntAnswer(rp.replies.Parsed(old(rp.received)))
    {
      r := rp.QueryInt("ACQ:BUF:SIZE?");
    }

    // Others

    method GetSourceGain(source: int) returns (a: Answer<string>)
      modifies rp
      ensures rp.sent == old(rp.sent) + ["ACQ:SOUR" + IntToString(source) + ":GAIN?"]
      ensures rp.received == old(rp.received) + 1
      ensures a == rp.replies.Parsed(old(rp.received))
    {
      a := rp.Query("ACQ:SOUR" + IntToString(source) + ":GAIN?");
    }

    method SetSourceGain(source: int, val: string)
      modifies rp
      ensures rp.sent == old(rp.sent) + ["ACQ:SOUR" + IntToString(source) + ":GAIN " + val]
      ensures rp.received == old(rp.received)
    {
      rp.Tx("ACQ:SOUR" + IntToString(source) + ":GAIN " + val);
    }
  }
}

/** The function generator wrapper: per-channel waveform, frequency, amplitude,
    offset, phase, duty cycle, arbitrary-waveform data, burst and trigger commands,
    and the output enable / disable sequences. */
module FuncGenerator {
  import opened Text
  import opened Transport

  // ---------------------------------------------------------------------------
  // Commands and the channel they address

  /** `'SOUR' + str(int(source)) + rest`. */
  function SourceCommand(source: int, rest: string): string
  {
    "SOUR" + IntToString(source) + rest
  }

  /** `'OUTPUT' + str(int(source)) + rest`. */
  function OutputCommand(source: int, rest: string): string
  {
    "OUTPUT" + IntToString(source) + rest
  }

  /** A channel setting `SOUR<n><keyword> <value>`. */
  function Setting(source: int, keyword: string, value: string): string
  {
    SourceCommand(source, keyword + " " + value)
  }

  /** The channel number written between `prefix` and the next `:`; `None` when
      there is none (a command for all channels). */
  function ChannelAfter(cmd: string, prefix: string): Option<int>
  {
    if |prefix| <= |cmd| && cmd[..|prefix|] == prefix then
      var body := cmd[|prefix|..];
      var i := IndexOf(body, ':');
      if i == |body| || i == 0 then None else ParseInt(body[..i])
    else None
  }

  /** A channel command addresses exactly the channel it was built for. */
  lemma ChannelRoundTrip(prefix: string, source: int, rest: string)
    requires |rest| > 0 && rest[0] == ':'
    ensures ChannelAfter(prefix + IntToString(source) + rest, prefix) == Some(source)
  {
    var digits := IntToString(source);
    var cmd := prefix + digits + rest;
    IntStringAvoids(source, ':');
    assert cmd[..|prefix|] == prefix;
    var body := cmd[|prefix|..];
    assert body == digits + [':'] + rest[1..];
    IndexOfAfter(digits, rest[1..], ':');
    assert body[..|digits|] == digits;
    ParseIntOfString(source);
  }

  /** With no number after the prefix, a command addresses no single channel. */
  lemma NoChannel(prefix: string, rest: string)
    requires |rest| > 0 && rest[0] == ':'
    ensures ChannelAfter(prefix + rest, prefix) == None
  {
    var cmd := prefix + rest;
    assert cmd[..|prefix|] == prefix && cmd[|prefix|..] == rest;
  }

  /** A setting addresses its channel, under the header `SOUR<n><keyword>`. */
  lemma SettingAnatomy(source: int, keyword: string, value: string)
    requires |keyword| > 0 && keyword[0] == ':' && ' ' !in keyword
    ensures ChannelAfter(Setting(source, keyword, value), "SOUR") == Some(source)
    ensures Header(Setting(source, keyword, value)) == SourceCommand(source, keyword)
  {
    ChannelRoundTrip("SOUR", source, keyword + " " + value);
    IntStringAvoids(source, ' ');
    var head := SourceCommand(source, keyword);
    assert Setting(source, keyword, value) == head + [' '] + value;
    IndexOfAfter(head, value, ' ');
  }

  /** The command of a trigger: it ends in `:TRIG:INT`. */
  predicate IsTrigger(cmd: string)
  {
    |cmd| >= 9 && cmd[|cmd| - 9..] == ":TRIG:INT"
  }

  // ---------------------------------------------------------------------------
  // Specifications of the multi-command operations

  /** The keywords of `set_output`'s settings, in the order they are sent. */
  const OutputKeywords: seq<string> := [":FUNC", ":FREQ:FIX", ":VOLT", ":VOLT:OFFS", ":PHAS"]

  /** `set_output`: waveform, frequency, amplitude, offset, phase, in that order. */
  function OutputSettings(chn: int, waveform: string, freq: real, amp: string, offset: string, phase: string): seq<string>
  {
    [ Setting(chn, ":FUNC", waveform),
      FreqCommand(chn, freq),
      Setting(chn, ":VOLT", amp),
      Setting(chn, ":VOLT:OFFS", offset),
      Setting(chn, ":PHAS", phase) ]
  }

  /** The five settings of `set_output` all address the one channel, under the
      headers waveform, frequency, amplitude, offset and phase in that order. */
  lemma OutputSettingsAddressOneChannel(chn: int, waveform: string, freq: real, amp: string, offset: string, phase: string)
    ensures var cmds := OutputSettings(chn, waveform, freq, amp, offset, phase);
            && |cmds| == |OutputKeywords|
            && forall k :: 0 <= k < |cmds| ==>
                 && ChannelAfter(cmds[k], "SOUR") == Some(chn)
                 && Header(cmds[k]) == SourceCommand(chn, OutputKeywords[k])
  {
    var cmds := OutputSettings(chn, waveform, freq, amp, offset, phase);
    forall k | 0 <= k < |cmds|
      ensures ChannelAfter(cmds[k], "SOUR") == Some(chn)
      ensures Header(cmds[k]) == SourceCommand(chn, OutputKeywords[k])
    {
      if k == 0 {
        SettingAnatomy(chn, ":FUNC", waveform);
      } else if k == 1 {
        SettingAnatomy(chn, ":FREQ:FIX", IntToString(Trunc(freq)));
      } else if k == 2 {
        SettingAnatomy(chn, ":VOLT", amp);
      } else if k == 3 {
        SettingAnatomy(chn, ":VOLT:OFFS", offset);
      } else {
        SettingAnatomy(chn, ":PHAS", phase);
      }
    }
  }

  /** `set_all_states(val)` for channel 0, `set_state(chn, val)` otherwise. */
  function StateCommand(chn: int, val: string): string
  {
    if chn == 0 then "OUTPUT:STATE " + val else OutputCommand(chn, ":STATE " + val)
  }

  /** `trigger_all_now()` for channel 0, `trigger_chn_now(chn)` otherwise. */
  function TriggerCommand(chn: int): string
  {
    if chn == 0 then "SOUR:TRIG:INT" else SourceCommand(chn, ":TRIG:INT")
  }

  /** `enable_output(chn)`: switch on, then trigger. */
  function EnableCommands(chn: int): seq<string>
  {
    [StateCommand(chn, "ON"), TriggerCommand(chn)]
  }

  /** `disable_output(chn)`: switch off and nothing else. */
  function DisableCommands(chn: int): seq<string>
  {
    [StateCommand(chn, "OFF")]
  }

  /** A state command addresses channel `chn` (no single channel for 0). */
  lemma StateCommandChannel(chn: int, val: string)
    ensures ChannelAfter(StateCommand(chn, val), "OUTPUT") == if chn == 0 then None else Some(chn)
  {
    if chn == 0 {
      NoChannel("OUTPUT", ":STATE " + val);
    } else {
      ChannelRoundTrip("OUTPUT", chn, ":STATE " + val);
    }
  }

  /** A state command carries the value as its only argument. */
  lemma StateCommandArgument(chn: int, val: string)
    requires ',' !in val
    ensures Arguments(StateCommand(chn, val)) == [val]
  {
    var head := if chn == 0 then "OUTPUT:STATE" else OutputCommand(chn, ":STATE");
    IntStringAvoids(chn, ' ');
    assert ' ' !in head;
    assert StateCommand(chn, val) == head + " " + val;
    StateArguments(head, val);
  }

  /** A header followed by one space and a comma-free value has that value as its
      only argument. */
  lemma StateArguments(head: string, val: string)
    requires ' ' !in head && ',' !in val
    ensures Arguments(head + " " + val) == [val]
  {
    assert Join([val], ',') == val;
    CommandAnatomy(head, [val]);
  }

  /** A trigger command addresses channel `chn` (no single channel for 0) and has no arguments. */
  lemma TriggerCommandAnatomy(chn: int)
    ensures IsTrigger(TriggerCommand(chn))
    ensures ChannelAfter(TriggerCommand(chn), "SOUR") == if chn == 0 then None else Some(chn)
    ensures Arguments(TriggerCommand(chn)) == []
  {
    var cmd := TriggerCommand(chn);
    IntStringAvoids(chn, ' ');
    assert ' ' !in cmd;
    assert cmd[|cmd| - 9..] == ":TRIG:INT";
    if chn == 0 {
      NoChannel("SOUR", ":TRIG:INT");
    } else {
      ChannelRoundTrip("SOUR", chn, ":TRIG:INT");
    }
  }

  /** A state command is not a trigger: it ends in its value, which does not end in `T`. */
  lemma StateIsNoTrigger(chn: int, val: string)
    requires |val| > 0 && val[|val| - 1] != 'T'
    ensures !IsTrigger(StateCommand(chn, val))
  {
    var cmd := StateCommand(chn, val);
    assert cmd[|cmd| - 1] == val[|val| - 1];
  }

  /** Enabling switches the output on and then triggers it, both on channel `chn`
      (on every channel for 0). */
  lemma EnableShape(chn: int)
    ensures var on := EnableCommands(chn);
            && |on| == 2 && Arguments(on[0]) == ["ON"] && !IsTrigger(on[0]) && IsTrigger(on[1])
            && ChannelAfter(on[0], "OUTPUT") == ChannelAfter(on[1], "SOUR") == if chn == 0 then None else Some(chn)
  {
    StateCommandChannel(chn, "ON");
    StateCommandArgument(chn, "ON");
    StateIsNoTrigger(chn, "ON");
    TriggerCommandAnatomy(chn);
  }

  /** Disabling only switches the output off, on channel `chn` (every channel for
      0), and never triggers. */
  lemma DisableShape(chn: int)
    ensures var off := DisableCommands(chn);
            && |off| == 1 && Arguments(off[0]) == ["OFF"] && !IsTrigger(off[0])
            && ChannelAfter(off[0], "OUTPUT") == if chn == 0 then None else Some(chn)
  {
    StateCommandChannel(chn, "OFF");
    StateCommandArgument(chn, "OFF");
    StateIsNoTrigger(chn, "OFF");
  }

  /** `set_freq`: the frequency truncated toward zero. */
  function FreqCommand(source: int, val: real): string
  {
    Setting(source, ":FREQ:FIX", IntToString(Trunc(val)))
  }

  /** The frequency command carries one integer argument: the value truncated toward zero. */
  lemma FreqCommandValue(source: int, val: real)
    ensures Header(FreqCommand(source, val)) == SourceCommand(source, ":FREQ:FIX")
    ensures Arguments(FreqCommand(source, val)) == [IntToString(Trunc(val))]
    ensures ParseInt(Arguments(FreqCommand(source, val))[0]) == Some(Trunc(val))
    ensures 0.0 <= val ==> Trunc(val) as real <= val < Trunc(val) as real + 1.0
    ensures val < 0.0 ==> Trunc(val) as real - 1.0 < val <= Trunc(val) as real
  {
    IntStringAvoids(source, ' ');
    var head := SourceCommand(source, ":FREQ:FIX");
    assert FreqCommand(source, val) == head + " " + IntToString(Trunc(val));
    IntCommandAnatomy(head, Trunc(val));
  }

  /** `import_awg_data`: the samples joined with commas. */
  function AwgDataCommand(source: int, data: seq<string>): string
  {
    Setting(source, ":TRAC:DATA:DATA", Join(data, ','))
  }

  /** The data command holds one comma fewer than there are samples (none for no
      samples), and its arguments are the samples themselves. */
  lemma AwgDataCommas(source: int, data: seq<string>)
    requires forall k :: 0 <= k < |data| ==> ',' !in data[k]
    ensures Count(Join(data, ','), ',') == if data == [] then 0 else |data| - 1
    ensures |data| > 0 ==> Arguments(AwgDataCommand(source, data)) == data
    ensures Header(AwgDataCommand(source, data)) == SourceCommand(source, ":TRAC:DATA:DATA")
  {
    var head := SourceCommand(source, ":TRAC:DATA:DATA");
    AwgDataHeader(source, Join(data, ','));
    if |data| > 0 {
      CommandAnatomy(head, data);
    }
    JoinCount(data, ',');
  }

  /** The data command is its header, one space and the joined samples. */
  lemma AwgDataHeader(source: int, joined: string)
    ensures ' ' !in SourceCommand(source, ":TRAC:DATA:DATA")
    ensures Setting(source, ":TRAC:DATA:DATA", joined) == SourceCommand(source, ":TRAC:DATA:DATA") + " " + joined
    ensures Header(Setting(source, ":TRAC:DATA:DATA", joined)) == SourceCommand(source, ":TRAC:DATA:DATA")
  {
    IntStringAvoids(source, ' ');
    SettingAnatomy(source, ":TRAC:DATA:DATA", joined);
  }

  // ---------------------------------------------------------------------------
  // The wrapper class

  class FuncGenerator {
    const rp: Link

    constructor (rp: Link)
      ensures this.rp == rp
      ensures rp.sent == old(rp.sent) && rp.received == old(rp.received)
    {
      this.rp := rp;
    }

    // Higher level API

    method SetOutput(chn: int, waveform: string, freq: real, amp: string, offset: string, phase: string)
      modifies rp
      ensures rp.sent == old(rp.sent) + OutputSettings(chn, waveform, freq, amp, offset, phase)
      ensures rp.received == old(rp.received)
    {
      SetWaveform(chn, waveform);
      SetFreq(chn, freq);
      SetAmp(chn, amp);
      SetOffset(chn, offset);
      SetPhase(chn, phase);
    }

    method EnableOutput(chn: int)
      modifies rp
      ensures rp.sent == old(rp.sent) + EnableCommands(chn) && rp.received == old(rp.received)
    {
      if chn == 0 {
        SetAllStates("ON");
        TriggerAllNow();
      } else {
        SetState(chn, "ON");
        TriggerChnNow(chn);
      }
    }

    method DisableOutput(chn: int)
      modifies rp
      ensures rp.sent == old(rp.sent) + DisableCommands(chn) && rp.received == old(rp.received)
    {
      if chn == 0 {
        SetAllStates("OFF");
      } else {
        SetState(chn, "OFF");
      }
    }

    // Lower level API

    method SetAllStates(val: string)
      modifies rp
      ensures rp.sent == old(rp.sent) + ["OUTPUT:STATE " + val] && rp.received == old(rp.received)
    {
      rp.Tx("OUTPUT:STATE " + val);
    }

    method SetState(source: int, val: string)
      modifies rp
      ensures rp.sent == old(rp.sent) + [OutputCommand(source, ":STATE " + val)] && rp.received == old(rp.received)
    {
      rp.Tx(OutputCommand(source, ":STATE " + val));
    }

    method GetState(source: int) returns (a: Answer<string>)
      modifies rp
      ensures rp.sent == old(rp.sent) + [OutputCommand(source, ":STATE?")]
      ensures rp.received == old(rp.received) + 1 && a == rp.replies.Parsed(old(rp.received))
    {
      a := rp.Query(OutputCommand(source, ":STATE?"));
    }

    method SetFreq(source: int, val: real)
      modifies rp
      ensures rp.sent == old(rp.sent) + [FreqCommand(source, val)] && rp.received == old(rp.received)
    {
      rp.Tx(FreqCommand(source, val));
    }

    method GetFreq(source: int) returns (r: Result<Answer<int>>)
      modifies rp
      ensures rp.sent == old(rp.sent) + [SourceCommand(source, ":FREQ:FIX?")]
      ensures rp.received == old(rp.received) + 1 && r == IntAnswer(rp.replies.Parsed(old(rp.received)))
    {
      r := rp.QueryInt(SourceCommand(source, ":FREQ:FIX?"));
    }

    method SetWaveform(source: int, val: string)
      modifies rp
      ensures rp.sent == old(rp.sent) + [Setting(source, ":FUNC", val)] && rp.received == old(rp.received)
    {
      rp.Tx(Setting(source, ":FUNC", val));
    }

    method GetWaveform(source: int) returns (a: Answer<string>)
      modifies rp
      ensures rp.sent == old(rp.sent) + [SourceCommand(source, ":FUNC?")]
      ensures rp.received == old(rp.received) + 1 && a == rp.replies.Parsed(old(rp.received))
    {
      a := rp.Query(SourceCommand(source, ":FUNC?"));
    }

    /** `val` is the text `str(val)` of the amplitude. */
    method SetAmp(source: int, val: string)
      modifies rp
      ensures rp.sent == old(rp.sent) + [Setting(source, ":VOLT", val)] && rp.received == old(rp.received)
    {
      rp.Tx(Setting(source, ":VOLT", val));
    }

    /** The reply text, before `float()`. */
    method GetAmp(source: int) returns (a: Answer<string>)
      modifies rp
      ensures rp.sent == old(rp.sent) + [SourceCommand(source, ":VOLT?")]
      ensures rp.received == old(rp.received) + 1 && a == rp.replies.Parsed(old(rp.received))
    {
      a := rp.Query(SourceCommand(source, ":VOLT?"));
    }

    method SetOffset(source: int, val: string)
      modifies rp
      ensures rp.sent == old(rp.sent) + [Setting(source, ":VOLT:OFFS", val)] && rp.received == old(rp.received)
    {
      rp.Tx(Setting(source, ":VOLT:OFFS", val));
    }

    /** The reply text, before `float()`. */
    method GetOffset(source: int) returns (a: Answer<string>)
      modifies rp
      ensures rp.sent == old(rp.sent) + [SourceCommand(source, ":VOLT:OFFS?")]
      ensures rp.received == old(rp.received) + 1 && a == rp.replies.Parsed(old(rp.received))
    {
      a := rp.Query(SourceCommand(source, ":VOLT:OFFS?"));
    }

    method SetPhase(source: int, val: string)
      modifies rp
      ensures rp.sent == old(rp.sent) + [Setting(source, ":PHAS", val)] && rp.received == old(rp.received)
    {
      rp.Tx(Setting(source, ":PHAS", val));
    }

    method GetPhase(source: int) returns (a: Answer<string>)
      modifies rp
      ensures rp.sent == old(rp.sent) + [SourceCommand(source, ":PHAS?")]
      ensures rp.received == old(rp.received) + 1 && a == rp.replies.Parsed(old(rp.received))
    {
      a := rp.Query(SourceCommand(source, ":PHAS?"));
    }

    method SetDutyCycle(source: int, val: string)
      modifies rp
      ensures rp.sent == old(rp.sent) + [Setting(source, ":DCYC", val)] && rp.received == old(rp.received)
    {
      rp.Tx(Setting(source, ":DCYC", val));
    }

    /** The reply text, before `float()`. */
    method GetDutyCycle(source: int) returns (a: Answer<string>)
      modifies rp
      ensures rp.sent == old(rp.sent) + [SourceCommand(source, ":DCYC?")]
      ensures rp.received == old(rp.received) + 1 && a == rp.replies.Parsed(old(rp.received))
    {
      a := rp.Query(SourceCommand(source, ":DCYC?"));
    }

    /** `data` holds the texts `str(x)` of the samples. */
    method ImportAwgData(source: int, data: seq<string>)
      modifies rp
      ensures rp.sent == old(rp.sent) + [AwgDataCommand(source, data)] && rp.received == old(rp.received)
    {
      var dataStr := Join(data, ',');
      rp.Tx(Setting(source, ":TRAC:DATA:DATA", dataStr));
    }

    method GetAwgData(source: int) returns (a: Answer<string>)
      modifies rp
      ensures rp.sent == old(rp.sent) + [SourceCommand(source, ":TRAC:DATA:DATA?")]
      ensures rp.received == old(rp.received) + 1 && a == rp.replies.Parsed(old(rp.received))
    {
      a := rp.Query(SourceCommand(source, ":TRAC:DATA:DATA?"));
    }

    method SetGenMode(source: int, val: string)
      modifies rp
      ensures rp.sent == old(rp.sent) + [Setting(source, ":BURS:STAT", val)] && rp.received == old(rp.received)
    {
      rp.Tx(Setting(source, ":BURS:STAT", val));
    }

    method GetGenMode(source: int) returns (a: Answer<string>)
      modifies rp
      ensures rp.sent == old(rp.sent) + [SourceCommand(source, ":BURS:STAT?")]
      ensures rp.received == old(rp.received) + 1 && a == rp.replies.Parsed(old(rp.received))
    {
      a := rp.Query(SourceCommand(source, ":BURS:STAT?"));
    }

    /** The command text is a string plus `int(val)`: `TypeError`, nothing sent. */
    method SetBurstCycleNum(source: int, val: real) returns (r: Result<()>)
      ensures r == Err(TypeError)
    {
      r := Err(TypeError);
    }

    method GetBurstCycleNum(source: int) returns (r: Result<Answer<int>>)
      modifies rp
      ensures rp.sent == old(rp.sent) + [SourceCommand(source, ":BURS:NCYC?")]
      ensures rp.received == old(rp.received) + 1 && r == IntAnswer(rp.replies.Parsed(old(rp.received)))
    {
      r := rp.QueryInt(SourceCommand(source, ":BURS:NCYC?"));
    }

    /** The command text is a string plus `int(val)`: `TypeError`, nothing sent. */
    method SetBurstRepeats(source: int, val: real) returns (r: Result<()>)
      ensures r == Err(TypeError)
    {
      r := Err(TypeError);
    }

    method GetBurstRepeats(source: int) returns (r: Result<Answer<int>>)
      modifies rp
      ensures rp.sent == old(rp.sent) + [SourceCommand(source, ":BURS:NOR?")]
      ensures rp.received == old(rp.received) + 1 && r == IntAnswer(rp.replies.Parsed(old(rp.received)))
    {
      r := rp.QueryInt(SourceCommand(source, ":BURS:NOR?"));
    }

    /** The command text is a string plus `int(val)`: `TypeError`, nothing sent. */
    method SetBurstInt(source: int, val: real) returns (r: Result<()>)
      ensures r == Err(TypeError)
    {
      r := Err(TypeError);
    }

    method GetBurstInt(source: int) returns (r: Result<Answer<int>>)
      modifies rp
      ensures rp.sent == old(rp.sent) + [SourceCommand(source, ":BURS:INT:PER?")]
      ensures rp.received == old(rp.received) + 1 && r == IntAnswer(rp.replies.Parsed(old(rp.received)))
    {
      r := rp.QueryInt(SourceCommand(source, ":BURS:INT:PER?"));
    }

    method SetTrigSource(source: int, val: string)
      modifies rp
      ensures rp.sent == old(rp.sent) + [Setting(source, ":TRIG:SOUR", val)] && rp.received == old(rp.received)
    {
      rp.Tx(Setting(source, ":TRIG:SOUR", val));
    }

    method GetTrigSource(source: int) returns (a: Answer<string>)
      modifies rp
      ensures rp.sent == old(rp.sent) + [SourceCommand(source, ":TRIG:SOUR?")]
      ensures rp.received == old(rp.received) + 1 && a == rp.replies.Parsed(old(rp.received))
    {
      a := rp.Query(SourceCommand(source, ":TRIG:SOUR?"));
    }

    method TriggerAllNow()
      modifies rp
      ensures rp.sent == old(rp.sent) + ["SOUR:TRIG:INT"] && rp.received == old(rp.received)
    {
      rp.Tx("SOUR:TRIG:INT");
    }

    method TriggerChnNow(source: int)
      modifies rp
      ensures rp.sent == old(rp.sent) + [SourceCommand(source, ":TRIG:INT")] && rp.received == old(rp.received)
    {
      rp.Tx(SourceCommand(source, ":TRIG:INT"));
    }

    method Reset()
      modifies rp
      ensures rp.sent == old(rp.sent) + ["GEN:RST"] && rp.received == old(rp.received)
    {
      rp.Tx("GEN:RST");
    }

    method AlignPhases()
      modifies rp
      ensures rp.sent == old(rp.sent) + ["PHAS:ALIGN"] && rp.received == old(rp.received)
    {
      rp.Tx("PHAS:ALIGN");
    }
  }
}

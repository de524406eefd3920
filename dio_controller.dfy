/** The digital I/O wrapper: LEDs and the `DIO<n>_P` / `DIO<n>_N` pins, their
    identifiers, the state and direction commands, and the batch setters that send
    one command per pin. */
module DIOController {
  import opened Text
  import opened Transport

  // ---------------------------------------------------------------------------
  // Identifiers

  /** `'LED' + str(int(num))`. */
  function LedId(num: int): string
  {
    "LED" + IntToString(num)
  }

  /** `'DIO' + str(int(num)) + '_' + pin_type`. */
  function PinId(num: int, pinType: string): string
  {
    "DIO" + IntToString(num) + "_" + pinType
  }

  /** Reads an LED identifier back as its number. */
  function ParseLedId(id: string): Option<int>
  {
    if |id| >= 3 && id[..3] == "LED" then ParseInt(id[3..]) else None
  }

  /** Reads a pin identifier back as its number and pin type. */
  function ParsePinId(id: string): Option<(int, string)>
  {
    if |id| >= 3 && id[..3] == "DIO" then
      var body := id[3..];
      var i := IndexOf(body, '_');
      if i == |body| then None
      else match ParseInt(body[..i])
        case None => None
        case Some(n) => Some((n, body[i + 1..]))
    else None
  }

  /** An LED identifier names exactly its number. */
  lemma LedIdRoundTrip(num: int)
    ensures ParseLedId(LedId(num)) == Some(num)
  {
    assert LedId(num)[3..] == IntToString(num);
    ParseIntOfString(num);
  }

  /** A pin identifier names exactly its number and pin type. */
  lemma PinIdRoundTrip(num: int, pinType: string)
    ensures ParsePinId(PinId(num, pinType)) == Some((num, pinType))
  {
    var digits := IntToString(num);
    var id := PinId(num, pinType);
    assert id[..3] == "DIO";
    var body := id[3..];
    assert body == digits + ['_'] + pinType;
    IntStringAvoids(num, '_');
    IndexOfAfter(digits, pinType, '_');
    assert body[..|digits|] == digits && body[|digits| + 1..] == pinType;
    ParseIntOfString(num);
  }

  /** Different LEDs, and different pins, have different identifiers. */
  lemma IdsInjective(n1: int, t1: string, n2: int, t2: string)
    ensures LedId(n1) == LedId(n2) <==> n1 == n2
    ensures PinId(n1, t1) == PinId(n2, t2) <==> n1 == n2 && t1 == t2
  {
    LedIdRoundTrip(n1);
    LedIdRoundTrip(n2);
    PinIdRoundTrip(n1, t1);
    PinIdRoundTrip(n2, t2);
  }

  // ---------------------------------------------------------------------------
  // Commands

  /** `set_state`: `DIG:PIN <identifier>,<state>`. */
  function StateCommand(id: string, state: int): string
  {
    "DIG:PIN " + id + "," + IntToString(state)
  }

  /** `set_direction`: `DIG:PIN:DIR <direction>,<identifier>`. */
  function DirectionCommand(id: string, direction: string): string
  {
    "DIG:PIN:DIR " + direction + "," + id
  }

  /** Two comma-free strings joined by a comma. */
  lemma JoinPair(a: string, b: string)
    ensures Join([a, b], ',') == a + "," + b
  {
    assert [a, b][1..] == [b];
  }

  /** Reads a state command back as its identifier and state. */
  function DecodeStateCommand(cmd: string): Option<(string, int)>
  {
    var args := Arguments(cmd);
    if Header(cmd) != "DIG:PIN" || |args| != 2 then None
    else match ParseInt(args[1])
      case None => None
      case Some(n) => Some((args[0], n))
  }

  /** Reads a direction command back as its identifier and direction. */
  function DecodeDirectionCommand(cmd: string): Option<(string, string)>
  {
    var args := Arguments(cmd);
    if Header(cmd) != "DIG:PIN:DIR" || |args| != 2 then None else Some((args[1], args[0]))
  }

  /** A state command carries the identifier first and the state second. */
  lemma StateCommandRoundTrip(id: string, state: int)
    requires ',' !in id
    ensures DecodeStateCommand(StateCommand(id, state)) == Some((id, state))
  {
    var s := IntToString(state);
    IntStringAvoids(state, ',');
    JoinPair(id, s);
    assert StateCommand(id, state) == "DIG:PIN" + " " + Join([id, s], ',');
    CommandAnatomy("DIG:PIN", [id, s]);
    ParseIntOfString(state);
  }

  /** A direction command carries the direction first and the identifier second. */
  lemma DirectionCommandRoundTrip(id: string, direction: string)
    requires ',' !in id && ',' !in direction
    ensures DecodeDirectionCommand(DirectionCommand(id, direction)) == Some((id, direction))
  {
    JoinPair(direction, id);
    assert DirectionCommand(id, direction) == "DIG:PIN:DIR" + " " + Join([direction, id], ',');
    CommandAnatomy("DIG:PIN:DIR", [direction, id]);
  }

  lemma CommaFreePinId(num: int, pinType: string)
    requires ',' !in pinType
    ensures ',' !in PinId(num, pinType)
  {
    IntStringAvoids(num, ',');
  }

  // ---------------------------------------------------------------------------
  // The batch setters

  /** The number of LEDs, `LED0` to `LED8`. */
  const LedCount: nat := 9

  /** A batch of pin values fits the pin type: seven for `P` (pins 1 to 7; pin 0
      of that row is the external trigger), eight for `N` (pins 0 to 7). */
  predicate BatchFits(n: int, pinType: string)
  {
    (pinType == "P" && n == 7) || (pinType == "N" && n == 8)
  }

  /** The pin the first value of a batch goes to. */
  function FirstPin(pinType: string): nat
  {
    if pinType == "P" then 1 else 0
  }

  /** The commands `set_all_led(states)` sends. */
  function LedBatch(states: seq<int>): seq<string>
  {
    if |states| == LedCount then seq(LedCount, i requires 0 <= i < LedCount => StateCommand(LedId(i), states[i]))
    else []
  }

  /** The commands `set_all_pin_states(states, pin_type)` sends. */
  function PinStateBatch(states: seq<int>, pinType: string): seq<string>
  {
    if BatchFits(|states|, pinType) then
      seq(|states|, i requires 0 <= i < |states| => StateCommand(PinId(FirstPin(pinType) + i, pinType), states[i]))
    else []
  }

  /** The commands `set_all_pin_direction(direction, pin_type)` sends. */
  function PinDirectionBatch(directions: seq<string>, pinType: string): seq<string>
  {
    if BatchFits(|directions|, pinType) then
      seq(|directions|, i requires 0 <= i < |directions| =>
        DirectionCommand(PinId(FirstPin(pinType) + i, pinType), directions[i]))
    else []
  }

  /** Nine states set the nine LEDs in order, the i-th state going to `LED<i>`;
      any other number of states sends nothing. */
  lemma LedBatchDecodes(states: seq<int>)
    ensures |LedBatch(states)| == if |states| == LedCount then LedCount else 0
    ensures forall i :: 0 <= i < |LedBatch(states)| ==>
              DecodeStateCommand(LedBatch(states)[i]) == Some((LedId(i), states[i]))
  {
    var cmds := LedBatch(states);
    forall i | 0 <= i < |cmds|
      ensures DecodeStateCommand(cmds[i]) == Some((LedId(i), states[i]))
    {
      assert cmds[i] == StateCommand(LedId(i), states[i]);
      IntStringAvoids(i, ',');
      assert ',' !in LedId(i) by {
        assert LedId(i) == "LED" + IntToString(i);
      }
      StateCommandRoundTrip(LedId(i), states[i]);
    }
  }

  /** A fitting batch of states sets consecutive pins of the given type from
      `FirstPin` on, value i going to pin `FirstPin + i`; any other batch sends nothing. */
  lemma PinStateBatchDecodes(states: seq<int>, pinType: string)
    ensures |PinStateBatch(states, pinType)| == if BatchFits(|states|, pinType) then |states| else 0
    ensures forall i :: 0 <= i < |PinStateBatch(states, pinType)| ==>
              DecodeStateCommand(PinStateBatch(states, pinType)[i])
                == Some((PinId(FirstPin(pinType) + i, pinType), states[i]))
  {
    var cmds := PinStateBatch(states, pinType);
    forall i | 0 <= i < |cmds|
      ensures DecodeStateCommand(cmds[i]) == Some((PinId(FirstPin(pinType) + i, pinType), states[i]))
    {
      var id := PinId(FirstPin(pinType) + i, pinType);
      assert cmds[i] == StateCommand(id, states[i]);
      CommaFreePinId(FirstPin(pinType) + i, pinType);
      StateCommandRoundTrip(id, states[i]);
    }
  }

  /** A fitting batch of directions sets consecutive pins of the given type from
      `FirstPin` on, direction i going to pin `FirstPin + i`; any other batch sends nothing. */
  lemma PinDirectionBatchDecodes(directions: seq<string>, pinType: string)
    requires forall i :: 0 <= i < |directions| ==> ',' !in directions[i]
    ensures |PinDirectionBatch(directions, pinType)| == if BatchFits(|directions|, pinType) then |directions| else 0
    ensures forall i :: 0 <= i < |PinDirectionBatch(directions, pinType)| ==>
              DecodeDirectionCommand(PinDirectionBatch(directions, pinType)[i])
                == Some((PinId(FirstPin(pinType) + i, pinType), directions[i]))
  {
    var cmds := PinDirectionBatch(directions, pinType);
    forall i | 0 <= i < |cmds|
      ensures DecodeDirectionCommand(cmds[i]) == Some((PinId(FirstPin(pinType) + i, pinType), directions[i]))
    {
      var id := PinId(FirstPin(pinType) + i, pinType);
      assert cmds[i] == DirectionCommand(id, directions[i]);
      CommaFreePinId(FirstPin(pinType) + i, pinType);
      DirectionCommandRoundTrip(id, directions[i]);
    }
  }

  // ---------------------------------------------------------------------------
  // The wrapper class

  class DIOController {
    const rp: Link

    constructor (rp: Link)
      ensures this.rp == rp
      ensures rp.sent == old(rp.sent) && rp.received == old(rp.received)
    {
      this.rp := rp;
    }

    // Higher level API

    method SetLed(num: int, state: int)
      modifies rp
      ensures rp.sent == old(rp.sent) + [StateCommand(LedId(num), state)] && rp.received == old(rp.received)
    {
      var identifier := LedId(num);
      SetState(identifier, state);
    }

    /** `get_led` passes an undefined name to `get_state`: it raises `NameError`
        before anything is sent. */
    method GetLed(num: int) returns (r: Result<Answer<int>>)
      ensures r == Err(NameError)
    {
      r := Err(NameError);
    }

    /** Nine states: one command per LED, `LED0` to `LED8` in order; any other
        number of states: nothing. */
    method SetAllLed(states: seq<int>)
      modifies rp
      ensures rp.sent == old(rp.sent) + LedBatch(states) && rp.received == old(rp.received)
    {
      if |states| != LedCount {
        return;
      }
      ghost var start := rp.sent;
      for i := 0 to LedCount
        invariant rp.sent == start + LedBatch(states)[..i]
        invariant rp.received == old(rp.received)
      {
        SetLed(i, states[i]);
        assert LedBatch(states)[..i + 1] == LedBatch(states)[..i] + [StateCommand(LedId(i), states[i])];
      }
      assert LedBatch(states)[..LedCount] == LedBatch(states);
    }

    method SetPinDirection(num: int, direction: string, pinType: string)
      modifies rp
      ensures rp.sent == old(rp.sent) + [DirectionCommand(PinId(num, pinType), direction)]
      ensures rp.received == old(rp.received)
    {
      var identifier := PinId(num, pinType);
      SetDirection(identifier, direction);
    }

    method GetPinDirection(num: int, pinType: string) returns (a: Answer<string>)
      modifies rp
      ensures rp.sent == old(rp.sent) + ["DIG:PIN:DIR? " + PinId(num, pinType)]
      ensures rp.received == old(rp.received) + 1 && a == rp.replies.Parsed(old(rp.received))
    {
      var identifier := PinId(num, pinType);
      a := GetDirection(identifier);
    }

    /** The length check sits inside the loop: every round re-checks it, so a batch
        that does not fit sends nothing at all. */
    method SetAllPinDirection(directions: seq<string>, pinType: string)
      modifies rp
      ensures rp.sent == old(rp.sent) + PinDirectionBatch(directions, pinType) && rp.received == old(rp.received)
    {
      ghost var start := rp.sent;
      ghost var batch := PinDirectionBatch(directions, pinType);
      if pinType == "P" {
        for i := 0 to 7
          invariant rp.sent == start + (if |directions| == 7 then batch[..i] else [])
          invariant rp.received == old(rp.received)
        {
          if |directions| == 7 {
            SetPinDirection(i + 1, directions[i], "P");
            assert batch[..i + 1] == batch[..i] + [DirectionCommand(PinId(i + 1, "P"), directions[i])];
          }
        }
        assert |directions| == 7 ==> batch[..7] == batch;
      } else if pinType == "N" {
        for i := 0 to 8
          invariant rp.sent == start + (if |directions| == 8 then batch[..i] else [])
          invariant rp.received == old(rp.received)
        {
          if |directions| == 8 {
            SetPinDirection(i, directions[i], "N");
            assert batch[..i + 1] == batch[..i] + [DirectionCommand(PinId(i, "N"), directions[i])];
          }
        }
        assert |directions| == 8 ==> batch[..8] == batch;
      }
    }

    method SetPinState(num: int, state: int, pinType: string)
      modifies rp
      ensures rp.sent == old(rp.sent) + [StateCommand(PinId(num, pinType), state)] && rp.received == old(rp.received)
    {
      var identifier := PinId(num, pinType);
      SetState(identifier, state);
    }

    method GetPinState(num: int, pinType: string) returns (r: Result<Answer<int>>)
      modifies rp
      ensures rp.sent == old(rp.sent) + ["DIG:PIN? " + PinId(num, pinType)]
      ensures rp.received == old(rp.received) + 1 && r == IntAnswer(rp.replies.Parsed(old(rp.received)))
    {
      var identifier := PinId(num, pinType);
      r := GetState(identifier);
    }

    /** Seven states for `P` pins (pins 1 to 7) or eight for `N` pins (0 to 7), one
        command per pin in order; anything else sends nothing. */
    method SetAllPinStates(states: seq<int>, pinType: string)
      modifies rp
      ensures rp.sent == old(rp.sent) + PinStateBatch(states, pinType) && rp.received == old(rp.received)
    {
      ghost var start := rp.sent;
      ghost var batch := PinStateBatch(states, pinType);
      if pinType == "P" {
        if |states| == 7 {
          for i := 0 to 7
            invariant rp.sent == start + batch[..i]
            invariant rp.received == old(rp.received)
          {
            SetPinState(i + 1, states[i], "P");
            assert batch[..i + 1] == batch[..i] + [StateCommand(PinId(i + 1, "P"), states[i])];
          }
          assert batch[..7] == batch;
        }
      } else if pinType == "N" {
        if |states| == 8 {
          for i := 0 to 8
            invariant rp.sent == start + batch[..i]
            invariant rp.received == old(rp.received)
          {
            SetPinState(i, states[i], "N");
            assert batch[..i + 1] == batch[..i] + [StateCommand(PinId(i, "N"), states[i])];
          }
          assert batch[..8] == batch;
        }
      }
    }

    // Lower level API

    method Reset()
      modifies rp
      ensures rp.sent == old(rp.sent) + ["DIG:RST"] && rp.received == old(rp.received)
    {
      rp.Tx("DIG:RST");
    }

    method SetDirection(identifier: string, direction: string)
      modifies rp
      ensures rp.sent == old(rp.sent) + [DirectionCommand(identifier, direction)] && rp.received == old(rp.received)
    {
      rp.Tx("DIG:PIN:DIR " + direction + "," + identifier);
    }

    method GetDirection(identifier: string) returns (a: Answer<string>)
      modifies rp
      ensures rp.sent == old(rp.sent) + ["DIG:PIN:DIR? " + identifier]
      ensures rp.received == old(rp.received) + 1 && a == rp.replies.Parsed(old(rp.received))
    {
      a := rp.Query("DIG:PIN:DIR? " + identifier);
    }

    method SetState(identifier: string, state: int)
      modifies rp
      ensures rp.sent == old(rp.sent) + [StateCommand(identifier, state)] && rp.received == old(rp.received)
    {
      rp.Tx("DIG:PIN " + identifier + "," + IntToString(state));
    }

    /** `int()` of the reply: `ValueError` when it is not an integer. */
    method GetState(identifier: string) returns (r: Result<Answer<int>>)
      modifies rp
      ensures rp.sent == old(rp.sent) + ["DIG:PIN? " + identifier]
      ensures rp.received == old(rp.received) + 1 && r == IntAnswer(rp.replies.Parsed(old(rp.received)))
    {
      r := rp.QueryInt("DIG:PIN? " + identifier);
    }
  }
}

/** The already-connected transport object `rp` that every wrapper receives, and the
    reply decoding the wrappers share. The socket itself is not part of this model:
    a `Link` records what was transmitted and hands out replies from a fixed stream. */
module Transport {
  import opened Text

  /** The `(err_flag, val)` pair the wrappers return for a query. */
  datatype Answer<T> = Answer(errFlag: bool, value: T)

  /** The Python exceptions the wrappers can raise (and let propagate). */
  datatype Error =
    | ValueError          // int() of a reply that is not an integer, np.linspace of a negative count
    | ZeroDivisionError   // division by a zero buffer size
    | NameError           // reference to an undefined variable
    | TypeError           // str + int concatenation

  datatype Result<T> = Ok(value: T) | Err(error: Error)

  /** One reply of the instrument: its raw text, and the `(err_flag, val)` pair
      `utils.rm_err` makes of that text (that helper is not part of this model, so
      the pair is left arbitrary). */
  datatype Reply = Reply(text: string, decoded: Answer<string>)

  /** What the instrument will answer, reply by reply. */
  datatype Replies = Replies(reply: nat -> Reply)
  {
    /** `rx_txt()` returning the k-th reply. */
    function Raw(k: nat): string { reply(k).text }

    /** `utils.rm_err(rx_txt())` for the k-th reply. */
    function Parsed(k: nat): Answer<string> { reply(k).decoded }
  }

  /** `err_flag, int(val)`: the integer reading of a decoded reply; `int()` raises
      `ValueError` when the text is not an integer. */
  function IntAnswer(a: Answer<string>): (r: Result<Answer<int>>)
    ensures r.Ok? <==> ParseInt(a.value).Some?
    ensures r.Ok? ==> r.value.errFlag == a.errFlag && Some(r.value.value) == ParseInt(a.value)
    ensures r.Err? ==> r.error == ValueError
  {
    match ParseInt(a.value)
    case Some(n) => Ok(Answer(a.errFlag, n))
    case None => Err(ValueError)
  }

  /** An integer the instrument sends back in decimal is read back as that integer. */
  lemma IntAnswerOfString(flag: bool, n: int)
    ensures IntAnswer(Answer(flag, IntToString(n))) == Ok(Answer(flag, n))
  {
    ParseIntOfString(n);
  }

  /** The header of a command line: everything before the first space. */
  function Header(cmd: string): string
  {
    cmd[..IndexOf(cmd, ' ')]
  }

  /** The comma-separated arguments after the header (none when there is no space). */
  function Arguments(cmd: string): seq<string>
  {
    var i := IndexOf(cmd, ' ');
    if i == |cmd| then [] else Split(cmd[i + 1..], ',')
  }

  /** A command written as header, one space and comma-joined arguments is read back
      as that header and those arguments. */
  lemma CommandAnatomy(head: string, args: seq<string>)
    requires ' ' !in head
    requires |args| > 0
    requires forall k :: 0 <= k < |args| ==> ',' !in args[k]
    ensures Header(head + " " + Join(args, ',')) == head
    ensures Arguments(head + " " + Join(args, ',')) == args
  {
    var cmd := head + " " + Join(args, ',');
    assert cmd == head + [' '] + Join(args, ',');
    IndexOfAfter(head, Join(args, ','), ' ');
    assert cmd[|head| + 1..] == Join(args, ',');
    SplitJoin(args, ',');
  }

  /** A command with one integer argument carries exactly that integer. */
  lemma IntCommandAnatomy(head: string, n: int)
    requires ' ' !in head
    ensures Header(head + " " + IntToString(n)) == head
    ensures Arguments(head + " " + IntToString(n)) == [IntToString(n)]
    ensures ParseInt(Arguments(head + " " + IntToString(n))[0]) == Some(n)
  {
    var s := IntToString(n);
    assert ',' !in s;
    assert Join([s], ',') == s;
    CommandAnatomy(head, [s]);
    ParseIntOfString(n);
  }

  /** The transport: `tx_txt` appends to the log of transmitted commands, `rx_txt`
      returns the next reply of the stream. */
  class Link {
    ghost var sent: seq<string>
    var received: nat
    const replies: Replies

    constructor (replies: Replies)
      ensures sent == [] && received == 0 && this.replies == replies
    {
      sent := [];
      received := 0;
      this.replies := replies;
    }

    /** `rp.tx_txt(cmd)`. */
    method Tx(cmd: string)
      modifies this
      ensures sent == old(sent) + [cmd] && received == old(received)
    {
      sent := sent + [cmd];
    }

    /** `rp.rx_txt()`. */
    method Rx() returns (reply: Reply)
      modifies this
      ensures reply == replies.reply(old(received))
      ensures sent == old(sent) && received == old(received) + 1
    {
      reply := replies.reply(received);
      received := received + 1;
    }

    /** `tx_txt(cmd)` followed by `utils.rm_err(rx_txt())`. */
    method Query(cmd: string) returns (a: Answer<string>)
      modifies this
      ensures a == replies.Parsed(old(received))
      ensures sent == old(sent) + [cmd] && received == old(received) + 1
    {
      Tx(cmd);
      var reply := Rx();
      a := reply.decoded;
    }

    /** `tx_txt(cmd)`, `utils.rm_err(rx_txt())`, then `int()` of the value. */
    method QueryInt(cmd: string) returns (r: Result<Answer<int>>)
      modifies this
      ensures r == IntAnswer(replies.Parsed(old(received)))
      ensures sent == old(sent) + [cmd] && received == old(received) + 1
    {
      var a := Query(cmd);
      r := IntAnswer(a);
    }
  }
}

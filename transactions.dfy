/**
 * What one `Sigfox` operation puts on the serial line: the command
 * text and the read timeout, with the serial port itself abstracted away.
 * The dictionary is the command table `map<string, string>` the session
 * holds (key `ID`, `PAC`, `Version` or `Send` to an AT command prefix).
 */
module Transactions {
  import opened Ascii
  import opened Payload

  /** Read timeout, in seconds, of the three queries. */
  const QueryTimeout: nat := 5
  /** Read timeout, in seconds, of Send and Custom. */
  const SendTimeout: nat := 10

  /** The line terminator appended to every command. */
  const Terminator: string := "\r"

  /** One serial round trip: the text written and the timeout the port is opened with. */
  datatype Transaction = Transaction(bytes: string, timeout: nat)

  /** The five operations that talk to the device. */
  datatype Request = GetDeviceId | GetPac | GetLibraryVersion | SendMessage | CustomCommand
  {
    /** The operations that only look up a dictionary command and send it. */
    predicate IsQuery() {
      this == GetDeviceId || this == GetPac || this == GetLibraryVersion
    }
  }

  /** The dictionary key each table-driven operation looks up. */
  function CommandKey(req: Request): string
    requires req != CustomCommand
  {
    match req
    case GetDeviceId => "ID"
    case GetPac => "PAC"
    case GetLibraryVersion => "Version"
    case SendMessage => "Send"
  }

  /** Why nothing was sent. */
  datatype Failure =
    | MissingCommand(key: string)   // the dictionary lookup raised KeyError
    | InvalidPayload                // the payload prompt rejected the input

  datatype Result<+T> = Ok(value: T) | Fail(failure: Failure)

  /**
   * The transaction an operation performs with the command table `commands`
   * and the operator's text `input` (the payload for Send, the command for
   * Custom; ignored by the queries).
   */
  function Frame(req: Request, commands: map<string, string>, input: string): (r: Result<Transaction>)
    // a query sends the ASCII-filtered dictionary entry and one terminator, with the short timeout
    ensures req.IsQuery() ==>
      (CommandKey(req) in commands <==> r.Ok?) &&
      (r.Ok? ==> r.value == Transaction(AsciiFilter(commands[CommandKey(req)]) + "\r", QueryTimeout)) &&
      (r.Fail? ==> r.failure == MissingCommand(CommandKey(req)))
    // Send: lookup first, then payload validation, then prefix + payload + terminator
    ensures req == SendMessage ==>
      ("Send" !in commands ==> r == Fail(MissingCommand("Send"))) &&
      ("Send" in commands && !ValidPayload(input) ==> r == Fail(InvalidPayload)) &&
      ("Send" in commands && ValidPayload(input) ==>
         r == Ok(Transaction(AsciiFilter(commands["Send"]) + input + "\r", SendTimeout)))
    // Custom: the operator's text verbatim and one terminator; no lookup, no filter
    ensures req == CustomCommand ==> r == Ok(Transaction(input + "\r", SendTimeout))
  {
    match req
    case CustomCommand =>
      Ok(Transaction(input + Terminator, SendTimeout))
    case SendMessage =>
      if "Send" !in commands then Fail(MissingCommand("Send"))
      else
        var prefix := AsciiFilter(commands["Send"]);
        if MatchesSendPattern(input) then Ok(Transaction(prefix + input + Terminator, SendTimeout))
        else Fail(InvalidPayload)
    case _ =>
      var key := CommandKey(req);
      if key !in commands then Fail(MissingCommand(key))
      else Ok(Transaction(AsciiFilter(commands[key]) + Terminator, QueryTimeout))
  }

  /** Whether a command line is a body followed by exactly one terminator and none before it. */
  predicate SingleTerminator(line: string) {
    |line| > 0 && line[|line| - 1] == '\r' && forall i :: 0 <= i < |line| - 1 ==> line[i] != '\r'
  }

  predicate NoCarriageReturn(s: string) {
    forall i :: 0 <= i < |s| ==> s[i] != '\r'
  }

  lemma {:induction false} FilterKeepsNoCarriageReturn(s: string)
    requires NoCarriageReturn(s)
    ensures NoCarriageReturn(AsciiFilter(s))
  {
    if s != [] {
      FilterKeepsNoCarriageReturn(s[1..]);
    }
  }

  /**
   * Every transaction ends in exactly one terminator: when the dictionary entry
   * (and, for Custom, the operator's text) has no carriage return of its own,
   * the terminator appended is the only one on the line.
   */
  lemma SentLineHasSingleTerminator(req: Request, commands: map<string, string>, input: string)
    requires Frame(req, commands, input).Ok?
    requires req != CustomCommand ==> NoCarriageReturn(commands[CommandKey(req)])
    requires req == CustomCommand ==> NoCarriageReturn(input)
    ensures SingleTerminator(Frame(req, commands, input).value.bytes)
  {
    var line := Frame(req, commands, input).value.bytes;
    if req != CustomCommand {
      FilterKeepsNoCarriageReturn(commands[CommandKey(req)]);
      var prefix := AsciiFilter(commands[CommandKey(req)]);
      if req == SendMessage {
        assert line == prefix + input + "\r";
        assert forall i :: |prefix| <= i < |prefix| + |input| ==> line[i] == input[i - |prefix|];
      } else {
        assert line == prefix + "\r";
      }
    }
  }

  /** Everything a table-driven operation writes is ASCII; only Custom can carry other characters. */
  lemma TableRequestsAreAscii(req: Request, commands: map<string, string>, input: string)
    requires req != CustomCommand
    requires Frame(req, commands, input).Ok?
    ensures AllAscii(Frame(req, commands, input).value.bytes)
  {
    var line := Frame(req, commands, input).value.bytes;
    var prefix := AsciiFilter(commands[CommandKey(req)]);
    if req == SendMessage {
      assert forall i :: |prefix| <= i < |prefix| + |input| ==> line[i] == input[i - |prefix|];
    }
  }

  /** Distinct accepted payloads give distinct lines: the payload can be read back from what was sent. */
  lemma SendPayloadRecoverable(commands: map<string, string>, p: string, q: string)
    requires Frame(SendMessage, commands, p).Ok? && Frame(SendMessage, commands, q).Ok?
    requires Frame(SendMessage, commands, p) == Frame(SendMessage, commands, q)
    ensures p == q
  {
    var prefix := AsciiFilter(commands["Send"]);
    var lp := prefix + p + "\r";
    var lq := prefix + q + "\r";
    assert |p| == |q|;
    forall i | 0 <= i < |p| ensures p[i] == q[i] {
      assert lp[|prefix| + i] == p[i];
      assert lq[|prefix| + i] == q[i];
    }
  }

  /** Custom ignores the dictionary; the queries ignore the operator's text. */
  lemma FrameDependencies(req: Request, c1: map<string, string>, c2: map<string, string>, s1: string, s2: string)
    ensures req == CustomCommand ==> Frame(req, c1, s1) == Frame(req, c2, s1)
    ensures req.IsQuery() ==> Frame(req, c1, s1) == Frame(req, c1, s2)
  {
  }

  /** An example: a dictionary whose `Send` is `AT$SF=`, with payload `1A2B3C`. */
  lemma SendExample(commands: map<string, string>)
    requires "Send" in commands && commands["Send"] == "AT$SF="
    ensures Frame(SendMessage, commands, "1A2B3C") == Ok(Transaction("AT$SF=1A2B3C\r", 10))
  {
    assert "AT$SF=" + "1A2B3C" + "\r" == "AT$SF=1A2B3C\r";
    assert ValidPayload("1A2B3C");
    assert AsciiFilter("AT$SF=") == "AT$SF=" by {
      assert AllAscii("AT$SF=");
      AsciiFilterIdentity("AT$SF=");
    }
  }
}

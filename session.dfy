/**
 * A session (`class Sigfox`): a device path, a baud rate, the
 * configured library name and a reference to the shared command table;
 * `handleCommand` dispatches a menu selector to one of six operations.
 */
module Session {
  import opened Wrappers
  import opened Transactions
  import opened Commands
  import opened Config

  /** The six menu operations; `Configure` opens the nested configuration menu. */
  datatype Operation = Transact(request: Request) | Configure

  /** The menu selector of each operation. */
  function Selector(op: Operation): int
  {
    match op
    case Transact(GetDeviceId) => 1
    case Transact(GetPac) => 2
    case Transact(GetLibraryVersion) => 3
    case Transact(SendMessage) => 4
    case Transact(CustomCommand) => 5
    case Configure => 6
  }

  /** `handleCommand`'s branch on the selector; `None` is the `'Error'` return. */
  function Dispatch(command: int): (r: Option<Operation>)
    ensures r.Some? <==> 1 <= command <= 6
    ensures r.Some? ==> Selector(r.value) == command
  {
    if command == 1 then Some(Transact(GetDeviceId))
    else if command == 2 then Some(Transact(GetPac))
    else if command == 3 then Some(Transact(GetLibraryVersion))
    else if command == 4 then Some(Transact(SendMessage))
    else if command == 5 then Some(Transact(CustomCommand))
    else if command == 6 then Some(Configure)
    else None
  }

  /**
   * Selectors 1 to 6 name the six operations one to one, and every other
   * selector is refused.
   */
  lemma DispatchSelector(command: int, op: Operation)
    ensures Dispatch(command) == Some(op) <==> command == Selector(op)
    ensures Dispatch(command).None? <==> !(1 <= command <= 6)
  {
  }

  /** The serial device as one transaction finds it. */
  datatype Link =
    | Closed                  // opening the port raises SerialException
    | Open(reply: string)     // the port opens and `readline` returns `reply`

  /** What `handleCommand` leads to. */
  datatype Reply =
    | Error                                    // unknown selector: `'Error'`, device untouched
    | ConfigMenu                               // selector 6: the configuration menu
    | Failed(failure: Failure)                 // nothing sent: missing command or rejected payload
    | CouldNotConnect                          // "Could not connect to device..."
    | Responded(sent: Transaction, line: string)  // written, and one line read back

  class Sigfox {
    const name: string
    const baud: int
    const library: string
    /** An alias of the shared table, not a copy. */
    const commands: CommandList

    /**
     * Builds a session for device `name`; `libraryCommands` is the `Commands`
     * object of the library file named `library`, merged into the shared `table`.
     */
    constructor (name: string, baud: int, library: string, libraryCommands: map<string, string>, table: CommandList)
      modifies table
      ensures this.name == name && this.baud == baud && this.library == library
      ensures this.commands == table
      ensures table.entries == Merge(old(table.entries), libraryCommands)
    {
      this.name := name;
      this.baud := baud;
      this.library := library;
      var shared := GetCommands(table, libraryCommands);
      this.commands := shared;
    }

    /**
     * Runs selector `command` with the operator's text `input` against the
     * device `link`. Nothing reaches the device for an unknown selector,
     * a missing command, a rejected payload or a port that does not open.
     */
    method HandleCommand(command: int, input: string, link: Link) returns (r: Reply)
      ensures r == Error <==> !(1 <= command <= 6)
      ensures r == ConfigMenu <==> command == 6
      ensures r.Failed? ==> 1 <= command <= 5 && Frame(Dispatch(command).value.request, commands.entries, input) == Fail(r.failure)
      ensures r == CouldNotConnect ==> link == Closed && 1 <= command <= 5 && Frame(Dispatch(command).value.request, commands.entries, input).Ok?
      ensures r.Responded? ==> link == Open(r.line) && 1 <= command <= 5 && Frame(Dispatch(command).value.request, commands.entries, input) == Ok(r.sent)
      ensures 1 <= command <= 5 ==> (r.Failed? || r == CouldNotConnect || r.Responded?)
      ensures link == Closed ==> !r.Responded?
    {
      var op := Dispatch(command);
      if op.None? {
        return Error;
      }
      match op.value
      case Configure =>
        r := ConfigMenu;
      case Transact(request) =>
        var framed := Frame(request, commands.entries, input);
        if framed.Fail? {
          r := Failed(framed.failure);
        } else if link.Closed? {
          r := CouldNotConnect;
        } else {
          r := Responded(framed.value, link.reply);
        }
    }

    /**
     * Configuration action "Set AT Library": the chosen library is merged into
     * the shared table this session aliases; neither the session's `library`
     * nor the configuration file changes.
     */
    method SetAtLibrary(libraryCommands: map<string, string>)
      modifies commands
      ensures commands.entries == Merge(old(commands.entries), libraryCommands)
    {
      var _ := GetCommands(commands, libraryCommands);
    }

    /** Configuration action "Set Baud Rate": the integer entered is saved under `BaudRate`. */
    method SetBaudRate(file: ConfigFile, baudRate: int)
      modifies file
      ensures file.record == old(file.record)[BaudRateKey := Number(baudRate)]
    {
      file.ModifyConfigFiles(BaudRateKey, Number(baudRate));
    }
  }
}

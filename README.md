# sigfox-cli: command framing, command table and configuration model

A Dafny model of the layer of `sigfox.py` between the interactive menus and
the serial port: which text each operation writes to a Sigfox module, with
which read timeout, and how the in-memory command table and the persisted
configuration record change.

- `Ascii` (`ascii.dfy`): the `encode('ascii', 'ignore')` filter applied to every
  dictionary command.
- `Payload` (`payload.dfy`): the Send payload pattern `^[0-9A-F]{1,24}$`, as a
  bounded-repetition matcher and as a declarative predicate, proved equal.
- `Transactions` (`transactions.dfy`): `Frame`, the transaction (text written,
  timeout) of Get ID, Get PAC, Get Library Version, Send Message and Custom
  Command, with the missing-command and rejected-payload outcomes.
- `Commands` (`commands.dfy`): the module-global `commandList` as a class with a
  map field, and `getCommands` as a loop that merges a library into it in place.
  The loop takes the library's keys in no fixed order, as iterating a dictionary
  does; since the keys are distinct, the final table does not depend on that order.
- `Config` (`config.dfy`): the configuration file as a class whose
  `ModifyConfigFiles` sets one key of the record and writes it all back.
- `Ports` (`ports.dfy`): `serialPorts` as a filtering loop over a candidate list,
  with an abstract "opens" predicate; the Windows candidates `COM1`..`COM256`.
- `Session` (`session.dfy`): the `Sigfox` class, which holds an alias of the
  shared command table, its `handleCommand` dispatch, and the two configuration
  actions that change state ("Set Baud Rate" and "Set AT Library").

The serial line is a parameter: `Link` is either `Closed` (opening the port
fails, and the operator sees "Could not connect to device...") or
`Open(reply)` (the line `readline` returns). Library files and the
configuration file are maps handed in and out.

Three behaviours of the code that are probably unintended are kept as written:

- Switching library merges the new library into the shared table. It does
  not replace the table. The choice is also not written to the configuration
  file, and the main menu rebuilds the session from the configured library
  (`Commands.RebuildRestoresConfiguredLibrary`).
- "Set Baud Rate" stores any integer. The code's validator only converts the
  input to an integer and does not check that it is positive.
- A dictionary without the requested key raises `KeyError`. The code does not
  catch it, because only `SerialException` is caught. The model reports it as
  `Failed(MissingCommand(key))`. Send looks the key up before it prompts for the
  payload (sigfox.py:116-117), so a missing `Send` wins over a bad payload.

## Model

| member | source | states |
|---|---|---|
| `Ascii.AsciiFilter` | sigfox.py:82 | the filtered command is all ASCII, no longer than the original, and made only of characters of the original |
| `Ascii.AsciiFilterAppend` | sigfox.py:93 | filtering distributes over concatenation, so kept characters stay in their original order |
| `Ascii.AsciiFilterIdentity` | sigfox.py:104 | the filter leaves a string unchanged exactly when the string is all ASCII |
| `Ascii.AsciiFilterIdempotent` | sigfox.py:104 | filtering twice equals filtering once |
| `Ascii.AsciiFilterCounts` | sigfox.py:116 | every ASCII character occurs as often after filtering as before; every other character never occurs |
| `Payload.MatchesSendPattern` | sigfox.py:115-117 | the anchored `[0-9A-F]{1,24}` matcher accepts a payload iff it has 1 to 24 characters, each a digit or an upper-case A-F |
| `Payload.RejectedPayloads` | sigfox.py:115 | the empty string, lower-case hex, a non-hex letter and 25 characters are rejected; 24 hex characters are accepted |
| `Transactions.Frame` | sigfox.py:80-131 | ID/PAC/Version send the filtered entry plus `\r` with timeout 5, or fail with the missing key. Send fails on a missing key, then on an invalid payload, else sends filtered prefix + payload + `\r` with timeout 10. Custom sends the text plus `\r` with timeout 10 |
| `Transactions.SentLineHasSingleTerminator` | sigfox.py:85 | when the entry or custom text has no carriage return, the line written ends in exactly one `\r` and has no other |
| `Transactions.TableRequestsAreAscii` | sigfox.py:116-120 | every line written by ID, PAC, Version or Send is all ASCII |
| `Transactions.SendPayloadRecoverable` | sigfox.py:120 | two accepted payloads that produce the same line are equal |
| `Transactions.FrameDependencies` | sigfox.py:82-131 | Custom does not depend on the command table; the queries do not depend on the operator's text |
| `Transactions.SendExample` | sigfox.py:116-120 | with `Send` = `AT$SF=` and payload `1A2B3C` the line is `AT$SF=1A2B3C\r` with timeout 10 |
| `Commands.CommandList.constructor` | sigfox.py:7 | the shared table starts empty |
| `Commands.Merge` | sigfox.py:17-18 | after the copy, each library key has the library's value; every other key keeps its old value; the keys are the union |
| `Commands.GetCommands` | sigfox.py:10-19 | the loop changes the shared table to the merge of its old entries with the library, and returns that same table |
| `Commands.MergeIdempotent` | sigfox.py:17-18 | loading the same library twice equals loading it once |
| `Commands.SwitchKeepsStaleCommands` | sigfox.py:156-160 | after a switch the table equals the new library iff the old table had no key outside the new library |
| `Commands.RebuildRestoresConfiguredLibrary` | sigfox.py:201-226 | switching to library b and then rebuilding the session from the configured library a leaves every key of a at a's value |
| `Config.ConfigFile.ModifyConfigFiles` | sigfox.py:174-183 | the record's `index` key holds `data`, no key is lost, and every other key keeps its value |
| `Config.GetConfig` | sigfox.py:21-27 | a configuration is read iff both `BaudRate` and `AT_Library` are present, and it is exactly those two values |
| `Config.SaveThenLoad` | sigfox.py:21-27 | after saving `BaudRate` or `AT_Library`, `getConfig` returns the saved value and the other setting unchanged |
| `Ports.OpenableMembers` | sigfox.py:40-46 | a path is kept iff it is a candidate that opens |
| `Ports.OpenableAppend` | sigfox.py:40-44 | filtering distributes over concatenation, so kept paths stay in candidate order |
| `Ports.OpenableAll` | sigfox.py:39-46 | the result is never longer than the candidates; it equals them iff every candidate opens |
| `Ports.SerialPorts` | sigfox.py:39-50 | corrected scan: no devices iff no candidate opens; otherwise the openable candidates in order, non-empty |
| `Ports.EarlyExitScan` | sigfox.py:39-50 | the as-written outcome: no devices only when the first candidate does not open; any list it returns holds only candidates that open |
| `Ports.SerialPortsAsWritten` | sigfox.py:39-50 | the loop equals `EarlyExitScan`, the scan as indented: an empty candidate list yields an empty list; a first candidate that does not open yields no devices; otherwise the openable candidates |
| `Ports.EarlyExitMissesLaterPorts` | sigfox.py:47-49 | with `COM1` absent and `COM3` present the as-written scan reports no devices although `COM3` opens |
| `Ports.EarlyExitAgreesWhenFirstOpens` | sigfox.py:40-49 | when the first candidate opens, the as-written scan returns every openable candidate |
| `Ports.WindowsCandidates` | sigfox.py:31 | there are 256 Windows candidates, each `COM` followed by at least one more character |
| `Ports.DecimalRoundTrip` | sigfox.py:31 | the decimal text of a port number reads back as that number |
| `Ports.WindowsCandidatesDistinct` | sigfox.py:31 | there are 256 Windows candidates, `COM1` to `COM256`, all different |
| `Session.DispatchSelector` | sigfox.py:62-76 | selectors 1..6 map one to one onto the six operations; every other selector is refused |
| `Session.Dispatch` | sigfox.py:62-76 | a selector is accepted iff it is between 1 and 6, and the operation chosen has that selector |
| `Session.Sigfox.constructor` | sigfox.py:56-60 | the session keeps name, baud rate and library; its commands are the shared table itself, with the library merged in |
| `Session.Sigfox.HandleCommand` | sigfox.py:62-135 | `Error` iff the selector is outside 1..6; 6 opens the configuration menu; 1..5 fail with the framing failure, or report no connection on a closed port, or write exactly the framed transaction; a closed port never receives anything |
| `Session.Sigfox.SetAtLibrary` | sigfox.py:156-160 | the chosen library is merged into the table the session aliases; the session's library name and the configuration file are untouched |
| `Session.Sigfox.SetBaudRate` | sigfox.py:149-151 | the configuration record gets `BaudRate` set to the integer entered and nothing else changes |

## Findings

| source | as written | input that shows it | evidently intended | confidence | as-written member | corrected member |
|---|---|---|---|---|---|---|
| sigfox.py:47-49 | the "no devices" test is indented with a tab, which Python 2 expands to column 8, the loop body's level, so it runs after every candidate and exits as soon as the first candidate fails to open; an empty candidate list returns `[]` without the message | candidates `COM1`, `COM3` where only `COM3` opens: "No devices found..." and exit; candidates empty: returns `[]` | test once after the loop: exit iff no candidate opened, else return all openable candidates | not executed; high (Python 2 tab expansion rule) | `Ports.SerialPortsAsWritten`, `Ports.EarlyExitMissesLaterPorts` | `Ports.SerialPorts` |

## Left out

- Serial I/O is out: opening, writing, `readline`, closing and printing the response. `Link` stands for the device, and the port name and baud rate the session holds are not used by the framing.
- A `SerialException` raised after the port has opened, during `write` or `readline`, is not modelled. The source prints "Could not connect to device..." then too, possibly after bytes were written. In the model, `CouldNotConnect` arises only from a port that does not open.
- The JSON files are out: reading `Config/config.json`, reading and writing the library files, and `json.dumps`. So are `__getLibraries` (directory listing) and `displayAbout`. Files are maps handed in and out.
- The clint prompts, coloured output, "Press Enter to continue..." and the "Set Login Details" action, which writes to environment variables, are out. These are user-interface and environment side effects.
- The menu control flow is out: `setupBoard`, `__config` calling itself, the "Change Device" action, `sys.exit` and exit statuses. The interactive loops do not terminate.
- `Config.GetConfig`: a missing `BaudRate` or `AT_Library` key gives `None`, where the source raises `KeyError`.
- Platform detection in `serialPorts` and the Linux/macOS `glob` candidate lists are out. The candidate list is an input; only the Windows list is modelled.
- The regular-expression engine is out. The pattern is treated as a match of the whole prompt input.
- `Session.Sigfox.HandleCommand`: the prompt repeats until the payload is valid. The model takes one input and reports `Failed(InvalidPayload)` when it is rejected. An uncaught `KeyError` is reported as `Failed(MissingCommand(key))` rather than ending the program. The operator's text is taken as the prompt returns it. For Custom that text is stripped and never empty, but the model does not enforce this, so `Frame(CustomCommand, m, "")` gives a bare `\r`.
- Python 2 byte strings and unicode strings are both modelled as sequences of characters. The custom command text is not filtered.

/**
 * The process-wide command table (`commandList`) and `getCommands`, which
 * copies a library's `Commands` object into it one entry at a time. The
 * table is one shared object: every session holds a reference to it, and
 * loading a second library merges into it instead of replacing it.
 */
module Commands {

  /** The module-global command table, updated in place. */
  class CommandList {
    var entries: map<string, string>

    /** `commandList = {}` at import time. */
    constructor ()
      ensures entries == map[]
    {
      entries := map[];
    }
  }

  /**
   * The table after `library` has been copied into `table`: each of the
   * library's keys takes the library's value, every other key keeps the one it had.
   */
  function Merge(table: map<string, string>, library: map<string, string>): (r: map<string, string>)
    ensures r.Keys == table.Keys + library.Keys
    ensures forall k :: k in library ==> r[k] == library[k]
    ensures forall k :: k in table && k !in library ==> r[k] == table[k]
  {
    table + library
  }

  /**
   * Copies every entry of `library` (the parsed `Commands` object of the
   * chosen library file) into the shared table and returns that same table.
   */
  method GetCommands(commandList: CommandList, library: map<string, string>) returns (r: CommandList)
    modifies commandList
    ensures r == commandList
    ensures commandList.entries == Merge(old(commandList.entries), library)
  {
    var pending := library.Keys;
    while pending != {}
      invariant pending <= library.Keys
      invariant commandList.entries == Merge(old(commandList.entries), library - pending)
      decreases pending
    {
      var key :| key in pending;
      ghost var before := commandList.entries;
      commandList.entries := commandList.entries[key := library[key]];
      pending := pending - {key};
      assert commandList.entries == Merge(old(commandList.entries), library - pending) by {
        assert before[key := library[key]] == Merge(old(commandList.entries), library - pending);
      }
    }
    assert library - pending == library;
    r := commandList;
  }

  /** Copying the same library twice changes nothing the first copy did not. */
  lemma MergeIdempotent(table: map<string, string>, library: map<string, string>)
    ensures Merge(Merge(table, library), library) == Merge(table, library)
  {
  }

  /**
   * Switching library merges: a command the new library does not define keeps
   * the previous library's text, so the table equals the new library only when
   * the old table had no key outside it.
   */
  lemma SwitchKeepsStaleCommands(table: map<string, string>, library: map<string, string>)
    ensures Merge(table, library) == library <==> table.Keys <= library.Keys
  {
    if Merge(table, library) == library {
      assert forall k :: k in table ==> k in Merge(table, library);
    }
  }

  /**
   * Choosing library `b` in the configuration menu and then returning to the
   * main menu, which builds a new session from the configured library `a`,
   * leaves every command `a` defines at `a`'s value; `b` only contributes
   * the keys `a` lacks.
   */
  lemma RebuildRestoresConfiguredLibrary(table: map<string, string>, a: map<string, string>, b: map<string, string>)
    ensures Merge(Merge(Merge(table, a), b), a) == Merge(Merge(table, b), a)
    ensures forall k :: k in a ==> Merge(Merge(Merge(table, a), b), a)[k] == a[k]
  {
  }
}

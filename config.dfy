/**
 * The persisted configuration record (`Config/config.json`): a JSON object
 * read whole, changed in one key, and written back whole.
 */
module Config {
  import opened Wrappers

  /** A JSON value as the record holds it: the baud rate is a number, the library a string. */
  datatype Setting = Number(n: int) | Text(s: string)

  const BaudRateKey: string := "BaudRate"
  const LibraryKey: string := "AT_Library"

  /** The configuration file; `record` is what a JSON load of it yields. */
  class ConfigFile {
    var record: map<string, Setting>

    constructor (record: map<string, Setting>)
      ensures this.record == record
    {
      this.record := record;
    }

    /**
     * Loads the record, sets `index` to `data`, and writes the whole record
     * back: `index` now holds `data`, every other key is as it was.
     */
    method ModifyConfigFiles(index: string, data: Setting)
      modifies this
      ensures index in record && record[index] == data
      ensures record.Keys == old(record).Keys + {index}
      ensures forall k :: k in old(record) && k != index ==> record[k] == old(record)[k]
    {
      var f := record;
      f := f[index := data];
      record := f;
    }
  }

  /** `getConfig`: the baud rate and library name, or nothing when either key is missing. */
  function GetConfig(record: map<string, Setting>): (r: Option<(Setting, Setting)>)
    ensures r.Some? <==> BaudRateKey in record && LibraryKey in record
    ensures r.Some? ==> r.value == (record[BaudRateKey], record[LibraryKey])
  {
    if BaudRateKey in record && LibraryKey in record then Some((record[BaudRateKey], record[LibraryKey]))
    else None
  }

  /**
   * Saving a baud rate and loading the configuration again gives that baud
   * rate back with the library unchanged; saving one setting never loses the other.
   */
  lemma SaveThenLoad(record: map<string, Setting>, index: string, data: Setting)
    requires index == BaudRateKey || index == LibraryKey
    ensures var loaded := GetConfig(record[index := data]);
      (loaded.Some? <==> (if index == BaudRateKey then LibraryKey in record else BaudRateKey in record)) &&
      (loaded.Some? ==> loaded.value == (if index == BaudRateKey then (data, record[LibraryKey]) else (record[BaudRateKey], data)))
  {
  }
}

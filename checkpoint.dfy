/** The resumable-progress ledger of src/checkpoint.ts: a JSON document of
    sections, each a map from keys to values, kept in one file named by a
    setting. Every read and every write goes back to the file. */
module Checkpoint {
  import opened Json

  /** The document: section name to its key/value map. */
  type Doc = map<string, map<string, Value>>

  /** What the checkpoint file holds: nothing, text that cannot be read or
      parsed, or a document written earlier. */
  datatype Stored = Absent | Unreadable | Saved(doc: Doc)

  /** `loadCP()`: an empty document when checkpointing is switched off (empty
      path) or when the file is missing or does not parse. */
  function Load(path: string, stored: Stored): Doc {
    if path == "" then map[]
    else match stored
      case Saved(d) => d
      case _ => map[]
  }

  /** The section as `cp[section] || {}` sees it. */
  function Section(d: Doc, section: string): map<string, Value> {
    if section in d then d[section] else map[]
  }

  /** The document `setCP` writes: the section is created when missing and the
      key set; a key set to undefined disappears, because JSON.stringify leaves
      such members out of the text. */
  function SetCell(d: Doc, section: string, key: string, v: Value): Doc {
    var sec := Section(d, section);
    d[section := if v.Undefined? then sec - {key} else sec[key := v]]
  }

  /** `getCP(section, key, def)`: `cp?.[section]?.[key] ?? def`. */
  function GetCell(d: Doc, section: string, key: string, def: Value): Value {
    var sec := Section(d, section);
    if key in sec && !Nullish(sec[key]) then sec[key] else def
  }

  /** The file after `setCP`: unchanged when checkpointing is off, otherwise the
      loaded document with the cell set, saved whole. */
  function Store(path: string, stored: Stored, section: string, key: string, v: Value): Stored {
    if path == "" then stored else Saved(SetCell(Load(path, stored), section, key, v))
  }

  /** Reading a cell back gives the value just set, or the default for
      null and undefined. */
  lemma GetAfterSet(d: Doc, section: string, key: string, v: Value, def: Value)
    ensures GetCell(SetCell(d, section, key, v), section, key, def) == (if Nullish(v) then def else v)
  {
  }

  /** Setting one cell changes no other cell, in its own section or any other. */
  lemma SetFrame(d: Doc, section: string, key: string, v: Value, section': string, key': string, def: Value)
    requires section' != section || key' != key
    ensures GetCell(SetCell(d, section, key, v), section', key', def) == GetCell(d, section', key', def)
  {
  }

  /** Setting a cell also keeps every other key of its section and every other
      section present. */
  lemma SetKeepsKeys(d: Doc, section: string, key: string, v: Value)
    ensures section in SetCell(d, section, key, v)
    ensures forall s :: s in d ==> s in SetCell(d, section, key, v)
    ensures forall k :: k in Section(d, section) && k != key ==>
              k in SetCell(d, section, key, v)[section]
              && SetCell(d, section, key, v)[section][k] == Section(d, section)[k]
  {
  }

  /** The later of two writes to a cell wins. */
  lemma SetOverwrite(d: Doc, section: string, key: string, v1: Value, v2: Value)
    ensures SetCell(SetCell(d, section, key, v1), section, key, v2) == SetCell(d, section, key, v2)
  {
    var sec := Section(d, section);
    var sec1 := Section(SetCell(d, section, key, v1), section);
    if v2.Undefined? {
      assert sec1 - {key} == sec - {key};
    } else {
      assert sec1[key := v2] == sec[key := v2];
    }
  }

  /** With checkpointing switched off nothing is remembered: every read gives
      the default, whatever was set before. */
  lemma DisabledForgets(stored: Stored, section: string, key: string, v: Value, def: Value)
    ensures Store("", stored, section, key, v) == stored
    ensures GetCell(Load("", Store("", stored, section, key, v)), section, key, def) == def
  {
  }

  /** With checkpointing on, a write is read back by the next read. */
  lemma StoreThenLoad(path: string, stored: Stored, section: string, key: string, v: Value, def: Value)
    requires path != ""
    ensures GetCell(Load(path, Store(path, stored, section, key, v)), section, key, def)
            == (if Nullish(v) then def else v)
  {
    GetAfterSet(Load(path, stored), section, key, v, def);
  }

  /** A file that does not parse is replaced by the first write: the document
      saved then holds that one cell and nothing else. */
  lemma UnreadableIsReplaced(path: string, section: string, key: string, v: Value)
    requires path != "" && !v.Undefined?
    ensures Store(path, Unreadable, section, key, v) == Saved(map[section := map[key := v]])
  {
  }

  /** The checkpoint file as the exporter sees it. */
  class Ledger {
    const path: string
    var stored: Stored

    constructor (path: string, stored: Stored)
      ensures this.path == path && this.stored == stored
    {
      this.path := path;
      this.stored := stored;
    }

    /** `getCP(section, key, def)`. */
    function GetCP(section: string, key: string, def: Value): Value
      reads this
    {
      GetCell(Load(path, stored), section, key, def)
    }

    /** `setCP(section, key, value)`: load, set, save. */
    method SetCP(section: string, key: string, v: Value)
      modifies this
      ensures stored == Store(path, old(stored), section, key, v)
    {
      if path != "" {
        var cp := Load(path, stored);
        stored := Saved(SetCell(cp, section, key, v));
      }
    }
  }
}

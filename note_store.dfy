/**
 * The room-note store of assets/assign-to-rooms.js: one local-storage entry
 * per scope holding a JSON object from item key to note, with
 * delete-on-empty writes and a scope copy triggered from the saved-cart list.
 */
module NoteStore {
  import opened Text
  import opened RoomKeys

  /** A local-storage entry as `JSON.parse` sees it. */
  datatype Slot = Unparseable | Entries(notes: map<string, string>)

  /** `safeJsonParse(getItem(k) || "{}", {})`: a missing or unparseable entry reads as `{}`. */
  function ParseSlot(storage: map<string, Slot>, k: string): (m: map<string, string>)
    ensures k in storage && storage[k].Entries? ==> m == storage[k].notes
    ensures (k !in storage || storage[k].Unparseable?) ==> m == map[]
  {
    if k in storage && storage[k].Entries? then storage[k].notes else map[]
  }

  /** Writing a map under one key changes what that key reads as and nothing else. */
  lemma {:induction false} ParseSlotStore(storage: map<string, Slot>, k: string, m: map<string, string>, k2: string)
    ensures ParseSlot(storage[k := Entries(m)], k2) == if k2 == k then m else ParseSlot(storage, k2)
  {
  }

  /** `map[itemKey] || ""`. */
  function NoteIn(notes: map<string, string>, key: string): string
  {
    if key in notes then notes[key] else ""
  }

  /** The map `setNote` writes back: an empty value deletes the key, any other value upserts it. */
  function WithNote(notes: map<string, string>, key: string, value: string): (r: map<string, string>)
    ensures value == "" ==> key !in r
    ensures value != "" ==> key in r && r[key] == value
    ensures NoteIn(r, key) == value
    ensures forall k | k != key :: (k in r <==> k in notes) && NoteIn(r, k) == NoteIn(notes, k)
  {
    if value == "" then notes - {key} else notes[key := value]
  }

  /** No key is stored with an empty note. */
  predicate NoEmptyNotes(notes: map<string, string>) {
    forall k | k in notes :: notes[k] != ""
  }

  /** Writes never store an empty note, so a store that had none keeps having none. */
  lemma {:induction false} WithNoteKeepsNoEmpty(notes: map<string, string>, key: string, value: string)
    requires NoEmptyNotes(notes)
    ensures NoEmptyNotes(WithNote(notes, key, value))
  {
    var r := WithNote(notes, key, value);
    forall k | k in r ensures r[k] != "" {
      if k != key {
        assert k in notes && NoteIn(r, k) == NoteIn(notes, k);
      }
    }
  }

  /** Writing back what is already there (or clearing what is absent) changes nothing. */
  lemma {:induction false} WithNoteOfCurrent(notes: map<string, string>, key: string)
    requires NoEmptyNotes(notes)
    ensures WithNote(notes, key, NoteIn(notes, key)) == notes
  {
  }

  /** The button text (trimmed, lower-cased) that starts a scope copy. */
  predicate IsCopyButton(buttonText: string) {
    var t := Lower(Trim(buttonText));
    t == "view cart" || t == "load cart"
  }

  /** The browser's local storage, as far as the room notes are concerned. */
  class NoteStore {
    /** Every local-storage entry, by storage key. */
    var storage: map<string, Slot>

    constructor (initial: map<string, Slot>)
      ensures storage == initial
    {
      storage := initial;
    }

    /** `loadMap` for `scope`. */
    function LoadMap(scope: string): map<string, string>
      reads this
    {
      ParseSlot(storage, StoreKey(scope))
    }

    /** `getNote`: the note stored under `key`, or `""` when absent or when the entry is unparseable. */
    function GetNote(scope: string, key: string): (note: string)
      reads this
      ensures key !in LoadMap(scope) ==> note == ""
      ensures key in LoadMap(scope) ==> note == LoadMap(scope)[key]
    {
      NoteIn(LoadMap(scope), key)
    }

    /** `setNote`: load the scope's map, delete or upsert `key`, save the whole map back. */
    method SetNote(scope: string, key: string, value: string)
      modifies this
      ensures storage == old(storage)[StoreKey(scope) := Entries(WithNote(old(LoadMap(scope)), key, value))]
      ensures GetNote(scope, key) == value
      ensures forall k | k != key :: GetNote(scope, k) == old(GetNote(scope, k))
      ensures forall s | s != scope :: LoadMap(s) == old(LoadMap(s))
    {
      var m := LoadMap(scope);
      m := WithNote(m, key, value);
      storage := storage[StoreKey(scope) := Entries(m)];
      ParseSlotStore(old(storage), StoreKey(scope), m, StoreKey(scope));
      forall s | s != scope ensures LoadMap(s) == old(LoadMap(s)) {
        ParseSlotStore(old(storage), StoreKey(scope), m, StoreKey(s));
        if StoreKey(s) == StoreKey(scope) { StoreKeyInjective(s, scope); }
      }
    }

    /**
     * The click handler of the saved-cart list page: on a "view cart" or
     * "load cart" button whose destination and source cart ids are both
     * known, the destination scope's map becomes a copy of the source's.
     */
    method CopyOnClick(buttonText: string, destCartId: string, srcCartId: string)
      modifies this
      ensures IsCopyButton(buttonText) && destCartId != "" && srcCartId != "" ==>
        storage == old(storage)[StoreKey(destCartId) := Entries(old(LoadMap(srcCartId)))]
      ensures IsCopyButton(buttonText) && destCartId != "" && srcCartId != "" ==>
        LoadMap(destCartId) == old(LoadMap(srcCartId))
      ensures !(IsCopyButton(buttonText) && destCartId != "" && srcCartId != "") ==>
        storage == old(storage)
      ensures forall s | s != destCartId :: LoadMap(s) == old(LoadMap(s))
    {
      if !IsCopyButton(buttonText) { return; }
      if destCartId == "" { return; }
      if srcCartId == "" { return; }
      var srcMap := LoadMap(srcCartId);
      storage := storage[StoreKey(destCartId) := Entries(srcMap)];
      ParseSlotStore(old(storage), StoreKey(destCartId), srcMap, StoreKey(destCartId));
      forall s | s != destCartId ensures LoadMap(s) == old(LoadMap(s)) {
        ParseSlotStore(old(storage), StoreKey(destCartId), srcMap, StoreKey(s));
        if StoreKey(s) == StoreKey(destCartId) { StoreKeyInjective(s, destCartId); }
      }
    }
  }
}

/** SaveGameManager: a registry of saveable objects keyed by their save id,
    and the record selection of Save and Load.  Serialisation, the clock and
    the file system are parameters: what CaptureState returns, the time
    stamp, whether the write succeeds, what the slot file holds and which
    type names resolve. */
module SaveSystem {
  import opened Wrappers

  /** An ISaveable; its SaveId may be null. */
  class Saveable {
    const SaveId: Option<string>

    constructor (saveId: Option<string>)
      ensures SaveId == saveId
    {
      SaveId := saveId;
    }
  }

  predicate IsNullOrEmpty(s: Option<string>)
  {
    s.None? || s.value == ""
  }

  /** char.IsWhiteSpace: the Unicode space separators, the line and
      paragraph separators, and the controls U+0009..U+000D and U+0085. */
  predicate IsWhiteSpaceChar(c: char)
  {
    ('\U{0009}' <= c <= '\U{000D}') || c == ' ' || c == '\U{0085}' || c == '\U{00A0}' || c == '\U{1680}' ||
    ('\U{2000}' <= c <= '\U{200A}') || c == '\U{2028}' || c == '\U{2029}' || c == '\U{202F}' ||
    c == '\U{205F}' || c == '\U{3000}'
  }

  function AllWhiteSpace(s: string): (r: bool)
    ensures r <==> forall i :: 0 <= i < |s| ==> IsWhiteSpaceChar(s[i])
  {
    if s == [] then true
    else IsWhiteSpaceChar(s[0]) && AllWhiteSpace(s[1..])
  }

  /** string.IsNullOrWhiteSpace: null, empty, or white space only. */
  function IsNullOrWhiteSpace(s: Option<string>): (r: bool)
    ensures r <==> s.None? || forall i :: 0 <= i < |s.value| ==> IsWhiteSpaceChar(s.value[i])
  {
    s.None? || AllWhiteSpace(s.value)
  }

  /** What one CaptureState call gives: a state (its type name and JSON
      form), null, or an exception (caught and logged). */
  datatype Capture = Captured(stateType: string, json: string) | NullState | Threw

  datatype StateRecord = StateRecord(id: string, stateType: string, json: string)

  datatype SaveSlotData = SaveSlotData(slotName: string, savedAtUtc: string, states: seq<StateRecord>)

  /** What reading the slot file gives: no file, an exception while reading
      or parsing, or the parsed data with its (possibly null) record list. */
  datatype SlotFile = NoFile | Unreadable | Parsed(states: Option<seq<StateRecord>>)

  /** What Load's per-record calls give for a record whose id is registered:
      Type.GetType finds no type (the record is skipped), Type.GetType or
      JsonUtility.FromJson throws (the whole Load is abandoned), or the state
      is decoded and handed to RestoreState. */
  datatype RecordDecode = UnknownType | Malformed | Decoded

  /** One RestoreState call: the saveable and the record it gets. */
  datatype Restore = Restore(target: Saveable, record: StateRecord)

  /** Register: ignored for null and for a null or empty id; otherwise the id
      is mapped to this object, replacing any earlier one. */
  function Registered(m: map<string, Saveable>, s: Saveable?): map<string, Saveable>
  {
    if s == null || IsNullOrEmpty(s.SaveId) then m else m[s.SaveId.value := s]
  }

  /** Unregister: the entry goes only when it is this very object. */
  function Unregistered(m: map<string, Saveable>, s: Saveable?): map<string, Saveable>
  {
    if s == null || IsNullOrEmpty(s.SaveId) then m
    else if s.SaveId.value in m && m[s.SaveId.value] == s then m - {s.SaveId.value}
    else m
  }

  /** The records a Save emits for the ids in `ids`: one per saveable whose
      capture gave a state. */
  function SelectedFrom(m: map<string, Saveable>, capture: Saveable -> Capture, ids: set<string>): set<StateRecord>
  {
    set id | id in ids && id in m && capture(m[id]).Captured? ::
      StateRecord(id, capture(m[id]).stateType, capture(m[id]).json)
  }

  lemma SelectedFromAdd(m: map<string, Saveable>, capture: Saveable -> Capture, ids: set<string>, key: string)
    requires key in m
    ensures SelectedFrom(m, capture, ids + {key}) ==
            SelectedFrom(m, capture, ids) +
            (if capture(m[key]).Captured? then {StateRecord(key, capture(m[key]).stateType, capture(m[key]).json)} else {})
  {
  }

  predicate DistinctIds(records: seq<StateRecord>)
  {
    forall i, j :: 0 <= i < j < |records| ==> records[i].id != records[j].id
  }

  /** The RestoreState calls of Load over `records`, in record order: a
      record is applied when its id is registered and it decodes. */
  function RestorePlan(records: seq<StateRecord>, m: map<string, Saveable>, decode: StateRecord -> RecordDecode): seq<Restore>
  {
    if records == [] then []
    else
      var r := records[0];
      (if r.id in m && decode(r) == Decoded then [Restore(m[r.id], r)] else []) + RestorePlan(records[1..], m, decode)
  }

  /** A record that makes Load throw: registered, and its type lookup or
      JSON decoding fails.  Unregistered records are skipped before either
      call is made. */
  predicate Aborts(r: StateRecord, m: map<string, Saveable>, decode: StateRecord -> RecordDecode)
  {
    r.id in m && decode(r) == Malformed
  }

  lemma RegisterContract(m: map<string, Saveable>, s: Saveable?)
    ensures s == null || IsNullOrEmpty(s.SaveId) ==> Registered(m, s) == m
    ensures s != null && !IsNullOrEmpty(s.SaveId) ==>
              s.SaveId.value in Registered(m, s) && Registered(m, s)[s.SaveId.value] == s &&
              Registered(m, s).Keys == m.Keys + {s.SaveId.value} &&
              forall id :: id in m && id != s.SaveId.value ==> Registered(m, s)[id] == m[id]
  {
  }

  /** Unregistering removes nothing but this object's own entry. */
  lemma UnregisterOnlyRemovesSelf(m: map<string, Saveable>, s: Saveable?)
    ensures forall id :: id in Unregistered(m, s) ==> id in m && Unregistered(m, s)[id] == m[id]
    ensures forall id :: id in m && m[id] != s ==> id in Unregistered(m, s)
    ensures s != null && !IsNullOrEmpty(s.SaveId) && s.SaveId.value in m && m[s.SaveId.value] == s ==>
              s.SaveId.value !in Unregistered(m, s)
  {
  }

  /** A late Unregister of an object that was replaced under its id leaves
      the newer object registered. */
  lemma StaleUnregisterKeepsNewer(m: map<string, Saveable>, older: Saveable, newer: Saveable)
    requires older != newer && older.SaveId == newer.SaveId && !IsNullOrEmpty(older.SaveId)
    ensures var r := Registered(Registered(m, older), newer);
            Unregistered(r, older) == r && r[older.SaveId.value] == newer
  {
  }

  /** Register then Unregister of the same object: its id is gone, whatever
      it displaced included, and the rest is as before. */
  lemma RegisterThenUnregister(m: map<string, Saveable>, s: Saveable)
    requires !IsNullOrEmpty(s.SaveId)
    ensures Unregistered(Registered(m, s), s) == m - {s.SaveId.value}
  {
  }

  /** The plan applies exactly the records whose id is registered and which
      decode, each to the saveable registered under its id. */
  lemma {:induction false} RestorePlanMembership(records: seq<StateRecord>, m: map<string, Saveable>, decode: StateRecord -> RecordDecode, x: Restore)
    ensures x in RestorePlan(records, m, decode) <==>
              x.record in records && x.record.id in m && m[x.record.id] == x.target && decode(x.record) == Decoded
  {
    if records != [] {
      RestorePlanMembership(records[1..], m, decode, x);
      assert records == [records[0]] + records[1..];
    }
  }

  /** Load never applies more records than the file holds, and applies them
      in file order. */
  lemma {:induction false} RestorePlanLength(records: seq<StateRecord>, m: map<string, Saveable>, decode: StateRecord -> RecordDecode)
    ensures |RestorePlan(records, m, decode)| <= |records|
    ensures (forall i :: 0 <= i < |records| ==> records[i].id in m && decode(records[i]) == Decoded) ==>
              |RestorePlan(records, m, decode)| == |records| &&
              forall i :: 0 <= i < |records| ==> RestorePlan(records, m, decode)[i].record == records[i]
  {
    if records != [] {
      RestorePlanLength(records[1..], m, decode);
    }
  }

  /** RestorePlan over a record list extended by one record. */
  lemma {:induction false} RestorePlanSnoc(records: seq<StateRecord>, r: StateRecord, m: map<string, Saveable>, decode: StateRecord -> RecordDecode)
    ensures RestorePlan(records + [r], m, decode) ==
            RestorePlan(records, m, decode) + (if r.id in m && decode(r) == Decoded then [Restore(m[r.id], r)] else [])
  {
    if records == [] {
      assert records + [r] == [r];
    } else {
      assert (records + [r])[1..] == records[1..] + [r];
      RestorePlanSnoc(records[1..], r, m, decode);
    }
  }

  class SaveGameManager {
    var saveables: map<string, Saveable>

    constructor ()
      ensures saveables == map[]
    {
      saveables := map[];
    }

    method Register(saveable: Saveable?)
      modifies this`saveables
      ensures saveables == Registered(old(saveables), saveable)
    {
      if saveable == null {
        return;
      }
      if IsNullOrEmpty(saveable.SaveId) {
        return;
      }
      saveables := saveables[saveable.SaveId.value := saveable];
    }

    method Unregister(saveable: Saveable?)
      modifies this`saveables
      ensures saveables == Unregistered(old(saveables), saveable)
    {
      if saveable == null {
        return;
      }
      if IsNullOrEmpty(saveable.SaveId) {
        return;
      }
      var id := saveable.SaveId.value;
      if id in saveables && saveables[id] == saveable {
        saveables := saveables - {id};
      }
    }

    /** Save: an invalid slot name fails before anything is captured;
        otherwise every registered saveable is captured once and a record is
        kept for each non-null state.  `written` is the slot data put on
        disk when the write succeeds. */
    method Save(slotName: Option<string>, capture: Saveable -> Capture, now: string, writeSucceeds: bool)
      returns (saved: bool, written: Option<SaveSlotData>, capturedIds: set<string>)
      ensures IsNullOrWhiteSpace(slotName) ==> !saved && written == None && capturedIds == {}
      ensures !IsNullOrWhiteSpace(slotName) ==> capturedIds == saveables.Keys && saved == writeSucceeds
      ensures written.Some? <==> saved
      ensures saved ==>
                written.value.slotName == slotName.value && written.value.savedAtUtc == now &&
                (set r | r in written.value.states) == SelectedFrom(saveables, capture, saveables.Keys) &&
                DistinctIds(written.value.states)
    {
      if IsNullOrWhiteSpace(slotName) {
        return false, None, {};
      }
      var states: seq<StateRecord> := [];
      var remaining := saveables.Keys;
      capturedIds := {};
      while remaining != {}
        invariant remaining <= saveables.Keys
        invariant capturedIds == saveables.Keys - remaining
        invariant (set r | r in states) == SelectedFrom(saveables, capture, capturedIds)
        invariant forall i :: 0 <= i < |states| ==> states[i].id in capturedIds
        invariant DistinctIds(states)
        decreases remaining
      {
        var key :| key in remaining;
        var state := capture(saveables[key]);
        SelectedFromAdd(saveables, capture, capturedIds, key);
        if state.Captured? {
          var record := StateRecord(key, state.stateType, state.json);
          assert (set r | r in states + [record]) == (set r | r in states) + {record};
          states := states + [record];
        }
        remaining := remaining - {key};
        capturedIds := capturedIds + {key};
      }
      if !writeSucceeds {
        return false, None, capturedIds;
      }
      saved := true;
      written := Some(SaveSlotData(slotName.value, now, states));
    }

    /** Load: false when there is no file, when it cannot be read, or when it
        holds no record list.  Otherwise the records are restored in file
        order; a record whose type lookup or decoding throws ends the Load
        with false, after the records before it were already restored. */
    method Load(file: SlotFile, decode: StateRecord -> RecordDecode) returns (loaded: bool, restored: seq<Restore>)
      ensures !(file.Parsed? && file.states.Some?) ==> !loaded && restored == []
      ensures file.Parsed? && file.states.Some? ==>
                (loaded <==> forall i :: 0 <= i < |file.states.value| ==> !Aborts(file.states.value[i], saveables, decode))
      ensures file.Parsed? && file.states.Some? && loaded ==> restored == RestorePlan(file.states.value, saveables, decode)
      ensures file.Parsed? && file.states.Some? && !loaded ==>
                exists k :: 0 <= k < |file.states.value| && Aborts(file.states.value[k], saveables, decode) &&
                  (forall j :: 0 <= j < k ==> !Aborts(file.states.value[j], saveables, decode)) &&
                  restored == RestorePlan(file.states.value[..k], saveables, decode)
    {
      if file.NoFile? || file.Unreadable? || file.states.None? {
        return false, [];
      }
      var records := file.states.value;
      restored := [];
      var i := 0;
      while i < |records|
        invariant 0 <= i <= |records|
        invariant forall j :: 0 <= j < i ==> !Aborts(records[j], saveables, decode)
        invariant restored == RestorePlan(records[..i], saveables, decode)
      {
        var record := records[i];
        assert records[..i + 1] == records[..i] + [record];
        RestorePlanSnoc(records[..i], record, saveables, decode);
        if record.id in saveables {
          var outcome := decode(record);
          if outcome == Malformed {
            assert Aborts(records[i], saveables, decode);
            return false, restored;
          }
          if outcome == Decoded {
            restored := restored + [Restore(saveables[record.id], record)];
          }
        }
        i := i + 1;
      }
      assert records[..i] == records;
      loaded := true;
    }
  }
}

/** Presets kept in the browser's local storage under one key: a list of named
    snapshots of the settings, the progression and the notes, saved by name (a save
    replaces any entry of the same name), loaded by name, listed newest first and
    deleted by name. */
module Presets {
  import opened Notes
  import opened Sorting

  /** One saved snapshot. `createdAt` is a clock reading in milliseconds. */
  datatype Preset = Preset(
    name: string, createdAt: int, settings: Settings, progression: Progression,
    userNotes: UserNotes, generatedNotes: PartNotes)

  /** What the storage key holds, as far as reading it can tell: no storage at all,
      no value (or an empty one), a value that does not parse as a list, or a list. */
  datatype Slot = Unavailable | Missing | Malformed | Stored(presets: seq<Preset>)

  /** The stored list; the empty list whenever there is none to read. */
  function ReadPresets(slot: Slot): (r: seq<Preset>)
    ensures slot.Stored? ==> r == slot.presets
    ensures !slot.Stored? ==> r == []
  {
    if slot.Stored? then slot.presets else []
  }

  /** The slot after writing `presets`: nothing happens without storage. */
  function WritePresets(slot: Slot, presets: seq<Preset>): Slot {
    if slot.Unavailable? then Unavailable else Stored(presets)
  }

  /** Reading gives back what was written, whenever there is storage to write to. */
  lemma WriteThenRead(slot: Slot, presets: seq<Preset>)
    ensures !slot.Unavailable? ==> ReadPresets(WritePresets(slot, presets)) == presets
    ensures slot.Unavailable? ==> ReadPresets(WritePresets(slot, presets)) == []
  {
  }

  function HasName(name: string): Preset -> bool {
    (p: Preset) => p.name == name
  }

  function OtherName(name: string): Preset -> bool {
    (p: Preset) => p.name != name
  }

  /** The entries not named `name`, in stored order. */
  function Without(presets: seq<Preset>, name: string): seq<Preset> {
    Filter(presets, OtherName(name))
  }

  /** The entries named `name`, in stored order. */
  function Named(presets: seq<Preset>, name: string): seq<Preset> {
    Filter(presets, HasName(name))
  }

  /** The list after saving `payload` at clock time `now`: every entry of the same
      name dropped, then the payload, stamped with `now`, appended. */
  function Saved(presets: seq<Preset>, payload: Preset, now: int): seq<Preset> {
    Without(presets, payload.name) + [payload.(createdAt := now)]
  }

  /** The first entry named `name`, if any. */
  function FirstNamed(presets: seq<Preset>, name: string): (r: Option<Preset>)
    ensures r.Some? ==> r.value in presets && r.value.name == name
    ensures r.None? <==> forall i :: 0 <= i < |presets| ==> presets[i].name != name
  {
    if presets == [] then None
    else if presets[0].name == name then Some(presets[0])
    else
      var r := FirstNamed(presets[1..], name);
      assert forall i :: 1 <= i < |presets| ==> presets[i] == presets[1..][i - 1];
      r
  }

  function NewestFirst(p: Preset): int {
    -p.createdAt
  }

  /** The list ordered by creation time, newest first; entries created at the same
      time keep their stored order. */
  function ListPresets(presets: seq<Preset>): (r: seq<Preset>)
    ensures |r| == |presets| && multiset(r) == multiset(presets)
  {
    SortBy(presets, NewestFirst)
  }

  // ---------------------------------------------------------------------------
  // The stored list as a mutable object

  /** The local storage's slot for presets. */
  class PresetStorage {
    var slot: Slot

    constructor(slot: Slot)
      ensures this.slot == slot
    {
      this.slot := slot;
    }

    function Stored(): seq<Preset>
      reads this
    {
      ReadPresets(slot)
    }

    /** Reads the list, drops the entries named like the payload, appends the payload
        stamped with `now` and writes the list back. */
    method Save(payload: Preset, now: int)
      modifies this
      ensures slot == WritePresets(old(slot), Saved(ReadPresets(old(slot)), payload, now))
    {
      var presets := ReadPresets(slot);
      var filtered := Filter(presets, OtherName(payload.name));
      filtered := filtered + [payload.(createdAt := now)];
      slot := WritePresets(slot, filtered);
    }

    /** Reads the list, drops the entries named `name` and writes the rest back. */
    method Delete(name: string)
      modifies this
      ensures slot == WritePresets(old(slot), Without(ReadPresets(old(slot)), name))
    {
      var presets := Filter(ReadPresets(slot), OtherName(name));
      slot := WritePresets(slot, presets);
    }
  }

  // ---------------------------------------------------------------------------
  // Properties

  /** The first entry of a name is the head of the entries of that name. */
  lemma {:induction false} FirstIsNamedHead(presets: seq<Preset>, name: string)
    ensures FirstNamed(presets, name) == if Named(presets, name) == [] then None else Some(Named(presets, name)[0])
  {
    if presets != [] {
      FilterCons(presets[0], presets[1..], HasName(name));
      assert [presets[0]] + presets[1..] == presets;
      FirstIsNamedHead(presets[1..], name);
    }
  }

  /** After a save exactly one entry bears the payload's name: the stamped payload,
      at the end of the list; the entries of other names keep their order, and
      loading the name finds the payload. */
  lemma SaveReplaces(presets: seq<Preset>, payload: Preset, now: int)
    ensures var r := Saved(presets, payload, now);
      Named(r, payload.name) == [payload.(createdAt := now)]
      && r[|r| - 1] == payload.(createdAt := now)
      && Without(r, payload.name) == Without(presets, payload.name)
      && FirstNamed(r, payload.name) == Some(payload.(createdAt := now))
  {
    var kept := Without(presets, payload.name);
    var stamped := payload.(createdAt := now);
    FilterSatisfies(presets, OtherName(payload.name));
    FilterNone(kept, HasName(payload.name));
    FilterAppend(kept, [stamped], HasName(payload.name));
    FilterAppend(kept, [stamped], OtherName(payload.name));
    FilterAll(kept, OtherName(payload.name));
    assert [stamped][..0] == [];
    FirstIsNamedHead(kept + [stamped], payload.name);
  }

  /** A save leaves what loading any other name finds as it was. */
  lemma SaveKeepsOthers(presets: seq<Preset>, payload: Preset, now: int, name: string)
    requires name != payload.name
    ensures Named(Saved(presets, payload, now), name) == Named(presets, name)
    ensures FirstNamed(Saved(presets, payload, now), name) == FirstNamed(presets, name)
  {
    var stamped := payload.(createdAt := now);
    FilterAppend(Without(presets, payload.name), [stamped], HasName(name));
    assert [stamped][..0] == [];
    FilterFilter(presets, OtherName(payload.name), HasName(name));
    FirstIsNamedHead(Saved(presets, payload, now), name);
    FirstIsNamedHead(presets, name);
  }

  /** A delete removes exactly the entries of the name: an entry survives if and only
      if it was stored under another name; deleting twice is deleting once; other
      names load as before and the deleted name loads nothing. */
  lemma DeleteRemovesName(presets: seq<Preset>, name: string, other: string)
    requires other != name
    ensures forall x :: x in Without(presets, name) <==> x in presets && x.name != name
    ensures Without(Without(presets, name), name) == Without(presets, name)
    ensures FirstNamed(Without(presets, name), name) == None
    ensures FirstNamed(Without(presets, name), other) == FirstNamed(presets, other)
  {
    var kept := Without(presets, name);
    FilterSatisfies(presets, OtherName(name));
    forall x | x in kept ensures x in presets && x.name != name {
      FilterWithin(presets, OtherName(name), x);
    }
    forall x | x in presets && x.name != name ensures x in kept {
      FilterHas(presets, OtherName(name), x);
    }
    FilterAll(kept, OtherName(name));
    FilterFilter(presets, OtherName(name), HasName(other));
    FirstIsNamedHead(kept, other);
    FirstIsNamedHead(presets, other);
  }

  /** The listing holds the stored entries, newest first, and entries created at the
      same time appear in their stored order. */
  lemma ListNewestFirst(presets: seq<Preset>, createdAt: int)
    ensures multiset(ListPresets(presets)) == multiset(presets)
    ensures forall i, j :: 0 <= i < j < |ListPresets(presets)| ==>
      ListPresets(presets)[i].createdAt >= ListPresets(presets)[j].createdAt
    ensures Filter(ListPresets(presets), CreatedAt(createdAt)) == Filter(presets, CreatedAt(createdAt))
  {
    SortBySorted(presets, NewestFirst);
    var r := ListPresets(presets);
    forall i, j | 0 <= i < j < |r| ensures r[i].createdAt >= r[j].createdAt {
      assert NewestFirst(r[i]) <= NewestFirst(r[j]);
    }
    SortByStable(presets, NewestFirst, CreatedAt(createdAt), -createdAt);
  }

  function CreatedAt(t: int): Preset -> bool {
    (p: Preset) => p.createdAt == t
  }

  // ---------------------------------------------------------------------------
  // The storage test

  const BaseSettings: Settings :=
    Settings(C, Major, 4, 100.0, 0.1, 0.8, 1800.0, 0.3, 0.2, true, true, false, false, Modern)

  /** A preset as the test builds it, before saving stamps it. */
  function TestPreset(name: string): Preset {
    Preset(name, 0, BaseSettings, Progression(4, [0, 4, 5, 3]), UserNotes(None, None, None),
           PartNotes([Some(72), None, Some(74), None], [Some(60), Some(64), Some(67), Some(72)],
                     [Some(36), None, None, Some(36)]))
  }

  function Names(presets: seq<Preset>): (r: seq<string>)
    ensures |r| == |presets| && forall i :: 0 <= i < |r| ==> r[i] == presets[i].name
  {
    seq(|presets|, i requires 0 <= i < |presets| => presets[i].name)
  }

  /** The list after the test's two saves into empty storage. */
  lemma TwoSaves()
    ensures Saved(Saved([], TestPreset("Warm Pad"), 1), TestPreset("Bright Lead"), 2)
      == [TestPreset("Warm Pad").(createdAt := 1), TestPreset("Bright Lead").(createdAt := 2)]
  {
    var warm := TestPreset("Warm Pad").(createdAt := 1);
    assert Without([], "Warm Pad") == [];
    FilterAll([warm], OtherName("Bright Lead"));
  }

  lemma TwoListed(warm: Preset, bright: Preset)
    requires warm.createdAt == 1 && bright.createdAt == 2
    ensures ListPresets([warm, bright]) == [bright, warm]
  {
    var s := [warm, bright];
    assert s[..|s| - 1] == [warm] && s[|s| - 1] == bright;
    assert [warm][..0] == [];
    assert SortBy([warm], NewestFirst) == [warm];
  }

  lemma NamesOfTwo(a: Preset, b: Preset)
    ensures Names([a, b]) == [a.name, b.name]
  {
  }

  /** Two saves at clock times 1 and 2 into empty storage list the later first; the
      earlier loads with its stamp and its tempo; once deleted it loads nothing. */
  method StorageScenario() returns (listed: seq<string>, loaded: Option<Preset>, deleted: Option<Preset>)
    ensures listed == ["Bright Lead", "Warm Pad"]
    ensures loaded.Some? && loaded.value.createdAt == 1 && loaded.value.settings.bpm == 100.0
    ensures deleted == None
  {
    var storage := new PresetStorage(Missing);
    storage.Save(TestPreset("Warm Pad"), 1);
    storage.Save(TestPreset("Bright Lead"), 2);
    var warm := TestPreset("Warm Pad").(createdAt := 1);
    var bright := TestPreset("Bright Lead").(createdAt := 2);
    TwoSaves();
    TwoListed(warm, bright);
    NamesOfTwo(bright, warm);
    listed := Names(ListPresets(storage.Stored()));
    loaded := FirstNamed(storage.Stored(), "Warm Pad");
    storage.Delete("Warm Pad");
    DeleteRemovesName([warm, bright], "Warm Pad", "Bright Lead");
    deleted := FirstNamed(storage.Stored(), "Warm Pad");
  }
}

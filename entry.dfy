/** The entry window's own state rules (ALVRClient/Entry/Entry.swift): the
    clamping of the chroma-key distance range, the list of manually saved
    streamer addresses with its add, select and delete actions and the
    predicates that drive its display, and the save on scene-phase changes.

    The window's saveAction is the app's settings save, modelled as
    `GlobalSettingsStore.Save`. */
module Entry {
  import opened Platform
  import opened Sequences
  import opened Trimming

  // ------------------------------------------------------------------
  // The chroma-key distance range

  datatype ChromaRange = ChromaRange(min: real, max: real)

  /** The range after applyRangeSettings' clamps, applied in the source's
      order: the maximum into [0.001, 1], the minimum into [0, 1], and a
      minimum above the maximum moved to just below it. */
  function ClampedRange(r: ChromaRange): (c: ChromaRange)
    ensures 0.001 <= c.max <= 1.0
    ensures 0.0 <= c.min <= c.max
    ensures 0.001 <= r.max <= 1.0 ==> c.max == r.max
    ensures 0.0 <= r.min <= r.max && 0.001 <= r.max <= 1.0 ==> c == r
    ensures 0.0 <= r.min <= c.max ==> c.min == r.min
  {
    var max1 := if r.max < 0.001 then 0.001 else r.max;
    var max2 := if max1 > 1.0 then 1.0 else max1;
    var min1 := if r.min < 0.0 then 0.0 else r.min;
    var min2 := if min1 > 1.0 then 1.0 else min1;
    var min3 := if min2 > max2 then max2 - 0.001 else min2;
    ChromaRange(min3, max2)
  }

  /** Clamping a clamped range changes nothing. */
  lemma ClampIdempotent(r: ChromaRange)
    ensures ClampedRange(ClampedRange(r)) == ClampedRange(r)
  {
    var c := ClampedRange(r);
    assert 0.0 <= c.min <= c.max && 0.001 <= c.max <= 1.0;
  }

  // ------------------------------------------------------------------
  // The saved address list

  /** addNewIPAddress adds its trimmed input exactly when it is non-empty
      and not saved yet. */
  predicate AddsEntry(trimmed: string, list: seq<string>) {
    trimmed != [] && trimmed !in list
  }

  /** The list after addNewIPAddress with input `input`. */
  function AddEntry(input: string, list: seq<string>): seq<string> {
    if AddsEntry(Trim(input), list) then list + [Trim(input)] else list
  }

  /** The list after deleting the row for `ip`: its first occurrence is
      removed; an address that is not saved leaves the list as it is. */
  function RemoveEntry(ip: string, list: seq<string>): seq<string> {
    var k := FirstIndexOf(list, ip);
    if k < |list| then list[..k] + list[k + 1..] else list
  }

  /** What the list actions keep: no address twice, and every address
      non-empty and free of surrounding whitespace. */
  predicate WellFormedList(list: seq<string>) {
    && NoDuplicates(list)
    && forall i :: 0 <= i < |list| ==> list[i] != [] && Trim(list[i]) == list[i]
  }

  /** Adding keeps the earlier entries in order and puts the trimmed input,
      if anything, at the end; an address is saved afterwards exactly when
      it was saved before or it is the non-empty trimmed input. */
  lemma AddEntryContents(input: string, list: seq<string>)
    ensures var r := AddEntry(input, list);
      && r[..|list|] == list
      && |r| == |list| + (if AddsEntry(Trim(input), list) then 1 else 0)
      && forall x :: x in r <==> x in list || (x == Trim(input) && Trim(input) != [])
  {
    var r := AddEntry(input, list);
    if AddsEntry(Trim(input), list) {
      assert r[..|list|] == list;
      assert r[|list|] == Trim(input);
    }
  }

  /** Adding keeps a well-formed list well-formed. */
  lemma AddPreservesWellFormed(input: string, list: seq<string>)
    requires WellFormedList(list)
    ensures WellFormedList(AddEntry(input, list))
  {
    var t := Trim(input);
    if AddsEntry(t, list) {
      TrimIdempotent(input);
      var r := list + [t];
      forall i, j | 0 <= i < j < |r| ensures r[i] != r[j] {
        if j == |list| {
          assert r[i] == list[i];
        }
      }
    }
  }

  /** Deleting a saved address takes exactly one copy of it out of the
      list and leaves every other address as often as it was; deleting an
      unsaved address does nothing. */
  lemma RemoveEntryCount(ip: string, list: seq<string>, other: string)
    ensures ip !in list ==> RemoveEntry(ip, list) == list
    ensures ip in list ==>
      Count(RemoveEntry(ip, list), other) == Count(list, other) - (if other == ip then 1 else 0)
  {
    if ip in list {
      RemoveFirstOccurrence(list, ip, other);
    }
  }

  /** Deleting keeps a well-formed list well-formed, and the deleted address
      is gone from it. */
  lemma RemovePreservesWellFormed(ip: string, list: seq<string>)
    requires WellFormedList(list)
    ensures WellFormedList(RemoveEntry(ip, list))
    ensures ip !in RemoveEntry(ip, list)
  {
    if ip in list {
      RemoveFirstOccurrenceNoDuplicates(list, ip);
      var k := FirstIndexOf(list, ip);
      var r := RemoveEntry(ip, list);
      forall i | 0 <= i < |r| ensures r[i] != [] && Trim(r[i]) == r[i] {
        assert r[i] == list[if i < k then i else i + 1];
      }
    }
  }

  /** The Add button is disabled when the raw input is empty or already
      saved; unlike addNewIPAddress it does not trim first. */
  predicate AddButtonDisabled(raw: string, list: seq<string>) {
    raw == [] || raw in list
  }

  /** For input without surrounding whitespace the button's test and
      addNewIPAddress's test agree: the button is enabled exactly when a tap
      adds the input. */
  lemma AddButtonAgreesOnTrimmedInput(raw: string, list: seq<string>)
    requires Trim(raw) == raw
    ensures !AddButtonDisabled(raw, list) <==> AddEntry(raw, list) != list
  {
    if AddEntry(raw, list) != list {
      assert AddsEntry(Trim(raw), list);
    }
  }

  /** With surrounding whitespace they differ: an input of one space enables
      the button, yet a tap saves nothing. */
  lemma AddButtonEnabledForBlankInput(list: seq<string>)
    requires " " !in list
    ensures !AddButtonDisabled(" ", list)
    ensures AddEntry(" ", list) == list
  {
    assert LeadingWhitespace(" ") == 1;
    TrimEmptyIffBlank(" ");
  }

  /** ... and a saved address typed with a trailing space enables the button,
      yet a tap saves nothing either. */
  lemma AddButtonEnabledForPaddedDuplicate(ip: string, list: seq<string>)
    requires ip in list && Trim(ip) == ip
    requires ip + " " !in list
    ensures !AddButtonDisabled(ip + " ", list)
    ensures AddEntry(ip + " ", list) == list
  {
    TrimDropsTrailingSpace(ip);
  }

  // ------------------------------------------------------------------
  // What the list shows

  /** A manually saved row shows as connected when it is the address the
      engine is connected to. */
  predicate ManualRowIsConnected(eventIP: string, state: ConnectionState, ip: string) {
    eventIP == ip && state == Connected
  }

  /** The row for the automatically discovered streamer is shown while
      connected to a known address. */
  predicate AutoRowShown(state: ConnectionState, eventIP: string) {
    state == Connected && eventIP != ""
  }

  /** The empty-state placeholder replaces the list when nothing is saved
      and the engine is not connected. */
  predicate ShowEmptyPlaceholder(list: seq<string>, state: ConnectionState) {
    list == [] && state != Connected
  }

  /** In a list without duplicates at most one manual row shows as
      connected, and only while connected; whenever a manual row is
      connected, the discovered row is shown too unless the address is
      empty. */
  lemma ConnectedRowUnique(eventIP: string, state: ConnectionState, list: seq<string>)
    requires NoDuplicates(list)
    ensures forall i, j :: (0 <= i < |list| && 0 <= j < |list| && ManualRowIsConnected(eventIP, state, list[i])
                            && ManualRowIsConnected(eventIP, state, list[j])) ==> i == j
    ensures forall i :: 0 <= i < |list| && ManualRowIsConnected(eventIP, state, list[i]) ==>
      !ShowEmptyPlaceholder(list, state) && (AutoRowShown(state, eventIP) <==> list[i] != "")
  {
  }

  /** Whether the window's scene-phase handler saves: on Background and
      Inactive, not on Active. */
  predicate EntrySavesOn(phase: ScenePhase) {
    phase != Active
  }

  // ------------------------------------------------------------------
  // The window's state and its actions

  class EntryView {
    const store: GlobalSettingsStore
    var chromaRangeMaximum: real
    var newIPAddress: string

    constructor (store: GlobalSettingsStore)
      ensures this.store == store && chromaRangeMaximum == 1.0 && newIPAddress == ""
    {
      this.store := store;
      chromaRangeMaximum := 1.0;
      newIPAddress := "";
    }

    /** applyRangeSettings: clamps the stored range one rule at a time,
        mirrors the new maximum in the view and saves. */
    method ApplyRangeSettings()
      modifies this, store
      ensures var c := ClampedRange(ChromaRange(old(store.settings.chromaKeyDistRangeMin),
                                                old(store.settings.chromaKeyDistRangeMax)));
        store.settings == old(store.settings).(chromaKeyDistRangeMin := c.min, chromaKeyDistRangeMax := c.max)
      ensures chromaRangeMaximum == store.settings.chromaKeyDistRangeMax
      ensures newIPAddress == old(newIPAddress)
      ensures store.persisted == store.settings && store.saveCount == old(store.saveCount) + 1
    {
      if store.settings.chromaKeyDistRangeMax < 0.001 {
        store.settings := store.settings.(chromaKeyDistRangeMax := 0.001);
      }
      if store.settings.chromaKeyDistRangeMax > 1.0 {
        store.settings := store.settings.(chromaKeyDistRangeMax := 1.0);
      }
      if store.settings.chromaKeyDistRangeMin < 0.0 {
        store.settings := store.settings.(chromaKeyDistRangeMin := 0.0);
      }
      if store.settings.chromaKeyDistRangeMin > 1.0 {
        store.settings := store.settings.(chromaKeyDistRangeMin := 1.0);
      }
      if store.settings.chromaKeyDistRangeMin > store.settings.chromaKeyDistRangeMax {
        store.settings := store.settings.(chromaKeyDistRangeMin := store.settings.chromaKeyDistRangeMax - 0.001);
      }
      chromaRangeMaximum := store.settings.chromaKeyDistRangeMax;
      store.Save();
    }

    /** addNewIPAddress: appends the trimmed input when it is non-empty and
        new, then clears the input and saves; otherwise changes nothing. */
    method AddNewIPAddress()
      modifies this, store
      ensures chromaRangeMaximum == old(chromaRangeMaximum)
      ensures AddsEntry(Trim(old(newIPAddress)), old(store.settings.savedIPAddresses)) ==>
        && store.settings == old(store.settings).(savedIPAddresses :=
                               AddEntry(old(newIPAddress), old(store.settings.savedIPAddresses)))
        && newIPAddress == ""
        && store.persisted == store.settings && store.saveCount == old(store.saveCount) + 1
      ensures !AddsEntry(Trim(old(newIPAddress)), old(store.settings.savedIPAddresses)) ==>
        && newIPAddress == old(newIPAddress)
        && store.settings == old(store.settings) && store.persisted == old(store.persisted)
        && store.saveCount == old(store.saveCount)
    {
      var trimmedIP := Trim(newIPAddress);
      if trimmedIP != [] && trimmedIP !in store.settings.savedIPAddresses {
        store.settings := store.settings.(savedIPAddresses := store.settings.savedIPAddresses + [trimmedIP]);
        newIPAddress := "";
        store.Save();
      }
    }

    /** Selecting a row (manual or discovered): the row's address becomes
        the selected one and the settings are saved. */
    method SelectRow(ip: string)
      modifies store
      ensures store.settings == old(store.settings).(currentSelectedIP := ip)
      ensures store.persisted == store.settings && store.saveCount == old(store.saveCount) + 1
    {
      store.settings := store.settings.(currentSelectedIP := ip);
      store.Save();
    }

    /** Deleting a manual row: removes the first occurrence of its address,
        clears the selection if it was that address, and saves; an address
        that is not saved changes nothing. */
    method DeleteRow(ip: string)
      modifies store
      ensures ip in old(store.settings.savedIPAddresses) ==>
        && store.settings == old(store.settings).(
             savedIPAddresses := RemoveEntry(ip, old(store.settings.savedIPAddresses)),
             currentSelectedIP := if old(store.settings.currentSelectedIP) == ip then ""
                                  else old(store.settings.currentSelectedIP))
        && store.persisted == store.settings && store.saveCount == old(store.saveCount) + 1
      ensures ip !in old(store.settings.savedIPAddresses) ==>
        && store.settings == old(store.settings) && store.persisted == old(store.persisted)
        && store.saveCount == old(store.saveCount)
    {
      var index := FirstIndexOf(store.settings.savedIPAddresses, ip);
      if index < |store.settings.savedIPAddresses| {
        var list := store.settings.savedIPAddresses;
        store.settings := store.settings.(savedIPAddresses := list[..index] + list[index + 1..]);
        if store.settings.currentSelectedIP == ip {
          store.settings := store.settings.(currentSelectedIP := "");
        }
        store.Save();
      }
    }

    /** The window's scene-phase handler: saves when the window goes to the
        background or becomes inactive. */
    method OnScenePhaseChange(phase: ScenePhase)
      modifies store
      ensures store.settings == old(store.settings)
      ensures EntrySavesOn(phase) ==> store.persisted == store.settings && store.saveCount == old(store.saveCount) + 1
      ensures !EntrySavesOn(phase) ==> store.persisted == old(store.persisted) && store.saveCount == old(store.saveCount)
    {
      match phase {
        case Background => store.Save();
        case Inactive => store.Save();
        case Active =>
      }
    }
  }
}

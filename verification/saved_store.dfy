/**
 The persisted saved-city list as the weather card sees it: one storage key
 holding a JSON array of city names, read with `JSON.parse(...) || []`, and the
 card's save/remove buttons that rewrite it and report the new list to the page.

 Storage is abstracted to what the parse can yield: nothing usable but no error
 (`Absent`: the key is missing or holds a falsy JSON value, and `|| []` turns
 it into the empty list), an exception (`Corrupt`), or an array of names.
 */
module SavedStore {
  import opened Common
  import opened CityList

  datatype Stored = Absent | Corrupt | Valid(cities: seq<string>)

  /** `JSON.parse(localStorage.getItem(key)) || []`, with `None` for the
      exception an unparsable value throws. */
  function Read(st: Stored): (r: Option<seq<string>>)
    ensures r.None? <==> st.Corrupt?
    ensures st.Absent? ==> r == Some([])
    ensures st.Valid? ==> r == Some(st.cities)
  {
    match st
    case Absent => Some([])
    case Corrupt => None
    case Valid(xs) => Some(xs)
  }

  /** The page's load on mount: whatever parses, or the empty list when the
      value is missing or the parse throws. */
  function LoadSaved(st: Stored): (r: seq<string>)
    ensures st.Valid? ==> r == st.cities
    ensures !st.Valid? ==> r == []
  {
    Read(st).GetOr([])
  }

  /** Whether `name` is in the stored list by exact string match; false when
      the parse throws. */
  function IsSaved(st: Stored, name: string): (r: bool)
    ensures r <==> st.Valid? && name in st.cities
  {
    match Read(st)
    case Some(xs) => name in xs
    case None => false
  }

  /** What one button press leaves behind: the storage, the card's `saved`
      flag, and the list handed to `onSaveChange`, if it was called. */
  datatype CardStep = CardStep(store: Stored, saved: bool, notified: Option<seq<string>>)

  /** `saveCity`: append the name when absent, persist, set the flag, notify;
      do nothing when the name is already there or the parse throws. */
  function SaveCity(st: Stored, saved: bool, name: string): (r: CardStep)
    ensures st.Corrupt? || IsSaved(st, name) ==> r == CardStep(st, saved, None)
    ensures !st.Corrupt? && !IsSaved(st, name) ==>
              && r.store.Valid?
              && |r.store.cities| == |LoadSaved(st)| + 1
              && r.store.cities[..|LoadSaved(st)|] == LoadSaved(st)
              && r.store.cities[|LoadSaved(st)|] == name
              && r.saved
              && r.notified == Some(r.store.cities)
  {
    match Read(st)
    case None => CardStep(st, saved, None)
    case Some(list) =>
      if name in list then CardStep(st, saved, None)
      else
        var list' := list + [name];
        CardStep(Valid(list'), true, Some(list'))
  }

  /** `removeCity`: drop every exact occurrence, persist, clear the flag,
      notify; do nothing when the parse throws. */
  function RemoveCity(st: Stored, saved: bool, name: string): (r: CardStep)
    ensures st.Corrupt? ==> r == CardStep(st, saved, None)
    ensures !st.Corrupt? ==>
              && r.store.Valid?
              && (forall c :: c in r.store.cities <==> c in LoadSaved(st) && c != name)
              && !r.saved
              && r.notified == Some(r.store.cities)
  {
    match Read(st)
    case None => CardStep(st, saved, None)
    case Some(list) =>
      var list' := Without(list, name);
      CardStep(Valid(list'), false, Some(list'))
  }

  /** The star button: remove when the card shows the city as saved,
      save otherwise. */
  function Toggle(st: Stored, saved: bool, name: string): (r: CardStep)
    ensures st.Corrupt? ==> r == CardStep(st, saved, None)
    ensures saved && !st.Corrupt? ==> !r.saved && !IsSaved(r.store, name)
    ensures !saved && !st.Corrupt? ==> IsSaved(r.store, name) && (r.saved <==> !IsSaved(st, name))
  {
    if saved then RemoveCity(st, saved, name) else SaveCity(st, saved, name)
  }

  /** The card's effect when the shown city changes: a non-empty name
      re-reads the flag from storage, an empty one leaves it alone. */
  function RefreshSaved(st: Stored, saved: bool, name: string): (r: bool)
    ensures name != "" ==> (r <==> IsSaved(st, name))
    ensures name == "" ==> r == saved
  {
    if name != "" then IsSaved(st, name) else saved
  }

  /** Saving twice is saving once: the second press writes nothing, keeps the
      flag and notifies nobody. */
  lemma SaveTwiceIsSaveOnce(st: Stored, saved: bool, name: string)
    ensures var once := SaveCity(st, saved, name);
            SaveCity(once.store, once.saved, name) == CardStep(once.store, once.saved, None)
  {
    var once := SaveCity(st, saved, name);
    if !st.Corrupt? && !IsSaved(st, name) {
      assert once.store.cities[|LoadSaved(st)|] == name;
      assert IsSaved(once.store, name);
    }
  }

  /** Saving keeps the stored list free of duplicates. */
  lemma SaveKeepsDistinct(st: Stored, saved: bool, name: string)
    requires Distinct(LoadSaved(st))
    ensures Distinct(LoadSaved(SaveCity(st, saved, name).store))
  {
    if !st.Corrupt? && !IsSaved(st, name) {
      AppendKeepsDistinct(LoadSaved(st), name);
    }
  }

  /** Removing keeps the stored list free of duplicates. */
  lemma RemoveKeepsDistinct(st: Stored, saved: bool, name: string)
    requires Distinct(LoadSaved(st))
    ensures Distinct(LoadSaved(RemoveCity(st, saved, name).store))
  {
    if !st.Corrupt? {
      WithoutKeepsDistinct(LoadSaved(st), name);
    }
  }

  /** Removal keeps the other cities in their order, and removing a city
      that is not saved writes back the list it read. */
  lemma RemoveKeepsOrder(st: Stored, saved: bool, name: string, xs: seq<string>, ys: seq<string>)
    requires LoadSaved(st) == xs + ys && !st.Corrupt?
    ensures LoadSaved(RemoveCity(st, saved, name).store) == Without(xs, name) + Without(ys, name)
    ensures !IsSaved(st, name) ==> RemoveCity(st, saved, name).store == Valid(LoadSaved(st))
  {
    WithoutAppend(xs, ys, name);
    if !IsSaved(st, name) {
      WithoutAbsent(LoadSaved(st), name);
    }
  }

  /** Removing a city right after saving it restores the list that was read. */
  lemma RemoveUndoesSave(st: Stored, saved: bool, name: string)
    requires !st.Corrupt? && !IsSaved(st, name)
    ensures var once := SaveCity(st, saved, name);
            var back := RemoveCity(once.store, once.saved, name);
            LoadSaved(back.store) == LoadSaved(st) && !back.saved
  {
    var xs := LoadSaved(st);
    var once := SaveCity(st, saved, name);
    assert once.store.cities == xs + [name];
    WithoutAppend(xs, [name], name);
    WithoutAbsent(xs, name);
    assert Without([name], name) == [];
  }

  /** A card whose flag agrees with storage still agrees after the button,
      and when storage parses the press flips the flag. */
  lemma ToggleKeepsFlagInSync(st: Stored, name: string)
    ensures var r := Toggle(st, IsSaved(st, name), name);
            && r.saved == IsSaved(r.store, name)
            && (!st.Corrupt? ==> r.saved == !IsSaved(st, name))
  {
    var flag := IsSaved(st, name);
    var r := Toggle(st, flag, name);
    if !flag && !st.Corrupt? {
      assert r.store.cities[|LoadSaved(st)|] == name;
    }
  }
}

/** The valve picker of the balances page (frontend/src/components/ui/ValveSelector.jsx): the
    case-insensitive search over id, name and location, the grid items with their default
    name and location, and the selected flag of each button. */
module ValveSelector {
  import opened Wrappers
  import opened Text
  import opened Seqs

  /** An entry of `valveNames`; a missing property is `None`. */
  datatype ValveInfo = ValveInfo(name: Option<string>, location: Option<string>)

  /** `valveNames[valveId] || {}`: a valve without an entry has neither name nor location. */
  function InfoOrEmpty(names: map<string, ValveInfo>, id: string): (info: ValveInfo)
    ensures id in names ==> info == names[id]
    ensures id !in names ==> info.name.None? && info.location.None?
  {
    if id in names then names[id] else ValveInfo(None, None)
  }

  /** `v?.toLowerCase().includes(q)`: false for a missing property. */
  predicate FieldMatches(v: Option<string>, q: string) {
    v.Some? && Includes(JsLower(v.value), q)
  }

  /** The filter test: the lower-cased term occurs in the lower-cased id, name or
      location. */
  predicate Matches(term: string, names: map<string, ValveInfo>, id: string) {
    var info := InfoOrEmpty(names, id);
    var q := JsLower(term);
    Includes(JsLower(id), q) || FieldMatches(info.name, q) || FieldMatches(info.location, q)
  }

  /** `filteredValves`. */
  function FilteredValves(valves: seq<string>, term: string, names: map<string, ValveInfo>)
    : (r: seq<string>)
    ensures |r| <= |valves|
    ensures forall i :: 0 <= i < |r| ==> r[i] in valves && Matches(term, names, r[i])
    ensures forall i :: 0 <= i < |valves| && Matches(term, names, valves[i]) ==> valves[i] in r
  {
    Filter(valves, id => Matches(term, names, id))
  }

  /** The result keeps the input order. */
  lemma FilteredIsSubseq(valves: seq<string>, term: string, names: map<string, ValveInfo>)
    ensures IsSubseq(FilteredValves(valves, term, names), valves)
  {
    FilterIsSubseq(valves, id => Matches(term, names, id));
  }

  /** An empty search shows every valve. */
  lemma EmptyTermKeepsAll(valves: seq<string>, names: map<string, ValveInfo>)
    ensures FilteredValves(valves, "", names) == valves
  {
    forall i | 0 <= i < |valves|
      ensures Matches("", names, valves[i])
    {
      IncludesTrivial(JsLower(valves[i]));
    }
    FilterAll(valves, id => Matches("", names, id));
  }

  /** Typing an id, name or location in capitals or small letters finds the same valves. */
  lemma CaseInsensitive(term: string, names: map<string, ValveInfo>, id: string)
    ensures Matches(JsLower(term), names, id) == Matches(term, names, id)
  {
    JsLowerIdempotent(term);
  }

  /** A valve without an entry is found by its id only. */
  lemma UnnamedMatchesId(term: string, names: map<string, ValveInfo>, id: string)
    requires id !in names
    ensures Matches(term, names, id) <==> Includes(JsLower(id), JsLower(term))
  {
  }

  /** A valve always matches its own id, whatever the case it is typed in. */
  lemma FoundById(names: map<string, ValveInfo>, id: string)
    ensures Matches(id, names, id)
  {
    IncludesTrivial(JsLower(id));
  }

  // ---------------------------------------------------------------- grid

  const DefaultLocation := "Sin ubicación"

  datatype GridItem = GridItem(id: string, info: ValveInfo, isSelected: bool)

  /** `valveNames[valveId] || { name: valveId, location: "Sin ubicación" }`. */
  function DisplayInfo(names: map<string, ValveInfo>, id: string): (info: ValveInfo)
    ensures id in names ==> info == names[id]
    ensures id !in names ==> info == ValveInfo(Some(id), Some(DefaultLocation))
  {
    if id in names then names[id] else ValveInfo(Some(id), Some(DefaultLocation))
  }

  /** `valveGridItems`, with the button's `isSelected`: one item per kept valve, in order,
      selected exactly when its id is the selected valve. */
  function GridItems(valves: seq<string>, term: string, names: map<string, ValveInfo>,
                     selectedValve: Option<string>): (items: seq<GridItem>)
    ensures |items| == |FilteredValves(valves, term, names)|
    ensures forall i :: 0 <= i < |items| ==>
      items[i].id == FilteredValves(valves, term, names)[i]
      && items[i].info == DisplayInfo(names, items[i].id)
      && (items[i].isSelected <==> selectedValve == Some(items[i].id))
  {
    var kept := FilteredValves(valves, term, names);
    seq(|kept|, i requires 0 <= i < |kept| =>
      GridItem(kept[i], DisplayInfo(names, kept[i]), selectedValve == Some(kept[i])))
  }

  /** With distinct valve ids at most one button is selected. */
  lemma AtMostOneSelected(valves: seq<string>, term: string, names: map<string, ValveInfo>,
                          selectedValve: Option<string>, i: nat, j: nat)
    requires i < j < |GridItems(valves, term, names, selectedValve)|
    requires GridItems(valves, term, names, selectedValve)[i].id
          != GridItems(valves, term, names, selectedValve)[j].id
    ensures !(GridItems(valves, term, names, selectedValve)[i].isSelected
              && GridItems(valves, term, names, selectedValve)[j].isSelected)
  {
  }

  /** The default location is shown but not searched: a valve without an entry is listed
      as "Sin ubicación" yet searching for "ubicación" does not find it. */
  lemma DefaultLocationNotSearched()
    ensures DisplayInfo(map[], "v1").location == Some(DefaultLocation)
    ensures !Matches("ubicación", map[], "v1")
  {
    var q := JsLower("ubicación");
    assert |q| == 9;
    assert !IsPrefix(q, JsLower("v1"));
    assert JsLower("v1")[1..] == "1";
    assert !IsPrefix(q, "1");
    assert "1"[1..] == "";
    assert !IsPrefix(q, "");
  }

  // ---------------------------------------------------------------- state

  /** The selector's only state: the search term, set by the input handler. */
  class Search {
    var searchTerm: string

    constructor ()
      ensures searchTerm == ""
    {
      searchTerm := "";
    }

    /** `handleSearchChange`: the term becomes the input's value. */
    method HandleSearchChange(value: string)
      modifies this
      ensures searchTerm == value
    {
      searchTerm := value;
    }

    /** The valves currently listed. */
    function Listed(valves: seq<string>, names: map<string, ValveInfo>): (r: seq<string>)
      reads this
      ensures IsSubseq(r, valves)
    {
      FilteredIsSubseq(valves, searchTerm, names);
      FilteredValves(valves, searchTerm, names)
    }
  }
}

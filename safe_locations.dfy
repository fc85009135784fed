/**
 * The safe-location directory of the SafeMap component: the fixed catalog of
 * safe locations, the category filter over it, the icon and colour tables,
 * and the component's two state cells (the selected filter and the last
 * position the browser reported).
 */
module SafeLocations {
  import opened Wrappers

  // ---------------------------------------------------------------------
  // Location types
  // ---------------------------------------------------------------------

  /** The three values the record's `type` field may hold. */
  datatype LocationType = Police | Hospital | SafeSpace

  /** The string a location type is stored as. */
  function TypeName(t: LocationType): string {
    match t
    case Police => "police"
    case Hospital => "hospital"
    case SafeSpace => "safe_space"
  }

  /** Reads a type name back: the inverse of TypeName, `None` for any other string. */
  function ParseType(s: string): (r: Option<LocationType>)
    ensures r.Some? ==> TypeName(r.value) == s
    ensures forall t :: TypeName(t) == s ==> r == Some(t)
  {
    if s == "police" then Some(Police)
    else if s == "hospital" then Some(Hospital)
    else if s == "safe_space" then Some(SafeSpace)
    else None
  }

  // ---------------------------------------------------------------------
  // The catalog
  // ---------------------------------------------------------------------

  /** One entry of the directory. `distance` is a display string, never computed on. */
  datatype SafeLocation = SafeLocation(
    id: string,
    name: string,
    kind: LocationType,
    address: string,
    distance: string,
    phone: Option<string>,
    isVerified: bool,
    hours: string)

  /** The five entries the component ships with, in display order. */
  const Catalog: seq<SafeLocation> := [
    SafeLocation("1", "Central Police Station", Police, "123 Main Street, Downtown",
                 "0.5 km", Some("+1-555-POLICE"), true, "24/7"),
    SafeLocation("2", "City General Hospital", Hospital, "456 Health Avenue",
                 "1.2 km", Some("+1-555-HOSPITAL"), true, "24/7"),
    SafeLocation("3", "Women's Shelter & Support Center", SafeSpace, "789 Safety Street",
                 "0.8 km", Some("+1-555-SHELTER"), true, "24/7 Hotline"),
    SafeLocation("4", "Community Safety Center", SafeSpace, "321 Community Lane",
                 "1.5 km", Some("+1-555-COMMUNITY"), true, "8 AM - 10 PM"),
    SafeLocation("5", "North District Hospital", Hospital, "654 North Road",
                 "2.1 km", Some("+1-555-NORTH"), true, "24/7")
  ]

  /** The ids of a list of locations, in order. */
  function Ids(locations: seq<SafeLocation>): seq<string> {
    seq(|locations|, i requires 0 <= i < |locations| => locations[i].id)
  }

  lemma CatalogIdsDistinct()
    ensures forall i, j :: 0 <= i < j < |Catalog| ==> Catalog[i].id != Catalog[j].id
  {
  }

  // ---------------------------------------------------------------------
  // Order preservation, stated independently of any filter
  // ---------------------------------------------------------------------

  /** Strictly increasing positions of `b` that spell out `a`. */
  ghost predicate Embeds<T>(a: seq<T>, b: seq<T>, positions: seq<int>) {
    && |positions| == |a|
    && (forall k :: 0 <= k < |a| ==> 0 <= positions[k] < |b| && a[k] == b[positions[k]])
    && (forall k, m :: 0 <= k < m < |a| ==> positions[k] < positions[m])
  }

  /** `a` is obtained from `b` by dropping elements and keeping the order of the rest. */
  ghost predicate IsSubsequence<T>(a: seq<T>, b: seq<T>) {
    exists positions :: Embeds(a, b, positions)
  }

  // ---------------------------------------------------------------------
  // The filter
  // ---------------------------------------------------------------------

  /** The filter value that shows every entry. */
  const AllFilter := "all"

  /** The entries whose `type` equals `selected`, as `Array.filter` keeps them. */
  function KeepType(locations: seq<SafeLocation>, selected: string): (r: seq<SafeLocation>)
    ensures |r| <= |locations|
  {
    if locations == [] then []
    else
      var rest := KeepType(locations[1..], selected);
      if TypeName(locations[0].kind) == selected then [locations[0]] + rest else rest
  }

  /** `filter` by type keeps an entry exactly when it is in the list and has that type. */
  lemma {:induction false} KeepTypeMembership(locations: seq<SafeLocation>, selected: string, l: SafeLocation)
    ensures l in KeepType(locations, selected) <==> l in locations && TypeName(l.kind) == selected
  {
    if locations != [] {
      KeepTypeMembership(locations[1..], selected, l);
      assert locations == [locations[0]] + locations[1..];
    }
  }

  /** The list the component shows for a filter value. */
  function FilterLocations(locations: seq<SafeLocation>, selected: string): seq<SafeLocation> {
    if selected == AllFilter then locations else KeepType(locations, selected)
  }

  /** Positions into the tail of `b`, moved one place right, are positions into `b`. */
  lemma EmbedsInTail<T>(a: seq<T>, b: seq<T>, positions: seq<int>)
    requires b != [] && Embeds(a, b[1..], positions)
    ensures Embeds(a, b, Shifted(positions))
    ensures Embeds([b[0]] + a, b, [0] + Shifted(positions))
  {
    var s := Shifted(positions);
    assert forall k :: 0 <= k < |a| ==> s[k] == positions[k] + 1;
    var a', s' := [b[0]] + a, [0] + s;
    assert forall k :: 0 < k < |a'| ==> a'[k] == a[k - 1] && s'[k] == s[k - 1];
  }

  /** Every position plus one. */
  function Shifted(positions: seq<int>): (r: seq<int>)
    ensures |r| == |positions|
  {
    seq(|positions|, k requires 0 <= k < |positions| => positions[k] + 1)
  }

  lemma {:induction false} KeepTypePreservesOrder(locations: seq<SafeLocation>, selected: string)
    ensures IsSubsequence(KeepType(locations, selected), locations)
  {
    if locations == [] {
      assert Embeds<SafeLocation>([], [], []);
    } else {
      KeepTypePreservesOrder(locations[1..], selected);
      var rest := KeepType(locations[1..], selected);
      var p :| Embeds(rest, locations[1..], p);
      EmbedsInTail(rest, locations, p);
    }
  }

  /** "all" gives the list itself: same entries, same length, same order. */
  lemma FilterAllIsIdentity(locations: seq<SafeLocation>)
    ensures FilterLocations(locations, AllFilter) == locations
    ensures |FilterLocations(locations, AllFilter)| == |locations|
  {
  }

  /** Any other value keeps exactly the entries of that type. */
  lemma FilterKeepsExactlyMatching(locations: seq<SafeLocation>, selected: string, l: SafeLocation)
    requires selected != AllFilter
    ensures l in FilterLocations(locations, selected) <==> l in locations && TypeName(l.kind) == selected
  {
    KeepTypeMembership(locations, selected, l);
  }

  /** Whatever the filter value, the result keeps the list's order and is no longer than it. */
  lemma FilterPreservesOrder(locations: seq<SafeLocation>, selected: string)
    ensures IsSubsequence(FilterLocations(locations, selected), locations)
    ensures |FilterLocations(locations, selected)| <= |locations|
  {
    if selected == AllFilter {
      var identity := seq(|locations|, k requires 0 <= k < |locations| => k);
      assert Embeds(locations, locations, identity);
    } else {
      KeepTypePreservesOrder(locations, selected);
    }
  }

  /** A filter value that names no type (and is not "all") shows nothing. */
  lemma {:induction false} UnknownFilterIsEmpty(locations: seq<SafeLocation>, selected: string)
    requires selected != AllFilter && ParseType(selected).None?
    ensures FilterLocations(locations, selected) == []
  {
    if locations != [] {
      assert TypeName(locations[0].kind) != selected;
      UnknownFilterIsEmpty(locations[1..], selected);
    }
  }

  /** The three type filters split any list: their sizes add up to its size. */
  lemma {:induction false} TypeFiltersPartition(locations: seq<SafeLocation>)
    ensures |FilterLocations(locations, "police")| + |FilterLocations(locations, "hospital")|
          + |FilterLocations(locations, "safe_space")| == |locations|
  {
    if locations != [] {
      TypeFiltersPartition(locations[1..]);
    }
  }

  /** On the shipped catalog "all" lists ids 1 to 5 in order. */
  lemma CatalogAll()
    ensures Ids(FilterLocations(Catalog, AllFilter)) == ["1", "2", "3", "4", "5"]
  {
  }

  /** On the shipped catalog "police" lists id 1. */
  lemma CatalogPolice()
    ensures Ids(FilterLocations(Catalog, "police")) == ["1"]
  {
    var c := Catalog;
    assert KeepType(c, "police") == [c[0]] by {
      assert KeepType(c[4..], "police") == [];
      assert KeepType(c[3..], "police") == [];
      assert KeepType(c[2..], "police") == [];
      assert KeepType(c[1..], "police") == [];
    }
    assert Ids([c[0]]) == ["1"];
  }

  /** On the shipped catalog "hospital" lists ids 2 and 5. */
  lemma CatalogHospital()
    ensures Ids(FilterLocations(Catalog, "hospital")) == ["2", "5"]
  {
    var c := Catalog;
    assert KeepType(c, "hospital") == [c[1], c[4]] by {
      assert KeepType(c[4..], "hospital") == [c[4]];
      assert KeepType(c[3..], "hospital") == [c[4]];
      assert KeepType(c[2..], "hospital") == [c[4]];
      assert KeepType(c[1..], "hospital") == [c[1], c[4]];
    }
    assert Ids([c[1], c[4]]) == ["2", "5"];
  }

  /** On the shipped catalog "safe_space" lists ids 3 and 4. */
  lemma CatalogSafeSpace()
    ensures Ids(FilterLocations(Catalog, "safe_space")) == ["3", "4"]
  {
    var c := Catalog;
    assert KeepType(c, "safe_space") == [c[2], c[3]] by {
      assert KeepType(c[4..], "safe_space") == [];
      assert KeepType(c[3..], "safe_space") == [c[3]];
      assert KeepType(c[2..], "safe_space") == [c[2], c[3]];
      assert KeepType(c[1..], "safe_space") == [c[2], c[3]];
    }
    assert Ids([c[2], c[3]]) == ["3", "4"];
  }

  /** The three type filters together list every catalog entry: 1 + 2 + 2 = 5. */
  lemma CatalogCountsAddUp()
    ensures |FilterLocations(Catalog, "police")| == 1
    ensures |FilterLocations(Catalog, "hospital")| == 2
    ensures |FilterLocations(Catalog, "safe_space")| == 2
    ensures |FilterLocations(Catalog, "police")| + |FilterLocations(Catalog, "hospital")|
          + |FilterLocations(Catalog, "safe_space")| == |Catalog|
  {
  }

  // ---------------------------------------------------------------------
  // Icon and colour tables
  // ---------------------------------------------------------------------

  /** The icon shown for a string that names no location type. */
  const UnknownTypeIcon := "\U{1F4CD}"

  /** The colour class used for a string that names no location type. */
  const UnknownTypeColor := "text-muted-foreground"

  /** The icon shown beside an entry; total over all strings. */
  function LocationIcon(typeName: string): (icon: string)
    ensures icon == UnknownTypeIcon <==> ParseType(typeName).None?
  {
    if typeName == "police" then "\U{1F693}"
    else if typeName == "hospital" then "\U{1F3E5}"
    else if typeName == "safe_space" then "\U{1F6E1}\U{FE0F}"
    else UnknownTypeIcon
  }

  /** The colour class of an entry; total over all strings. */
  function LocationColor(typeName: string): (color: string)
    ensures color == UnknownTypeColor <==> ParseType(typeName).None?
  {
    if typeName == "police" then "text-blue-600"
    else if typeName == "hospital" then "text-red-600"
    else if typeName == "safe_space" then "text-green-600"
    else UnknownTypeColor
  }

  /** Different location types never share an icon or a colour. */
  lemma TypesLookDistinct(a: LocationType, b: LocationType)
    requires a != b
    ensures LocationIcon(TypeName(a)) != LocationIcon(TypeName(b))
    ensures LocationColor(TypeName(a)) != LocationColor(TypeName(b))
  {
  }

  // ---------------------------------------------------------------------
  // The user-location cell
  // ---------------------------------------------------------------------

  /** Coordinates as the browser reports them; the model never computes on them. */
  datatype Coords = Coords(lat: real, lng: real)

  /** What a position request can come to. */
  datatype GeolocationOutcome =
    | Unsupported                       // the browser has no geolocation service
    | PositionReceived(coords: Coords)  // the success callback ran
    | PositionError                     // the error callback ran (it only logs)

  /** The cell after one outcome: a success overwrites it, anything else leaves it alone. */
  function NextUserLocation(cell: Option<Coords>, outcome: GeolocationOutcome): Option<Coords> {
    match outcome
    case PositionReceived(c) => Some(c)
    case _ => cell
  }

  /** The cell after a series of outcomes, oldest first. */
  function ReplayOutcomes(cell: Option<Coords>, outcomes: seq<GeolocationOutcome>): Option<Coords>
    decreases |outcomes|
  {
    if outcomes == [] then cell
    else ReplayOutcomes(NextUserLocation(cell, outcomes[0]), outcomes[1..])
  }

  /** Outcomes that are not successes never change the cell. */
  lemma {:induction false} FailuresKeepLocation(cell: Option<Coords>, outcomes: seq<GeolocationOutcome>)
    requires forall j :: 0 <= j < |outcomes| ==> !outcomes[j].PositionReceived?
    ensures ReplayOutcomes(cell, outcomes) == cell
  {
    if outcomes != [] {
      FailuresKeepLocation(cell, outcomes[1..]);
    }
  }

  /** The newest success wins, whatever came before it. */
  lemma {:induction false} NewestPositionWins(cell: Option<Coords>, outcomes: seq<GeolocationOutcome>, i: nat)
    requires i < |outcomes| && outcomes[i].PositionReceived?
    requires forall j :: i < j < |outcomes| ==> !outcomes[j].PositionReceived?
    ensures ReplayOutcomes(cell, outcomes) == Some(outcomes[i].coords)
    decreases i
  {
    if i == 0 {
      FailuresKeepLocation(Some(outcomes[0].coords), outcomes[1..]);
    } else {
      NewestPositionWins(NextUserLocation(cell, outcomes[0]), outcomes[1..], i - 1);
    }
  }

  // ---------------------------------------------------------------------
  // The component's state
  // ---------------------------------------------------------------------

  /** The values the four filter buttons set. */
  const FilterChoices: seq<string> := [AllFilter, "police", "hospital", "safe_space"]

  class SafeMap {
    var selectedFilter: string
    var userLocation: Option<Coords>

    ghost predicate Valid()
      reads this
    {
      selectedFilter in FilterChoices
    }

    /** The entries listed for the current filter. */
    function Listed(): seq<SafeLocation>
      reads this
    {
      FilterLocations(Catalog, selectedFilter)
    }

    constructor ()
      ensures Valid()
      ensures selectedFilter == AllFilter && userLocation == None
      ensures Listed() == Catalog
    {
      selectedFilter := AllFilter;
      userLocation := None;
    }

    /** A filter button was pressed. */
    method SelectFilter(choice: string)
      requires Valid() && choice in FilterChoices
      modifies this`selectedFilter
      ensures Valid()
      ensures selectedFilter == choice
      ensures userLocation == old(userLocation)
    {
      selectedFilter := choice;
    }

    /** A position request came back. */
    method ReceiveGeolocation(outcome: GeolocationOutcome)
      requires Valid()
      modifies this`userLocation
      ensures Valid()
      ensures userLocation == NextUserLocation(old(userLocation), outcome)
      ensures outcome.PositionReceived? ==> userLocation == Some(outcome.coords)
      ensures !outcome.PositionReceived? ==> userLocation == old(userLocation)
      ensures selectedFilter == old(selectedFilter)
    {
      match outcome {
        case PositionReceived(c) =>
          userLocation := Some(c);
        case PositionError =>
        case Unsupported =>
      }
    }
  }
}

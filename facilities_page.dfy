/** The facilities page: type and status labels, the three-way filter, the
    header counts, the create dialog with its validation, and the
    id-to-location index used to label each row. */
module FacilitiesPage {
  import opened Wrappers
  import opened AuthContext
  import Seqs
  import Text

  datatype Facility = Facility(id: string, locationId: string, name: string, kind: string, status: string,
                               capacity: Nullable<int>)

  datatype Location = Location(id: string, clientId: string, name: string, city: Nullable<string>,
                               country: Nullable<string>)

  /** The create dialog's payload. */
  datatype FacilityForm = FacilityForm(locationId: string, name: string, kind: string, status: string,
                                       capacity: Nullable<int>)

  const NameRequiredMessage := "Facility name is required"
  const SelectLocationMessage := "Please select a location"
  const LoadFailedMessage := "Failed to load facilities"
  const CreateFailedMessage := "Failed to create facility"

  const FacilityTypeLabels: map<string, string> := map[
    "gaming-pc" := "Gaming PC",
    "vr" := "VR",
    "ps4" := "PS4",
    "ps5" := "PS5",
    "xbox" := "XBOX",
    "snooker-table" := "Snooker Table",
    "table-tennis-table" := "Table Tennis Table",
    "futsal-field" := "Futsal Field",
    "cricket-pitch" := "Cricket Pitch",
    "padel-court" := "Padel Court",
    "other" := "Other"
  ]

  /** `FACILITY_TYPE_LABELS[type] || type`. */
  function FormatFacilityType(kind: string): (caption: string)
    ensures kind in FacilityTypeLabels ==> caption == FacilityTypeLabels[kind]
    ensures kind !in FacilityTypeLabels ==> caption == kind
  {
    Text.Or(if kind in FacilityTypeLabels then FacilityTypeLabels[kind] else "", kind)
  }

  lemma FormatFacilityTypeExamples()
    ensures FormatFacilityType("ps5") == "PS5"
    ensures FormatFacilityType("table-tennis-table") == "Table Tennis Table"
    ensures FormatFacilityType("sauna") == "sauna"
    ensures Text.CapitalizeFirst("maintenance") == "Maintenance"
  {
  }

  /** A known type is never shown under its raw key. */
  lemma KnownTypesAreRelabelled(kind: string)
    requires kind in FacilityTypeLabels
    ensures FormatFacilityType(kind) != kind
  {
  }

  /** A form built from scratch: no location, no name, type "other", active. */
  function BlankForm(locationId: string): (f: FacilityForm)
    ensures f.locationId == locationId && f.name == "" && f.kind == "other" && f.status == "active"
    ensures f.capacity.Undefined?
  {
    FacilityForm(locationId, "", "other", "active", Undefined)
  }

  predicate MatchesSearch(f: Facility, query: string)
  {
    query == "" || Text.Includes(Text.ToLower(f.name), Text.ToLower(query))
  }

  predicate MatchesFilters(f: Facility, query: string, kind: string, locationId: string)
  {
    MatchesSearch(f, query) && (kind == "" || f.kind == kind) && (locationId == "" || f.locationId == locationId)
  }

  /** `filteredFacilities`: name search AND type AND location, in list order. */
  function FilterFacilities(facilities: seq<Facility>, query: string, kind: string, locationId: string)
    : (r: seq<Facility>)
    ensures Seqs.IsSubsequence(r, facilities)
    ensures forall i :: 0 <= i < |r| ==>
              MatchesSearch(r[i], query) && (kind == "" || r[i].kind == kind)
              && (locationId == "" || r[i].locationId == locationId)
    ensures forall i :: 0 <= i < |facilities| && MatchesFilters(facilities[i], query, kind, locationId)
              ==> facilities[i] in r
  {
    Seqs.Filter(f => MatchesFilters(f, query, kind, locationId), facilities)
  }

  /** Empty filters keep every facility. */
  lemma NoFilterShowsAll(facilities: seq<Facility>)
    ensures FilterFacilities(facilities, "", "", "") == facilities
  {
    Seqs.FilterKeepsAll(f => MatchesFilters(f, "", "", ""), facilities);
  }

  /** A facility at another location is never listed once a location is picked. */
  lemma LocationFilterExcludes(facilities: seq<Facility>, query: string, kind: string, locationId: string, f: Facility)
    requires locationId != "" && f.locationId != locationId
    ensures f !in FilterFacilities(facilities, query, kind, locationId)
  {
  }

  predicate IsActive(f: Facility)
  {
    f.status == "active"
  }

  predicate InMaintenance(f: Facility)
  {
    f.status == "maintenance"
  }

  datatype Stats = Stats(total: nat, active: nat, maintenance: nat)

  function FacilityStats(facilities: seq<Facility>): (s: Stats)
    ensures s.total == |facilities|
    ensures s.active <= s.total && s.maintenance <= s.total
    ensures facilities == [] ==> s.active == 0 && s.maintenance == 0
  {
    Stats(|facilities|, |Seqs.Filter(IsActive, facilities)|, |Seqs.Filter(InMaintenance, facilities)|)
  }

  /** One more facility adds one to the active count exactly when its status
      is `active`, and one to the maintenance count exactly when it is
      `maintenance`. */
  lemma FacilityStatsStep(facilities: seq<Facility>, f: Facility)
    ensures FacilityStats(facilities + [f]).total == FacilityStats(facilities).total + 1
    ensures FacilityStats(facilities + [f]).active
            == FacilityStats(facilities).active + (if f.status == "active" then 1 else 0)
    ensures FacilityStats(facilities + [f]).maintenance
            == FacilityStats(facilities).maintenance + (if f.status == "maintenance" then 1 else 0)
  {
    Seqs.FilterLengthSnoc(IsActive, facilities, f);
    Seqs.FilterLengthSnoc(InMaintenance, facilities, f);
  }

  lemma ActiveAndMaintenanceAreDisjoint(facilities: seq<Facility>)
    ensures FacilityStats(facilities).active + FacilityStats(facilities).maintenance <= FacilityStats(facilities).total
  {
    Seqs.DisjointFilterLengths(IsActive, InMaintenance, facilities);
  }

  /** The checks `handleSave` makes before calling the server, in order: the
      name (after trimming) first, then the location. */
  function Validate(form: FacilityForm): (problem: Option<string>)
    ensures problem == Some(NameRequiredMessage) <==> Text.AllWhitespace(form.name)
    ensures problem == Some(SelectLocationMessage) <==> !Text.AllWhitespace(form.name) && form.locationId == ""
    ensures problem.None? <==> !Text.AllWhitespace(form.name) && form.locationId != ""
  {
    if Text.Trim(form.name) == "" then Some(NameRequiredMessage)
    else if form.locationId == "" then Some(SelectLocationMessage)
    else None
  }

  /** A blank name is reported whatever the location, so a form failing both
      checks reports the name. */
  lemma NameIsCheckedFirst(form: FacilityForm)
    requires Text.AllWhitespace(form.name)
    ensures Validate(form) == Some(NameRequiredMessage)
    ensures Validate(form.(locationId := "")) == Some(NameRequiredMessage)
  {
  }

  /** The index built by `locationById`: one `set` per location, in order. */
  function IndexById(locations: seq<Location>): (m: map<string, Location>)
  {
    if locations == [] then map[]
    else
      var last := locations[|locations| - 1];
      IndexById(locations[..|locations| - 1])[last.id := last]
  }

  /** `locations[i]` is the last location carrying `id`. */
  predicate IsLastWithId(locations: seq<Location>, i: int, id: string)
  {
    0 <= i < |locations| && locations[i].id == id
    && forall j :: i < j < |locations| ==> locations[j].id != id
  }

  /** Every location's id is a key. */
  lemma {:induction false} IndexByIdHasEveryId(locations: seq<Location>)
    ensures forall i :: 0 <= i < |locations| ==> locations[i].id in IndexById(locations)
  {
    if locations != [] {
      var n := |locations| - 1;
      var prefix := locations[..n];
      IndexByIdHasEveryId(prefix);
      forall i | 0 <= i < n
        ensures locations[i].id in IndexById(locations)
      {
        assert prefix[i] == locations[i];
      }
    }
  }

  /** Nothing but an id is a key, and each key maps to the last location
      carrying that id. */
  lemma {:induction false} IndexByIdLastWins(locations: seq<Location>)
    ensures forall id :: id in IndexById(locations) ==>
              exists i :: IsLastWithId(locations, i, id) && locations[i] == IndexById(locations)[id]
  {
    if locations != [] {
      var n := |locations| - 1;
      var prefix := locations[..n];
      IndexByIdLastWins(prefix);
      var m := IndexById(locations);
      assert m == IndexById(prefix)[locations[n].id := locations[n]];
      forall id | id in m
        ensures exists i :: IsLastWithId(locations, i, id) && locations[i] == m[id]
      {
        if id == locations[n].id {
          assert IsLastWithId(locations, n, id);
        } else {
          var i :| IsLastWithId(prefix, i, id) && prefix[i] == IndexById(prefix)[id];
          assert IsLastWithId(locations, i, id);
        }
      }
    }
  }

  /** The `forEach` that fills the map. */
  method LocationById(locations: seq<Location>) returns (m: map<string, Location>)
    ensures m == IndexById(locations)
  {
    m := map[];
    var i := 0;
    while i < |locations|
      invariant 0 <= i <= |locations|
      invariant m == IndexById(locations[..i])
    {
      assert locations[..i + 1][..i] == locations[..i];
      m := m[locations[i].id := locations[i]];
      i := i + 1;
    }
    assert locations[..|locations|] == locations;
  }

  /** The location column: the location's non-empty name, city and country
      joined by ", ", or the raw location id when the id is not indexed. */
  function LocationLabel(index: map<string, Location>, f: Facility): (caption: string)
    ensures f.locationId !in index ==> caption == f.locationId
    ensures f.locationId in index && Text.Truthy(index[f.locationId].name)
            && !index[f.locationId].city.Defined? && !index[f.locationId].country.Defined?
            ==> caption == index[f.locationId].name
  {
    if f.locationId in index then
      var loc := index[f.locationId];
      var parts := [loc.name] + (if loc.city.Defined? then [loc.city.value] else [])
                   + (if loc.country.Defined? then [loc.country.value] else []);
      Text.Join(Seqs.Filter(Text.Truthy, parts), ", ")
    else
      f.locationId
  }

  lemma LocationLabelExample(f: Facility)
    requires f.locationId == "loc-1"
    ensures LocationLabel(map["loc-1" := Location("loc-1", "c-1", "Arena", Defined("Lahore"), Null)], f)
            == "Arena, Lahore"
    ensures LocationLabel(map[], f) == "loc-1"
  {
    var parts := ["Arena", "Lahore"];
    Seqs.FilterKeepsAll(Text.Truthy, parts);
  }

  /** "Add Facility" shows for clients and, before the profile arrives, for
      nobody-in-particular; never for admins or super admins. */
  function AddFacilityVisible(user: Option<User>): (visible: bool)
    ensures visible <==> user.None? || user.value.role == ClientRole
  {
    IsClient(user) || user.None?
  }

  /** The facilities page state. */
  class Page {
    var facilities: seq<Facility>
    var locations: seq<Location>
    var loading: bool
    var error: Option<string>
    var isModalOpen: bool
    var saving: bool
    var formData: FacilityForm

    constructor ()
      ensures facilities == [] && locations == [] && loading && error.None?
      ensures !isModalOpen && !saving && formData == BlankForm("")
    {
      facilities := [];
      locations := [];
      loading := true;
      error := None;
      isModalOpen := false;
      saving := false;
      formData := BlankForm("");
    }

    /** `loadData`: both lists arrive together or the first failure's message
        (or a default) is shown; loading ends either way. */
    method LoadData(reply: Result<(seq<Facility>, seq<Location>)>)
      modifies this
      ensures !loading
      ensures reply.Success? ==> facilities == reply.value.0 && locations == reply.value.1 && error.None?
      ensures reply.Failure? ==> facilities == old(facilities) && locations == old(locations)
                                 && error == Some(Text.Or(reply.message, LoadFailedMessage))
      ensures isModalOpen == old(isModalOpen) && saving == old(saving) && formData == old(formData)
    {
      loading := true;
      error := None;
      if reply.Success? {
        facilities := reply.value.0;
        locations := reply.value.1;
      } else {
        error := Some(Text.Or(reply.message, LoadFailedMessage));
      }
      loading := false;
    }

    /** `openCreateModal`: a blank form preset to the first location, if any. */
    method OpenCreateModal()
      modifies this
      ensures isModalOpen
      ensures |locations| > 0 ==> formData == BlankForm(locations[0].id)
      ensures |locations| == 0 ==> formData == BlankForm("")
      ensures facilities == old(facilities) && locations == old(locations) && loading == old(loading)
      ensures error == old(error) && saving == old(saving)
    {
      formData := BlankForm(if |locations| > 0 then locations[0].id else "");
      isModalOpen := true;
    }

    method CloseModal()
      modifies this
      ensures !isModalOpen && formData == BlankForm("")
      ensures facilities == old(facilities) && locations == old(locations) && loading == old(loading)
      ensures error == old(error) && saving == old(saving)
    {
      isModalOpen := false;
      formData := BlankForm("");
    }

    /** `handleSave`: a form that fails validation only sets the error and
        sends nothing; otherwise the form is sent, and a success reloads both
        lists and closes the dialog while a failure keeps it open. */
    method HandleSave(createReply: Result<()>, reloadReply: Result<(seq<Facility>, seq<Location>)>)
      returns (sent: Option<FacilityForm>)
      modifies this
      ensures Validate(old(formData)).Some? ==>
                sent.None? && error == Validate(old(formData)) && facilities == old(facilities)
                && locations == old(locations) && formData == old(formData) && isModalOpen == old(isModalOpen)
                && saving == old(saving) && loading == old(loading)
      ensures Validate(old(formData)).None? ==> sent == Some(old(formData)) && !saving
      ensures Validate(old(formData)).None? && createReply.Success? ==>
                !isModalOpen && formData == BlankForm("") && !loading
                && (reloadReply.Success? ==>
                      facilities == reloadReply.value.0 && locations == reloadReply.value.1 && error.None?)
                && (reloadReply.Failure? ==>
                      facilities == old(facilities) && locations == old(locations)
                      && error == Some(Text.Or(reloadReply.message, LoadFailedMessage)))
      ensures Validate(old(formData)).None? && createReply.Failure? ==>
                error == Some(Text.Or(createReply.message, CreateFailedMessage))
                && facilities == old(facilities) && locations == old(locations)
                && formData == old(formData) && isModalOpen == old(isModalOpen) && loading == old(loading)
    {
      if Text.Trim(formData.name) == "" {
        error := Some(NameRequiredMessage);
        sent := None;
        return;
      }
      if formData.locationId == "" {
        error := Some(SelectLocationMessage);
        sent := None;
        return;
      }
      saving := true;
      error := None;
      sent := Some(formData);
      if createReply.Success? {
        LoadData(reloadReply);
        CloseModal();
      } else {
        error := Some(Text.Or(createReply.message, CreateFailedMessage));
      }
      saving := false;
    }
  }
}

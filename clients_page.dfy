/** The businesses page: status labels and badges, the search and status
    filter, the header counts, and the edit dialog that merges the server's
    record back into the list. */
module ClientsPage {
  import opened Wrappers
  import Seqs
  import Text

  /** A business as the list endpoint returns it. Optional fields may be
      missing, `null` or set. */
  datatype ClientSummary = ClientSummary(
    id: string,
    userId: string,
    companyName: string,
    contactName: Nullable<string>,
    email: Nullable<string>,
    phone: Nullable<string>,
    city: Nullable<string>,
    country: Nullable<string>,
    status: string,
    logoUrl: Nullable<string>,
    locationsCount: Nullable<int>,
    facilitiesCount: Nullable<int>)

  /** The record the update endpoint answers with: the required fields are
      there, any optional one may be missing from the JSON. */
  datatype ClientUpdate = ClientUpdate(
    id: string,
    userId: string,
    companyName: string,
    contactName: Nullable<string>,
    email: Nullable<string>,
    phone: Nullable<string>,
    city: Nullable<string>,
    country: Nullable<string>,
    status: string,
    logoUrl: Nullable<string>,
    locationsCount: Nullable<int>,
    facilitiesCount: Nullable<int>)

  /** The edit dialog's fields (the part of the update payload it edits). */
  datatype EditForm = EditForm(
    companyName: Nullable<string>,
    contactName: Nullable<string>,
    email: Nullable<string>,
    phone: Nullable<string>,
    city: Nullable<string>,
    country: Nullable<string>,
    logoUrl: Nullable<string>)

  const EmptyForm := EditForm(Undefined, Undefined, Undefined, Undefined, Undefined, Undefined, Undefined)

  const LoadFailedMessage := "Failed to load businesses"
  const UpdateFailedMessage := "Failed to update business"

  /** The status label is the status with its first letter upper-cased
      (`Text.CapitalizeFirst`). */
  lemma FormatStatusExamples()
    ensures Text.CapitalizeFirst("pending") == "Pending"
    ensures Text.CapitalizeFirst("active") == "Active"
  {
  }

  const SuccessBadge := "bg-success/10 text-success"
  const WarningBadge := "bg-warning/10 text-warning"
  const ErrorBadge := "bg-error/10 text-error"
  const NeutralBadge := "bg-border text-text-secondary"

  /** The badge colour of a status. */
  function StatusBadgeClasses(status: string): (classes: string)
    ensures classes == SuccessBadge <==> status == "active" || status == "approved"
    ensures classes == WarningBadge <==> status == "pending"
    ensures classes == ErrorBadge <==> status == "rejected" || status == "suspended"
    ensures classes in {SuccessBadge, WarningBadge, ErrorBadge, NeutralBadge}
  {
    match status
    case "active" => SuccessBadge
    case "approved" => SuccessBadge
    case "pending" => WarningBadge
    case "rejected" => ErrorBadge
    case "suspended" => ErrorBadge
    case _ => NeutralBadge
  }

  /** Every status the backend declares gets a coloured badge; the neutral
      one is only for a status outside that list. */
  lemma DeclaredStatusesAreColoured(status: string)
    requires status in {"pending", "approved", "rejected", "suspended", "active"}
    ensures StatusBadgeClasses(status) != NeutralBadge
  {
  }

  /** An optional text field takes part in the search only when it is set
      and non-empty. */
  predicate FieldMatches(field: Nullable<string>, query: string)
  {
    field.Defined? && field.value != "" && Text.Includes(Text.ToLower(field.value), Text.ToLower(query))
  }

  predicate MatchesSearch(c: ClientSummary, query: string)
  {
    query == ""
    || Text.Includes(Text.ToLower(c.companyName), Text.ToLower(query))
    || FieldMatches(c.contactName, query)
    || FieldMatches(c.city, query)
  }

  predicate MatchesStatus(c: ClientSummary, statusFilter: string)
  {
    statusFilter == "" || c.status == statusFilter
  }

  /** `filteredClients`: search AND status, in list order. */
  function FilterClients(clients: seq<ClientSummary>, query: string, statusFilter: string): (r: seq<ClientSummary>)
    ensures Seqs.IsSubsequence(r, clients)
    ensures forall i :: 0 <= i < |r| ==> MatchesSearch(r[i], query) && MatchesStatus(r[i], statusFilter)
    ensures forall i :: 0 <= i < |clients| && MatchesSearch(clients[i], query) && MatchesStatus(clients[i], statusFilter)
              ==> clients[i] in r
  {
    Seqs.Filter(c => MatchesSearch(c, query) && MatchesStatus(c, statusFilter), clients)
  }

  /** With neither a query nor a status, the whole list shows. */
  lemma NoFilterShowsAll(clients: seq<ClientSummary>)
    ensures FilterClients(clients, "", "") == clients
  {
    Seqs.FilterKeepsAll(c => MatchesSearch(c, "") && MatchesStatus(c, ""), clients);
  }

  /** A company name that contains the query as typed makes a match. */
  lemma NameContainingQueryMatches(c: ClientSummary, query: string)
    requires query != "" && Text.Includes(c.companyName, query)
    ensures MatchesSearch(c, query)
  {
    Text.IncludesIgnoringCase(c.companyName, query);
  }

  /** The search ignores ASCII case in the query: two queries that agree
      once lower-cased select the same businesses. */
  lemma SearchIgnoresCase(c: ClientSummary, q1: string, q2: string)
    requires Text.ToLower(q1) == Text.ToLower(q2)
    ensures MatchesSearch(c, q1) <==> MatchesSearch(c, q2)
  {
  }

  /** ... and in the company name: two businesses whose names agree once
      lower-cased match the same queries. */
  lemma SearchIgnoresNameCase(c: ClientSummary, name: string, query: string)
    requires Text.ToLower(name) == Text.ToLower(c.companyName)
    ensures MatchesSearch(c, query) <==> MatchesSearch(c.(companyName := name), query)
  {
  }

  /** A null or empty city never makes a business match. */
  lemma BlankCityNeverMatches(c: ClientSummary, query: string)
    requires c.city.Null? || c.city == Defined("")
    ensures !FieldMatches(c.city, query)
  {
  }

  predicate IsPending(c: ClientSummary)
  {
    c.status == "pending"
  }

  predicate IsActive(c: ClientSummary)
  {
    c.status == "active"
  }

  datatype Stats = Stats(total: nat, pending: nat, active: nat)

  /** The header counts, over the unfiltered list. */
  function ClientStats(clients: seq<ClientSummary>): (s: Stats)
    ensures s.total == |clients|
    ensures s.pending <= s.total && s.active <= s.total
    ensures clients == [] ==> s.pending == 0 && s.active == 0
  {
    Stats(|clients|, |Seqs.Filter(IsPending, clients)|, |Seqs.Filter(IsActive, clients)|)
  }

  /** One more business adds one to the pending count exactly when its status
      is `pending`, and one to the active count exactly when it is `active`. */
  lemma ClientStatsStep(clients: seq<ClientSummary>, c: ClientSummary)
    ensures ClientStats(clients + [c]).total == ClientStats(clients).total + 1
    ensures ClientStats(clients + [c]).pending == ClientStats(clients).pending + (if c.status == "pending" then 1 else 0)
    ensures ClientStats(clients + [c]).active == ClientStats(clients).active + (if c.status == "active" then 1 else 0)
  {
    Seqs.FilterLengthSnoc(IsPending, clients, c);
    Seqs.FilterLengthSnoc(IsActive, clients, c);
  }

  lemma PendingAndActiveAreDisjoint(clients: seq<ClientSummary>)
    ensures ClientStats(clients).pending + ClientStats(clients).active <= ClientStats(clients).total
  {
    Seqs.DisjointFilterLengths(IsPending, IsActive, clients);
  }

  /** The form field shows the stored value, or the empty string when the
      stored field is missing or `null`. */
  predicate CopiedOrBlank(stored: Nullable<string>, edited: Nullable<string>)
  {
    (stored.Defined? ==> edited == stored) && (!stored.Defined? ==> edited == Defined(""))
  }

  /** The form `openEdit` fills: every edited field set, missing or `null`
      ones as the empty string. */
  function FormFor(c: ClientSummary): (f: EditForm)
    ensures f.companyName == Defined(c.companyName)
    ensures CopiedOrBlank(c.contactName, f.contactName) && CopiedOrBlank(c.email, f.email)
    ensures CopiedOrBlank(c.phone, f.phone) && CopiedOrBlank(c.city, f.city)
    ensures CopiedOrBlank(c.country, f.country) && CopiedOrBlank(c.logoUrl, f.logoUrl)
  {
    EditForm(
      Defined(c.companyName),
      Defined(c.contactName.OrDefault("")),
      Defined(c.email.OrDefault("")),
      Defined(c.phone.OrDefault("")),
      Defined(c.city.OrDefault("")),
      Defined(c.country.OrDefault("")),
      Defined(c.logoUrl.OrDefault("")))
  }

  /** `{ ...c, ...updated }`: a field the answer carries wins, a field it
      leaves out keeps the stored value. */
  function Pick<T>(stored: Nullable<T>, answered: Nullable<T>): (r: Nullable<T>)
    ensures answered.Undefined? ==> r == stored
    ensures !answered.Undefined? ==> r == answered
  {
    if answered.Undefined? then stored else answered
  }

  function Merge(c: ClientSummary, u: ClientUpdate): (r: ClientSummary)
    ensures r.id == u.id && r.userId == u.userId && r.companyName == u.companyName && r.status == u.status
    ensures r.contactName == Pick(c.contactName, u.contactName) && r.email == Pick(c.email, u.email)
    ensures r.phone == Pick(c.phone, u.phone) && r.city == Pick(c.city, u.city)
    ensures r.country == Pick(c.country, u.country) && r.logoUrl == Pick(c.logoUrl, u.logoUrl)
    ensures r.locationsCount == Pick(c.locationsCount, u.locationsCount)
    ensures r.facilitiesCount == Pick(c.facilitiesCount, u.facilitiesCount)
  {
    ClientSummary(
      u.id, u.userId, u.companyName,
      Pick(c.contactName, u.contactName), Pick(c.email, u.email), Pick(c.phone, u.phone),
      Pick(c.city, u.city), Pick(c.country, u.country), u.status, Pick(c.logoUrl, u.logoUrl),
      Pick(c.locationsCount, u.locationsCount), Pick(c.facilitiesCount, u.facilitiesCount))
  }

  /** Merging the same answer twice changes nothing more. */
  lemma MergeIdempotent(c: ClientSummary, u: ClientUpdate)
    ensures Merge(Merge(c, u), u) == Merge(c, u)
  {
  }

  /** An answer that carries every field replaces the stored record outright. */
  lemma FullAnswerReplaces(c: ClientSummary, u: ClientUpdate)
    requires !u.contactName.Undefined? && !u.email.Undefined? && !u.phone.Undefined? && !u.city.Undefined?
    requires !u.country.Undefined? && !u.logoUrl.Undefined? && !u.locationsCount.Undefined? && !u.facilitiesCount.Undefined?
    ensures Merge(c, u) == ClientSummary(u.id, u.userId, u.companyName, u.contactName, u.email, u.phone,
                                         u.city, u.country, u.status, u.logoUrl, u.locationsCount, u.facilitiesCount)
  {
  }

  /** `prev.map(c => c.id === updated.id ? { ...c, ...updated } : c)`: only
      the entries with the answer's id change. */
  function MergeById(clients: seq<ClientSummary>, u: ClientUpdate): (r: seq<ClientSummary>)
    ensures |r| == |clients|
    ensures forall i :: 0 <= i < |clients| && clients[i].id != u.id ==> r[i] == clients[i]
    ensures forall i :: 0 <= i < |clients| && clients[i].id == u.id ==> r[i] == Merge(clients[i], u)
  {
    seq(|clients|, i requires 0 <= i < |clients| => if clients[i].id == u.id then Merge(clients[i], u) else clients[i])
  }

  /** Merging keeps every entry's id, so the ids on the page never change. */
  lemma MergeByIdKeepsIds(clients: seq<ClientSummary>, u: ClientUpdate, i: nat)
    requires i < |clients|
    ensures MergeById(clients, u)[i].id == clients[i].id
  {
  }

  /** The businesses page state. */
  class Page {
    var clients: seq<ClientSummary>
    var loading: bool
    var error: Option<string>
    var editingClient: Option<ClientSummary>
    var editForm: EditForm
    var editError: Option<string>
    var savingEdit: bool

    constructor ()
      ensures clients == [] && loading && error.None?
      ensures editingClient.None? && editForm == EmptyForm && editError.None? && !savingEdit
    {
      clients := [];
      loading := true;
      error := None;
      editingClient := None;
      editForm := EmptyForm;
      editError := None;
      savingEdit := false;
    }

    /** The mount effect's `loadClients`. */
    method LoadClients(reply: Result<seq<ClientSummary>>)
      modifies this
      ensures !loading
      ensures reply.Success? ==> clients == reply.value && error.None?
      ensures reply.Failure? ==> clients == old(clients) && error == Some(Text.Or(reply.message, LoadFailedMessage))
      ensures editingClient == old(editingClient) && editForm == old(editForm)
      ensures editError == old(editError) && savingEdit == old(savingEdit)
    {
      loading := true;
      error := None;
      if reply.Success? {
        clients := reply.value;
      } else {
        error := Some(Text.Or(reply.message, LoadFailedMessage));
      }
      loading := false;
    }

    method OpenEdit(c: ClientSummary)
      modifies this
      ensures editingClient == Some(c) && editForm == FormFor(c) && editError.None?
      ensures clients == old(clients) && loading == old(loading) && error == old(error)
      ensures savingEdit == old(savingEdit)
    {
      editingClient := Some(c);
      editError := None;
      editForm := FormFor(c);
    }

    method CloseEdit()
      modifies this
      ensures editingClient.None? && editForm == EmptyForm && editError.None? && !savingEdit
      ensures clients == old(clients) && loading == old(loading) && error == old(error)
    {
      editingClient := None;
      editForm := EmptyForm;
      editError := None;
      savingEdit := false;
    }

    /** `handleSaveEdit`: nothing without an open dialog; otherwise the form
        is sent for the edited business's id, a success merges the answer by
        its own id and closes the dialog, a failure keeps the dialog open
        with the error. */
    method HandleSaveEdit(reply: Result<ClientUpdate>) returns (request: Option<(string, EditForm)>)
      modifies this
      ensures old(editingClient).None? ==>
                request.None? && clients == old(clients) && editForm == old(editForm)
                && editError == old(editError) && savingEdit == old(savingEdit) && editingClient.None?
      ensures old(editingClient).Some? ==> request == Some((old(editingClient).value.id, old(editForm)))
      ensures old(editingClient).Some? && reply.Success? ==>
                clients == MergeById(old(clients), reply.value)
                && editingClient.None? && editForm == EmptyForm && editError.None?
      ensures old(editingClient).Some? && reply.Failure? ==>
                clients == old(clients) && editingClient == old(editingClient) && editForm == old(editForm)
                && editError == Some(Text.Or(reply.message, UpdateFailedMessage))
      ensures old(editingClient).Some? ==> !savingEdit
      ensures loading == old(loading) && error == old(error)
    {
      if editingClient.None? {
        request := None;
        return;
      }
      savingEdit := true;
      editError := None;
      request := Some((editingClient.value.id, editForm));
      if reply.Success? {
        clients := MergeById(clients, reply.value);
        CloseEdit();
      } else {
        editError := Some(Text.Or(reply.message, UpdateFailedMessage));
      }
      savingEdit := false;
    }
  }
}

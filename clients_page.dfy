/** The state of the client list page: the loaded clients, the search term,
    the edit modal and the open row menu, with the handlers that update them. */
module ClientsPage {
  import opened Wrappers
  import opened JsText
  import opened RecordAccess
  import opened ClientService
  import JsNumbers

  /** `r` is `s` with some elements left out and the rest in their order. */
  predicate IsSubsequence<T(==)>(r: seq<T>, s: seq<T>)
    decreases |s|
  {
    if r == [] then true
    else if s == [] then false
    else if r[0] == s[0] then IsSubsequence(r[1..], s[1..])
    else IsSubsequence(r, s[1..])
  }

  /** `s.filter(p)`: the elements that satisfy `p`, in their order. */
  function Keep<T(==,!new)>(s: seq<T>, p: T -> bool): (r: seq<T>)
    ensures |r| <= |s|
    ensures forall x :: x in r ==> x in s && p(x)
    ensures forall x :: x in s && p(x) ==> x in r
    ensures IsSubsequence(r, s)
    ensures |r| == |s| <==> forall x :: x in s ==> p(x)
    ensures forall x :: multiset(r)[x] == if p(x) then multiset(s)[x] else 0
  {
    if s == [] then []
    else
      var tail := Keep(s[1..], p);
      assert s == [s[0]] + s[1..];
      if p(s[0]) then
        [s[0]] + tail
      else
        assert IsSubsequence(tail, s) by {
          SubsequenceSkipHead(tail, s);
        }
        assert |tail| < |s| && !(forall x :: x in s ==> p(x));
        tail
  }

  /** A subsequence of the tail is a subsequence of the whole. */
  lemma {:induction false} SubsequenceSkipHead<T>(r: seq<T>, s: seq<T>)
    requires s != [] && IsSubsequence(r, s[1..])
    ensures IsSubsequence(r, s)
    decreases |s|, 0
  {
    if r != [] && r[0] == s[0] {
      SubsequenceDropHead(r, s[1..]);
    }
  }

  /** Leaving out the first element of a subsequence keeps it one. */
  lemma {:induction false} SubsequenceDropHead<T>(r: seq<T>, t: seq<T>)
    requires r != [] && IsSubsequence(r, t)
    ensures IsSubsequence(r[1..], t)
    decreases |t|, 1
  {
    assert t != [];
    if r[0] == t[0] {
      if r[1..] != [] {
        SubsequenceSkipHead(r[1..], t);
      }
    } else {
      SubsequenceDropHead(r, t[1..]);
      if r[1..] != [] {
        SubsequenceSkipHead(r[1..], t);
      }
    }
  }

  /** The list after `handleClientUpdated`: every client with the same `Id`
      is replaced, every other one kept, in place. */
  function ReplaceById(clients: seq<Client>, updated: Client): (r: seq<Client>)
    ensures |r| == |clients|
    ensures forall i :: 0 <= i < |clients| && clients[i].Id == updated.Id ==> r[i] == updated
    ensures forall i :: 0 <= i < |clients| && clients[i].Id != updated.Id ==> r[i] == clients[i]
  {
    seq(|clients|, i requires 0 <= i < |clients| => if clients[i].Id == updated.Id then updated else clients[i])
  }

  /** The list after a delete: the clients whose `Id` differs, in order. */
  function RemoveById(clients: seq<Client>, id: int): (r: seq<Client>)
    ensures forall c :: c in r ==> c in clients && c.Id != id
    ensures forall c :: c in clients && c.Id != id ==> c in r
    ensures IsSubsequence(r, clients)
    ensures forall c :: multiset(r)[c] == if c.Id != id then multiset(clients)[c] else 0
  {
    Keep(clients, (c: Client) => c.Id != id)
  }

  /** `(text?.toLowerCase() || '').includes(term.toLowerCase())`. */
  predicate FieldMatches(text: Option<string>, term: string)
    ensures term == "" ==> FieldMatches(text, term)
    ensures FieldMatches(text, term) ==> |term| <= |text.GetOr("")|
  {
    Includes(Lower(text.GetOr("")), Lower(term))
  }

  /** The search predicate as written: it reads `client.name`, a key the
      stored client records do not have (they carry `Name`), so the name part
      always compares against the empty string. */
  predicate MatchesSearchAsWritten(c: Client, term: string)
    ensures term != "" ==>
      (MatchesSearchAsWritten(c, term) <==> FieldMatches(c.email, term) || FieldMatches(c.company, term))
  {
    FieldMatches(None, term) || FieldMatches(c.email, term) || FieldMatches(c.company, term)
  }

  /** The search predicate over the name the page shows (`Name`), the email
      and the company. */
  predicate MatchesSearch(c: Client, term: string)
    ensures term == "" ==> MatchesSearch(c, term)
    ensures FieldMatches(c.Name, term) ==> MatchesSearch(c, term)
    ensures MatchesSearchAsWritten(c, term) ==> MatchesSearch(c, term)
  {
    FieldMatches(c.Name, term) || FieldMatches(c.email, term) || FieldMatches(c.company, term)
  }

  /** `filteredClients`. */
  function Filtered(clients: seq<Client>, term: string): (r: seq<Client>)
    ensures IsSubsequence(r, clients)
    ensures forall c :: c in r <==> c in clients && MatchesSearch(c, term)
    ensures forall c :: multiset(r)[c] == if MatchesSearch(c, term) then multiset(clients)[c] else 0
  {
    Keep(clients, (c: Client) => MatchesSearch(c, term))
  }

  /** An empty search term keeps every client, in order. */
  lemma EmptySearchKeepsAll(clients: seq<Client>)
    ensures Filtered(clients, "") == clients
  {
    assert forall c :: MatchesSearch(c, "");
    KeepAll(clients, (c: Client) => MatchesSearch(c, ""));
  }

  lemma {:induction false} KeepAll<T(!new)>(s: seq<T>, p: T -> bool)
    requires forall x :: x in s ==> p(x)
    ensures Keep(s, p) == s
  {
    if s != [] {
      KeepAll(s[1..], p);
    }
  }

  /** Counterexample for the search as written: a client named "Acme", with
      no email or company on record, is not found by the term "acme", while
      the name-aware search finds it. */
  lemma SearchAsWrittenMissesName()
    ensures var c := Client(1, Some("Acme"), None, None, Some("active"), None, None, None);
      !MatchesSearchAsWritten(c, "acme") && MatchesSearch(c, "acme")
  {
  }

  /** The list update of `handleDeleteClient` as written: any outcome that
      does not throw removes the client, including `false`, the result of a
      delete in which no record was deleted. */
  function AfterDeleteAsWritten(clients: seq<Client>, id: int, outcome: Outcome<bool>): (r: seq<Client>)
    ensures outcome.Returned? ==> r == RemoveById(clients, id)
    ensures outcome.Returned? ==> forall c :: c in r ==> c.Id != id
    ensures outcome.Threw? ==> r == clients
  {
    if outcome.Returned? then RemoveById(clients, id) else clients
  }

  /** The list update after a delete: the client is removed only when the
      service reports that a record was deleted. */
  function AfterDelete(clients: seq<Client>, id: int, outcome: Outcome<bool>): (r: seq<Client>)
    ensures outcome == Returned(true) ==> r == RemoveById(clients, id)
    ensures outcome == Returned(true) ==> forall c :: c in r ==> c.Id != id
    ensures outcome != Returned(true) ==> r == clients
    ensures IsSubsequence(r, clients)
  {
    if outcome == Returned(true) then RemoveById(clients, id)
    else
      assert IsSubsequence(clients, clients) by { SubsequenceReflexive(clients); }
      clients
  }

  lemma {:induction false} SubsequenceReflexive<T>(s: seq<T>)
    ensures IsSubsequence(s, s)
  {
    if s != [] { SubsequenceReflexive(s[1..]); }
  }

  /** The toast `handleDeleteClient` shows as written: success whenever the
      delete did not throw. */
  function DeleteToastAsWritten(outcome: Outcome<bool>): (t: string)
    ensures t == "Client deleted successfully" <==> outcome.Returned?
    ensures t == "Failed to delete client" <==> outcome.Threw?
  {
    if outcome.Returned? then "Client deleted successfully" else "Failed to delete client"
  }

  /** The toast after a delete: success only when a record was deleted. */
  function DeleteToast(outcome: Outcome<bool>): (t: string)
    ensures t == "Client deleted successfully" <==> outcome == Returned(true)
    ensures t == "Failed to delete client" <==> outcome != Returned(true)
  {
    if outcome == Returned(true) then "Client deleted successfully" else "Failed to delete client"
  }

  /** Counterexample for the delete as written: when the backend answers
      with success but a failed per-record result, `deleteClient` returns
      false, yet the row disappears from the page and the success toast is
      shown. */
  lemma DeleteAsWrittenDropsUndeletedClient(c: Client)
    ensures var env: Envelope<Client, Client> := Envelope(true, None, None, Some([Failed([], Some("Record is locked"))]));
      var outcome := DeleteClient(JsNumbers.Num(c.Id), env).reply.outcome;
      && outcome == Returned(false)
      && AfterDeleteAsWritten([c], c.Id, outcome) == [] && DeleteToastAsWritten(outcome) == "Client deleted successfully"
      && AfterDelete([c], c.Id, outcome) == [c] && DeleteToast(outcome) == "Failed to delete client"
  {
  }

  /** The menu toggle: the row's menu closes when it was the open one and
      opens (closing any other) otherwise. */
  function ToggleMenu(open: Option<int>, id: int): (r: Option<int>)
    ensures r == Some(id) <==> open != Some(id)
    ensures r != Some(id) ==> r.None?
  {
    if open == Some(id) then None else Some(id)
  }

  class ClientsPageState {
    var clients: seq<Client>
    var loading: bool
    var error: string
    var searchTerm: string
    var showModal: bool
    var editingClient: Option<Client>
    var openDropdown: Option<int>

    /** The initial state of the page before the first load. */
    constructor ()
      ensures clients == [] && loading && error == "" && searchTerm == ""
      ensures !showModal && editingClient.None? && openDropdown.None?
    {
      clients, loading, error, searchTerm := [], true, "", "";
      showModal, editingClient, openDropdown := false, None, None;
    }

    /** `loadClients`, given the backend's answer to the list request. */
    method LoadClients(env: Envelope<seq<Client>, Client>) returns (notices: seq<string>)
      modifies this`clients, this`loading, this`error
      ensures !loading
      ensures GetAllClients(env).Returned? ==> clients == GetAllClients(env).value && error == "" && notices == []
      ensures GetAllClients(env).Threw? ==> clients == old(clients) && error == "Failed to load clients. Please try again."
      ensures GetAllClients(env).Threw? ==> notices == ["Failed to load clients"]
    {
      loading := true;
      error := "";
      var outcome := GetAllClients(env);
      match outcome {
        case Returned(data) =>
          clients := data;
          notices := [];
        case Threw(_) =>
          error := "Failed to load clients. Please try again.";
          notices := ["Failed to load clients"];
      }
      loading := false;
    }

    /** `handleClientCreated`: the new client goes to the end. */
    method HandleClientCreated(created: Client)
      modifies this`clients
      ensures clients == old(clients) + [created]
      ensures |clients| == |old(clients)| + 1 && clients[..|old(clients)|] == old(clients)
    {
      clients := clients + [created];
    }

    /** `handleClientUpdated`: clients with the same `Id` are replaced in place. */
    method HandleClientUpdated(updated: Client)
      modifies this`clients
      ensures clients == ReplaceById(old(clients), updated)
    {
      clients := ReplaceById(clients, updated);
    }

    /** `handleEditClient`. */
    method HandleEditClient(client: Client)
      modifies this`editingClient, this`showModal, this`openDropdown
      ensures editingClient == Some(client) && showModal && openDropdown.None?
    {
      editingClient := Some(client);
      showModal := true;
      openDropdown := None;
    }

    /** `handleDeleteClient`, given whether the user confirmed and the
      backend's answer. The menu closes in every case; the list changes only
      after a delete that removed a record. */
    method HandleDeleteClient(id: int, confirmed: bool, env: Envelope<Client, Client>) returns (notices: seq<string>)
      modifies this`clients, this`openDropdown
      ensures openDropdown.None?
      ensures !confirmed ==> clients == old(clients) && notices == []
      ensures confirmed ==> clients == AfterDelete(old(clients), id, DeleteClient(JsNumbers.Num(id), env).reply.outcome)
      ensures confirmed ==>
        var reply := DeleteClient(JsNumbers.Num(id), env).reply;
        notices == reply.notices + [DeleteToast(reply.outcome)]
    {
      notices := [];
      if confirmed {
        var reply := DeleteClient(JsNumbers.Num(id), env).reply;
        clients := AfterDelete(clients, id, reply.outcome);
        notices := reply.notices + [DeleteToast(reply.outcome)];
      }
      openDropdown := None;
    }

    /** `handleMenuToggle`. */
    method HandleMenuToggle(id: int)
      modifies this`openDropdown
      ensures openDropdown == ToggleMenu(old(openDropdown), id)
    {
      openDropdown := if openDropdown == Some(id) then None else Some(id);
    }

    /** The "add client" buttons: open the modal, leaving `editingClient`
      as it is. */
    method OpenModal()
      modifies this`showModal
      ensures showModal
    {
      showModal := true;
    }

    /** The modal's `onClose`: hides it and forgets the client being edited. */
    method CloseModal()
      modifies this`showModal, this`editingClient
      ensures !showModal && editingClient.None?
    {
      showModal := false;
      editingClient := None;
    }

    /** The search box. */
    method SetSearchTerm(term: string)
      modifies this`searchTerm
      ensures searchTerm == term
    {
      searchTerm := term;
    }

    /** `filteredClients`: the clients the page shows. */
    function FilteredClients(): (r: seq<Client>)
      reads this
      ensures IsSubsequence(r, clients)
      ensures forall c :: c in r <==> c in clients && MatchesSearch(c, searchTerm)
      ensures forall c :: multiset(r)[c] == if MatchesSearch(c, searchTerm) then multiset(clients)[c] else 0
      ensures searchTerm == "" ==> r == clients
    {
      EmptySearchKeepsAll(clients);
      Filtered(clients, searchTerm)
    }
  }
}

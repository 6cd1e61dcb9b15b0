/** The clients page: the search filter, the add/edit form with its nine text
    fields, and the two-step delete. */
module Clients {
  import opened Types
  import opened Collections
  import opened Text
  import opened Store

  /** A client is listed when its lower-cased name contains the lower-cased
      term or its phone contains the term as typed. */
  predicate Matches(term: string, c: Client) {
    Contains(Lower(c.name), Lower(term)) || Contains(c.phone, term)
  }

  function Search(term: string): Client -> bool {
    (c: Client) => Matches(term, c)
  }

  /** `filteredClients`, in store order. */
  function FilteredClients(clients: seq<Client>, term: string): (r: seq<Client>)
    ensures |r| <= |clients|
    ensures forall c :: c in r <==> c in clients && Matches(term, c)
  {
    Filter(clients, Search(term))
  }

  /** An empty search lists every client, in store order. */
  lemma EmptySearchKeepsAll(clients: seq<Client>)
    ensures FilteredClients(clients, "") == clients
  {
    forall c | c in clients ensures Search("")(c) {
      ContainsEmpty(Lower(c.name));
    }
    FilterKeepsAll(clients, Search(""));
  }

  /** Searching a sub-list lists exactly the matching clients of each part. */
  lemma SearchKeepsOrder(a: seq<Client>, b: seq<Client>, term: string)
    ensures FilteredClients(a + b, term) == FilteredClients(a, term) + FilteredClients(b, term)
  {
    FilterConcat(a, b, Search(term));
  }

  /** The nine text fields of the client form. */
  datatype ClientForm = ClientForm(
    name: string,
    phone: string,
    street: string,
    number: string,
    complement: string,
    neighborhood: string,
    city: string,
    state: string,
    zipCode: string)

  const EmptyForm := ClientForm("", "", "", "", "", "", "", "", "")

  /** `handleOpenEditModal`: the form shows the client's fields, a missing
      address field as the empty string. */
  function FormFor(c: Client): (f: ClientForm)
    ensures f.name == c.name && f.phone == c.phone
    ensures f.street == Or(c.street, "") && f.number == Or(c.number, "")
    ensures f.complement == Or(c.complement, "") && f.neighborhood == Or(c.neighborhood, "")
    ensures f.city == Or(c.city, "") && f.state == Or(c.state, "") && f.zipCode == Or(c.zipCode, "")
  {
    ClientForm(c.name, c.phone, Or(c.street, ""), Or(c.number, ""), Or(c.complement, ""),
               Or(c.neighborhood, ""), Or(c.city, ""), Or(c.state, ""), Or(c.zipCode, ""))
  }

  /** `{ ...editingClient, ...clientData }`: the edited client keeps its id, its
      creation date and its declared `address`, and takes every form field. */
  function EditedClient(c: Client, f: ClientForm): (r: Client)
    ensures r.id == c.id && r.createdAt == c.createdAt && r.address == c.address
  {
    c.(name := f.name, phone := f.phone, street := Some(f.street), number := Some(f.number),
       complement := Some(f.complement), neighborhood := Some(f.neighborhood), city := Some(f.city),
       state := Some(f.state), zipCode := Some(f.zipCode))
  }

  /** The client the add form creates: a new id, the form fields, no `address`. */
  function NewClient(id: Id, f: ClientForm, createdAt: Timestamp): (r: Client)
    ensures r.id == id && r.createdAt == createdAt && r.address.None?
  {
    Client(id, f.name, f.phone, None, Some(f.street), Some(f.number), Some(f.complement),
           Some(f.neighborhood), Some(f.city), Some(f.state), Some(f.zipCode), createdAt)
  }

  /** Reopening a saved client shows exactly the fields that were submitted. */
  lemma FormRoundTrip(c: Client, f: ClientForm, id: Id, createdAt: Timestamp)
    ensures FormFor(EditedClient(c, f)) == f
    ensures FormFor(NewClient(id, f, createdAt)) == f
  {
  }

  /** Opening a client and saving it untouched gives it back unchanged exactly
      when none of its seven address fields was missing; a missing one is
      stored as the empty string. */
  lemma EditUntouched(c: Client)
    ensures EditedClient(c, FormFor(c)) == c <==>
      c.street.Some? && c.number.Some? && c.complement.Some? && c.neighborhood.Some? &&
      c.city.Some? && c.state.Some? && c.zipCode.Some?
  {
  }

  /** The page's own state: the form, the client being edited and the id
      awaiting delete confirmation. */
  class ClientsPage {
    var form: ClientForm
    var editing: Option<Client>
    var toDelete: Option<Id>

    constructor ()
      ensures form == EmptyForm && editing.None? && toDelete.None?
    {
      form, editing, toDelete := EmptyForm, None, None;
    }

    method OpenAdd()
      modifies this
      ensures form == EmptyForm && editing.None? && toDelete == old(toDelete)
    {
      editing, form := None, EmptyForm;
    }

    method OpenEdit(c: Client)
      modifies this
      ensures form == FormFor(c) && editing == Some(c) && toDelete == old(toDelete)
    {
      editing, form := Some(c), FormFor(c);
    }

    /** `handleSubmit`: nothing without a name and a phone; otherwise the edited
        client is stored again, or a new client appended, and the form cleared. */
    method Submit(store: AppStore, newId: Id, createdAt: Timestamp) returns (saved: bool)
      requires !HasId(store.clients, IdOfClient, newId)
      modifies this, store
      ensures saved <==> old(form).name != "" && old(form).phone != ""
      ensures !saved ==> store.State() == old(store.State()) && form == old(form) && editing == old(editing)
      ensures saved && old(editing).Some? ==>
        store.clients == ReplaceById(old(store.clients), IdOfClient, EditedClient(old(editing).value, old(form)))
      ensures saved && old(editing).None? ==>
        store.clients == old(store.clients) + [NewClient(newId, old(form), createdAt)]
      ensures store.jobs == old(store.jobs) && store.quotes == old(store.quotes)
      ensures store.settings == old(store.settings)
      ensures UniqueIds(old(store.clients), IdOfClient) ==> UniqueIds(store.clients, IdOfClient)
      ensures saved ==> form == EmptyForm && editing.None?
      ensures toDelete == old(toDelete)
    {
      if form.name == "" || form.phone == "" {
        return false;
      }
      match editing {
        case Some(c) => store.UpdateClient(EditedClient(c, form));
        case None => store.AddClient(NewClient(newId, form, createdAt));
      }
      form, editing := EmptyForm, None;
      saved := true;
    }

    /** `handleConfirmDelete`: remembers the id until the dialog is answered. */
    method ConfirmDelete(id: Id)
      modifies this
      ensures toDelete == Some(id) && form == old(form) && editing == old(editing)
    {
      toDelete := Some(id);
    }

    /** `handleDelete`: deletes only when a non-empty id awaits confirmation, and
        then clears it. Jobs and quotes of the client are kept. */
    method Delete(store: AppStore)
      modifies this, store
      ensures var pending := old(toDelete).Some? && old(toDelete).value != "";
        && store.clients == (if pending then RemoveById(old(store.clients), IdOfClient, old(toDelete).value)
                             else old(store.clients))
        && toDelete == (if pending then None else old(toDelete))
      ensures store.jobs == old(store.jobs) && store.quotes == old(store.quotes)
      ensures store.settings == old(store.settings)
      ensures form == old(form) && editing == old(editing)
    {
      if toDelete.Some? && toDelete.value != "" {
        store.DeleteClient(toDelete.value);
        toDelete := None;
      }
    }
  }

  /** After a confirmed delete of a client whose id is unique, no client with
      that id is left and every other client keeps its position order. */
  lemma DeleteRemovesOne(clients: seq<Client>, i: int)
    requires UniqueIds(clients, IdOfClient) && 0 <= i < |clients|
    ensures RemoveById(clients, IdOfClient, clients[i].id) == clients[..i] + clients[i + 1..]
    ensures !HasId(RemoveById(clients, IdOfClient, clients[i].id), IdOfClient, clients[i].id)
  {
    RemoveUniqueAt(clients, IdOfClient, i);
  }
}

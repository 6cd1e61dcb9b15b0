/** The quote page: the draft form whose line items are added, removed and
    edited one action at a time, the total it shows and stores, the save guard,
    and the export action that advances a draft to sent. */
module Quotes {
  import opened Types
  import opened Collections
  import opened Text
  import opened Store

  /** `calculateTotal`: the sum of quantity times unit price over the lines. A
      quote with no negative quantity or unit price has no negative total. */
  function Total(items: seq<QuoteItem>): (r: Money)
    ensures (forall it :: it in items ==> it.quantity >= 0 && it.unitPrice >= 0) ==> r >= 0
  {
    SumNonNegative(items, Amount);
    Sum(items, Amount)
  }

  /** The line the form starts with and that "add item" appends. */
  function BlankItem(id: Id): QuoteItem {
    QuoteItem(id, "", 1, 0)
  }

  /** The three fields the form edits on a line. */
  datatype ItemEdit = SetDescription(description: string) | SetQuantity(quantity: int) | SetUnitPrice(unitPrice: Money)

  function ApplyEdit(item: QuoteItem, e: ItemEdit): (r: QuoteItem)
    ensures r.id == item.id
  {
    match e
    case SetDescription(d) => item.(description := d)
    case SetQuantity(q) => item.(quantity := q)
    case SetUnitPrice(p) => item.(unitPrice := p)
  }

  /** `items.map(item => item.id === id ? { ...item, [field]: value } : item)`. */
  function EditItems(items: seq<QuoteItem>, id: Id, e: ItemEdit): (r: seq<QuoteItem>)
    ensures |r| == |items|
    ensures forall i :: 0 <= i < |items| ==> r[i].id == items[i].id
    ensures forall i :: 0 <= i < |items| && items[i].id != id ==> r[i] == items[i]
    ensures forall i :: 0 <= i < |items| && items[i].id == id ==> r[i] == ApplyEdit(items[i], e)
  {
    seq(|items|, i requires 0 <= i < |items| => if items[i].id == id then ApplyEdit(items[i], e) else items[i])
  }

  /** The total of an empty quote is 0, and a line adds its amount. */
  lemma TotalAppend(items: seq<QuoteItem>, item: QuoteItem)
    ensures Total([]) == 0
    ensures Total(items + [item]) == Total(items) + item.quantity * item.unitPrice
  {
    assert (items + [item])[..|items|] == items;
  }

  /** Appending a blank line leaves the total unchanged. */
  lemma AddItemKeepsTotal(items: seq<QuoteItem>, id: Id)
    ensures Total(items + [BlankItem(id)]) == Total(items)
  {
    TotalAppend(items, BlankItem(id));
  }

  /** With distinct line ids, removing a line takes exactly its amount off the total. */
  lemma RemoveItemTotal(items: seq<QuoteItem>, i: int)
    requires UniqueIds(items, IdOfItem) && 0 <= i < |items|
    ensures Total(RemoveById(items, IdOfItem, items[i].id)) == Total(items) - Amount(items[i])
  {
    RemoveUniqueAt(items, IdOfItem, i);
    assert items == items[..i] + [items[i]] + items[i + 1..];
    SumSplit(items[..i], items[i], items[i + 1..], Amount);
    SumConcat(items[..i], items[i + 1..], Amount);
  }

  /** With distinct line ids, editing a line moves the total by the change in its amount. */
  lemma EditItemTotal(items: seq<QuoteItem>, i: int, e: ItemEdit)
    requires UniqueIds(items, IdOfItem) && 0 <= i < |items|
    ensures Total(EditItems(items, items[i].id, e))
         == Total(items) - Amount(items[i]) + Amount(ApplyEdit(items[i], e))
  {
    var r := EditItems(items, items[i].id, e);
    var x := ApplyEdit(items[i], e);
    assert r == items[..i] + [x] + items[i + 1..] by {
      forall k | 0 <= k < |items| && k != i ensures items[k].id != items[i].id {
        if k < i { assert IdOfItem(items[k]) != IdOfItem(items[i]); }
        else { assert IdOfItem(items[i]) != IdOfItem(items[k]); }
      }
    }
    SumSwapAt(items, i, x, Amount);
  }

  /** The client-name part of the file name holds only ASCII letters, digits
      and `_`. */
  function QuoteFileName(clientName: string, stamp: string): (r: string)
    ensures |r| == 15 + |clientName| + |stamp|
    ensures forall k :: 10 <= k < 10 + |clientName| ==> IsAsciiAlnum(r[k]) || r[k] == '_'
  {
    "Orcamento_" + Sanitise(clientName) + "_" + stamp + ".pdf"
  }

  /** The "new quote" form. */
  class QuoteForm {
    var clientId: Id
    var date: Timestamp
    var items: seq<QuoteItem>

    /** What the form's own buttons keep: at least one line, and distinct line ids. */
    predicate Valid()
      reads this
    {
      |items| >= 1 && UniqueIds(items, IdOfItem)
    }

    /** The remove button is disabled while exactly one line remains. */
    predicate CanRemove()
      reads this
    {
      |items| != 1
    }

    constructor (itemId: Id, today: Timestamp)
      ensures clientId == "" && date == today && items == [BlankItem(itemId)]
      ensures Valid()
    {
      clientId, date, items := "", today, [BlankItem(itemId)];
    }

    /** `handleAddItem`, with a line id not yet on the form. */
    method AddItem(itemId: Id)
      requires !HasId(items, IdOfItem, itemId)
      modifies this
      ensures items == old(items) + [BlankItem(itemId)]
      ensures clientId == old(clientId) && date == old(date)
      ensures Total(items) == old(Total(items))
      ensures old(Valid()) ==> Valid()
    {
      AppendUniqueIds(items, IdOfItem, BlankItem(itemId));
      AddItemKeepsTotal(items, itemId);
      items := items + [BlankItem(itemId)];
    }

    /** `handleRemoveItem`: no minimum of its own; the form stays valid when the
        button was enabled. */
    method RemoveItem(id: Id)
      modifies this
      ensures items == RemoveById(old(items), IdOfItem, id)
      ensures clientId == old(clientId) && date == old(date)
      ensures old(Valid()) && old(CanRemove()) ==> Valid()
    {
      if Valid() && CanRemove() {
        RemoveKeepsUnique(items, IdOfItem, id);
        if HasId(items, IdOfItem, id) {
          var i :| 0 <= i < |items| && IdOfItem(items[i]) == id;
          RemoveUniqueAt(items, IdOfItem, i);
        } else {
          RemoveAbsent(items, IdOfItem, id);
        }
      }
      items := RemoveById(items, IdOfItem, id);
    }

    /** `handleItemChange`. */
    method ChangeItem(id: Id, e: ItemEdit)
      modifies this
      ensures items == EditItems(old(items), id, e)
      ensures clientId == old(clientId) && date == old(date)
      ensures old(Valid()) ==> Valid()
    {
      var edited := EditItems(items, id, e);
      assert forall k :: 0 <= k < |items| ==> IdOfItem(edited[k]) == IdOfItem(items[k]);
      items := edited;
    }

    /** `handleAddQuote`: saves nothing without a client or without lines;
        otherwise adds one draft quote carrying the computed total and resets the
        form to a single blank line. */
    method Submit(store: AppStore, quoteId: Id, createdAt: Timestamp, today: Timestamp, nextItemId: Id)
      returns (saved: bool)
      requires !HasId(store.quotes, IdOfQuote, quoteId)
      modifies this, store
      ensures saved <==> old(clientId) != "" && old(|items|) != 0
      ensures !saved ==> store.State() == old(store.State())
      ensures !saved ==> clientId == old(clientId) && date == old(date) && items == old(items)
      ensures saved ==>
        store.quotes == old(store.quotes) + [Quote(quoteId, old(clientId), old(date), old(items), Total(old(items)), Draft, createdAt)]
      ensures store.clients == old(store.clients) && store.jobs == old(store.jobs)
      ensures store.settings == old(store.settings)
      ensures UniqueIds(old(store.quotes), IdOfQuote) ==> UniqueIds(store.quotes, IdOfQuote)
      ensures saved ==> clientId == "" && date == today && items == [BlankItem(nextItemId)] && Valid()
    {
      if clientId == "" || |items| == 0 {
        return false;
      }
      store.AddQuote(Quote(quoteId, clientId, date, items, Total(items), Draft, createdAt));
      clientId, date, items := "", today, [BlankItem(nextItemId)];
      saved := true;
    }
  }

  /** The export action of a quote card. Without the quote's client it stops
      before anything else; `rendered` is false when producing the document
      failed, which also skips the status change. Otherwise it names the file and,
      for a draft, stores the quote again as sent. */
  method Export(store: AppStore, quote: Quote, rendered: bool, stamp: string) returns (fileName: Option<string>)
    modifies store
    ensures var client := FindById(old(store.clients), IdOfClient, quote.clientId);
      && (fileName.Some? <==> client.Some? && rendered)
      && (fileName.Some? ==> fileName.value == QuoteFileName(client.value.name, stamp))
    ensures store.quotes == if fileName.Some? && quote.status == Draft
                            then ReplaceById(old(store.quotes), IdOfQuote, quote.(status := Sent))
                            else old(store.quotes)
    ensures store.clients == old(store.clients) && store.jobs == old(store.jobs)
    ensures store.settings == old(store.settings)
  {
    var client := FindById(store.clients, IdOfClient, quote.clientId);
    if client.None? || !rendered {
      return None;
    }
    fileName := Some(QuoteFileName(client.value.name, stamp));
    if quote.status == Draft {
      store.UpdateQuote(quote.(status := Sent));
    }
  }

  /** After exporting, a stored draft whose id is unique reads as sent, and a
      quote in any other status is left as it was. */
  lemma ExportAdvancesOnlyDrafts(quotes: seq<Quote>, i: int)
    requires UniqueIds(quotes, IdOfQuote) && 0 <= i < |quotes|
    ensures var after := if quotes[i].status == Draft
                         then ReplaceById(quotes, IdOfQuote, quotes[i].(status := Sent))
                         else quotes;
      && |after| == |quotes|
      && after[i].status == (if quotes[i].status == Draft then Sent else quotes[i].status)
      && forall k :: 0 <= k < |quotes| && k != i ==> after[k] == quotes[k]
  {
    if quotes[i].status == Draft {
      ReplaceUniqueAt(quotes, IdOfQuote, i, quotes[i].(status := Sent));
    }
  }
}

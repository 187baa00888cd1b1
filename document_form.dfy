/** The document form (src/components/documents/DocumentForm.tsx): the
    running total of the line items and the document the form submits. */
module DocumentForm {
  import opened Wrappers
  import opened Domain
  import opened Sequences
  import opened Store

  /** What one line contributes: quantity times unit price. The item's own
      stored `total` plays no part. */
  function LineValue(item: DocumentItem): real {
    item.quantity * item.unitPrice
  }

  /** The bounds the form's inputs enforce: quantity at least 1, price at least 0. */
  predicate WithinFormBounds(item: DocumentItem) {
    item.quantity >= 1.0 && item.unitPrice >= 0.0
  }

  /** `calculateTotal`: the reduce of quantity times unit price over the
      items, starting from 0. */
  function CalculateTotal(items: seq<DocumentItem>): real {
    Sum(items, LineValue)
  }

  /** Within the form's bounds the total is never negative. */
  lemma TotalNonNegative(items: seq<DocumentItem>)
    ensures (forall i :: i in items ==> WithinFormBounds(i)) ==> CalculateTotal(items) >= 0.0
  {
    NonNegativeLines(items);
  }

  /** Within the form's bounds every line is worth at least 0. */
  lemma NonNegativeLines(items: seq<DocumentItem>)
    ensures (forall i :: i in items ==> WithinFormBounds(i)) ==> forall i :: i in items ==> LineValue(i) >= 0.0
  {
    forall i | i in items && WithinFormBounds(i)
      ensures LineValue(i) >= 0.0
    {
      assert i.quantity > 0.0;
    }
  }

  /** The empty list of items totals 0. */
  lemma TotalOfNoItems()
    ensures CalculateTotal([]) == 0.0
  {
  }

  /** One reduce step: adding an item adds its quantity times unit price. */
  lemma TotalAppend(items: seq<DocumentItem>, item: DocumentItem)
    ensures CalculateTotal(items + [item]) == CalculateTotal(items) + item.quantity * item.unitPrice
  {
    SumAppend(items, item, LineValue);
  }

  /** Only quantity and unit price matter: two item lists that agree on them,
      line by line, have the same total whatever their stored totals,
      descriptions and identifiers. */
  lemma TotalIgnoresStoredTotals(a: seq<DocumentItem>, b: seq<DocumentItem>)
    requires |a| == |b|
    requires forall i :: 0 <= i < |a| ==> a[i].quantity == b[i].quantity && a[i].unitPrice == b[i].unitPrice
    ensures CalculateTotal(a) == CalculateTotal(b)
  {
    SumPointwise(a, b, LineValue);
  }

  /** The row "Add Item" appends: quantity 1, unit price 0, total 0. */
  function NewItem(id: Id): (item: DocumentItem)
    ensures WithinFormBounds(item)
    ensures LineValue(item) == 0.0
  {
    DocumentItem(id, "", 1.0, 0.0, 0.0)
  }

  /** A freshly added row leaves the total unchanged. */
  lemma NewItemAddsNothing(items: seq<DocumentItem>, id: Id)
    ensures CalculateTotal(items + [NewItem(id)]) == CalculateTotal(items)
  {
    TotalAppend(items, NewItem(id));
  }

  /** The fields the user fills in. */
  datatype DocumentDraft = DocumentDraft(
    clientId: Id,
    projectId: Id,
    kind: DocumentKind,
    title: string,
    status: DocumentStatus,
    validUntil: Date,
    items: seq<DocumentItem>)

  /** The document `onSubmit` hands to `addDocument`: the draft's fields, a
      fresh identifier and creation date, and the amount computed from the
      items. */
  function SubmitDocument(draft: DocumentDraft, id: Id, createdAt: Date): (d: Document)
    ensures d.amount == CalculateTotal(draft.items)
    ensures d.id == id && d.createdAt == createdAt
    ensures d.clientId == draft.clientId && d.projectId == draft.projectId
    ensures d.kind == draft.kind && d.title == draft.title && d.status == draft.status
    ensures d.validUntil == draft.validUntil && d.items == draft.items
    ensures (forall i :: i in draft.items ==> WithinFormBounds(i)) ==> d.amount >= 0.0
  {
    TotalNonNegative(draft.items);
    Document(id, draft.clientId, draft.projectId, draft.kind, draft.title, draft.status,
             CalculateTotal(draft.items), createdAt, draft.validUntil, draft.items)
  }

  /** `onSubmit`: the built document is appended to the store's documents,
      carrying the computed amount, and the aggregate is persisted. */
  method SubmitDraft(store: EntityStore, draft: DocumentDraft, id: Id, createdAt: Date)
    modifies store
    ensures store.documents == old(store.documents) + [SubmitDocument(draft, id, createdAt)]
    ensures store.documents[|store.documents| - 1].amount == CalculateTotal(draft.items)
    ensures store.State() == old(store.State()).(documents := store.documents)
    ensures store.persisted == Some(Save(store.State())) && store.Valid()
  {
    store.AddDocument(SubmitDocument(draft, id, createdAt));
  }
}

/**
 * The in-memory session store of receipt drafts: a module-level list that upsert, remove and
 * clear replace or overwrite in place. Nothing is persisted; a restart empties it.
 */
module DraftSessionStore {
  import opened Wrappers

  /** A property of a JavaScript object: missing, present with `null`, or present with a value. */
  datatype Field<+T> = Absent | Null | Val(v: T)

  /** A string property is truthy when it holds a non-empty string. */
  predicate Truthy(f: Field<string>) {
    f.Val? && f.v != ""
  }

  /** `{ ...a, ...b }` on one property: a property present in `b`, even as `null`, wins. */
  function Spread<T>(a: Field<T>, b: Field<T>): Field<T> {
    if b.Absent? then a else b
  }

  /** `{ id, imageUri, folder, merchant, total, currency, date, tags }`. */
  datatype Draft = Draft(
    id: Field<string>,
    imageUri: Field<string>,
    folder: Field<string>,
    merchant: Field<string>,
    total: Field<real>,
    currency: Field<string>,
    date: Field<string>,
    tags: Field<seq<string>>)

  /** `{ ...old, ...patch }`: property by property, the patch overrides and what it lacks is kept. */
  function Merge(prev: Draft, patch: Draft): (r: Draft)
    ensures patch.id.Absent? ==> r.id == prev.id
    ensures !patch.id.Absent? ==> r.id == patch.id
    ensures patch.imageUri.Absent? ==> r.imageUri == prev.imageUri
    ensures !patch.imageUri.Absent? ==> r.imageUri == patch.imageUri
    ensures patch.folder.Absent? ==> r.folder == prev.folder
    ensures !patch.folder.Absent? ==> r.folder == patch.folder
    ensures patch.merchant.Absent? ==> r.merchant == prev.merchant
    ensures !patch.merchant.Absent? ==> r.merchant == patch.merchant
    ensures patch.total.Absent? ==> r.total == prev.total
    ensures !patch.total.Absent? ==> r.total == patch.total
    ensures patch.currency.Absent? ==> r.currency == prev.currency
    ensures !patch.currency.Absent? ==> r.currency == patch.currency
    ensures patch.date.Absent? ==> r.date == prev.date
    ensures !patch.date.Absent? ==> r.date == patch.date
    ensures patch.tags.Absent? ==> r.tags == prev.tags
    ensures !patch.tags.Absent? ==> r.tags == patch.tags
  {
    Draft(Spread(prev.id, patch.id), Spread(prev.imageUri, patch.imageUri), Spread(prev.folder, patch.folder),
          Spread(prev.merchant, patch.merchant), Spread(prev.total, patch.total),
          Spread(prev.currency, patch.currency), Spread(prev.date, patch.date), Spread(prev.tags, patch.tags))
  }

  /** The draft with no property at all: merging it changes nothing. */
  const NoChange := Draft(Absent, Absent, Absent, Absent, Absent, Absent, Absent, Absent)

  /** Merging is idempotent, and merging the empty patch is the identity. */
  lemma MergeIdempotent(prev: Draft, patch: Draft)
    ensures Merge(Merge(prev, patch), patch) == Merge(prev, patch)
    ensures Merge(prev, NoChange) == prev
  {
  }

  /** The store's invariant: every id is truthy and no two entries share one. */
  predicate UniqueIds(ds: seq<Draft>) {
    && (forall i :: 0 <= i < |ds| ==> Truthy(ds[i].id))
    && (forall i, j :: 0 <= i < j < |ds| ==> ds[i].id != ds[j].id)
  }

  /** `drafts.findIndex(d => d.id === id)`. */
  function FindIndex(ds: seq<Draft>, id: Field<string>): (r: Option<nat>)
    ensures r.Some? ==> r.value < |ds| && ds[r.value].id == id
    ensures r.Some? ==> forall j :: 0 <= j < r.value ==> ds[j].id != id
    ensures r.None? <==> forall j :: 0 <= j < |ds| ==> ds[j].id != id
  {
    if ds == [] then None
    else if ds[0].id == id then Some(0)
    else match FindIndex(ds[1..], id)
      case None => None
      case Some(k) => Some(k + 1)
  }

  const MissingIdOrImage := "Draft must contain id and imageUri"

  /** The list `upsertDraft(draft)` leaves behind, or its error. */
  function Upsert(ds: seq<Draft>, draft: Draft): (r: Result<seq<Draft>, string>)
    ensures r.Err? <==> !Truthy(draft.id) || !Truthy(draft.imageUri)
    ensures r.Err? ==> r.error == MissingIdOrImage
  {
    if !Truthy(draft.id) || !Truthy(draft.imageUri) then Err(MissingIdOrImage)
    else match FindIndex(ds, draft.id)
      case Some(i) => Ok(ds[i := Merge(ds[i], draft)])
      case None => Ok([draft] + ds)
  }

  /** A new id is prepended: the new draft comes first and the old entries follow in order. */
  lemma UpsertNewPrepends(ds: seq<Draft>, draft: Draft)
    requires Truthy(draft.id) && Truthy(draft.imageUri)
    requires forall j :: 0 <= j < |ds| ==> ds[j].id != draft.id
    ensures Upsert(ds, draft).Ok?
    ensures |Upsert(ds, draft).value| == |ds| + 1
    ensures Upsert(ds, draft).value[0] == draft && Upsert(ds, draft).value[1..] == ds
  {
  }

  /** An existing id is merged where it stands; length and every other entry are unchanged. */
  lemma UpsertExistingMerges(ds: seq<Draft>, draft: Draft, i: nat)
    requires UniqueIds(ds) && i < |ds| && ds[i].id == draft.id
    requires Truthy(draft.imageUri)
    ensures Upsert(ds, draft).Ok?
    ensures |Upsert(ds, draft).value| == |ds|
    ensures Upsert(ds, draft).value[i] == Merge(ds[i], draft)
    ensures Upsert(ds, draft).value[i].id == ds[i].id
    ensures forall j :: 0 <= j < |ds| && j != i ==> Upsert(ds, draft).value[j] == ds[j]
  {
  }

  /** Upserting keeps ids truthy and distinct. */
  lemma UpsertKeepsUnique(ds: seq<Draft>, draft: Draft)
    requires UniqueIds(ds)
    ensures Upsert(ds, draft).Ok? ==> UniqueIds(Upsert(ds, draft).value)
  {
  }

  /** `drafts.filter(d => d.id !== draftId)`. */
  function DropId(ds: seq<Draft>, id: Field<string>): (r: seq<Draft>)
    ensures forall k :: 0 <= k < |r| ==> r[k].id != id && r[k] in ds
    ensures |r| <= |ds|
  {
    if ds == [] then []
    else (if ds[0].id == id then [] else [ds[0]]) + DropId(ds[1..], id)
  }

  /** Every draft with another id keeps its number of occurrences. */
  lemma {:induction false} DropIdCounts(ds: seq<Draft>, id: Field<string>, d: Draft)
    requires d.id != id
    ensures multiset(DropId(ds, id))[d] == multiset(ds)[d]
  {
    if ds != [] {
      assert ds == [ds[0]] + ds[1..];
      DropIdCounts(ds[1..], id, d);
    }
  }

  /** Dropping keeps order: it distributes over concatenation. */
  lemma {:induction false} DropIdAppend(a: seq<Draft>, b: seq<Draft>, id: Field<string>)
    ensures DropId(a + b, id) == DropId(a, id) + DropId(b, id)
  {
    if a == [] {
      assert a + b == b;
    } else {
      assert (a + b)[1..] == a[1..] + b;
      DropIdAppend(a[1..], b, id);
    }
  }

  /** The list `removeDraft(draftId)` leaves behind: a falsy id changes nothing. */
  function Remove(ds: seq<Draft>, draftId: Field<string>): (r: seq<Draft>)
    ensures !Truthy(draftId) ==> r == ds
    ensures Truthy(draftId) ==> forall k :: 0 <= k < |r| ==> r[k].id != draftId
    ensures Truthy(draftId) ==> forall k :: 0 <= k < |r| ==> r[k] in ds
  {
    if !Truthy(draftId) then ds else DropId(ds, draftId)
  }

  /** Removing keeps every draft with another id, as often as it occurred. */
  lemma RemoveKeepsOthers(ds: seq<Draft>, draftId: Field<string>, d: Draft)
    requires d.id != draftId
    ensures multiset(Remove(ds, draftId))[d] == multiset(ds)[d]
  {
    if Truthy(draftId) {
      DropIdCounts(ds, draftId, d);
    }
  }

  /** Removing keeps ids distinct. */
  lemma {:induction false} DropIdKeepsUnique(ds: seq<Draft>, id: Field<string>)
    requires UniqueIds(ds)
    ensures UniqueIds(DropId(ds, id))
  {
    if ds != [] {
      assert UniqueIds(ds[1..]);
      DropIdKeepsUnique(ds[1..], id);
      var rest := DropId(ds[1..], id);
      if ds[0].id != id {
        var r := [ds[0]] + rest;
        forall j | 0 < j < |r| ensures r[0].id != r[j].id {
          assert r[j] in rest;
        }
        forall i, j | 0 <= i < j < |r| ensures r[i].id != r[j].id {
          if i > 0 {
            assert r[i] == rest[i - 1] && r[j] == rest[j - 1];
          }
        }
      }
    }
  }

  /** Removing twice is removing once. */
  lemma RemoveIdempotent(ds: seq<Draft>, draftId: Field<string>)
    ensures Remove(Remove(ds, draftId), draftId) == Remove(ds, draftId)
  {
    if Truthy(draftId) {
      DropIdNoop(DropId(ds, draftId), draftId);
    }
  }

  /** Dropping an id nobody has changes nothing. */
  lemma {:induction false} DropIdNoop(ds: seq<Draft>, id: Field<string>)
    requires forall k :: 0 <= k < |ds| ==> ds[k].id != id
    ensures DropId(ds, id) == ds
  {
    if ds != [] {
      DropIdNoop(ds[1..], id);
    }
  }

  /** Removal undoes the upsert of a new id. */
  lemma RemoveUndoesInsert(ds: seq<Draft>, draft: Draft)
    requires Truthy(draft.id) && Truthy(draft.imageUri)
    requires forall j :: 0 <= j < |ds| ==> ds[j].id != draft.id
    ensures Remove(Upsert(ds, draft).value, draft.id) == ds
  {
    UpsertNewPrepends(ds, draft);
    DropIdAppend([draft], ds, draft.id);
    DropIdNoop(ds, draft.id);
    assert DropId([draft], draft.id) == [];
    assert [draft] + ds == Upsert(ds, draft).value;
  }

  /** The module-level `drafts` list. */
  class SessionStore {
    var drafts: seq<Draft>

    predicate Valid()
      reads this
    {
      UniqueIds(drafts)
    }

    /** A fresh session starts with no drafts. */
    constructor()
      ensures Valid() && drafts == []
    {
      drafts := [];
    }

    /** `getDrafts()`: the current list. */
    method GetDrafts() returns (r: seq<Draft>)
      requires Valid()
      ensures r == drafts && UniqueIds(r)
    {
      r := drafts;
    }

    /** `upsertDraft(draft)`: the error leaves the store untouched; otherwise merge in place or prepend. */
    method UpsertDraft(draft: Draft) returns (r: Result<seq<Draft>, string>)
      requires Valid()
      modifies this
      ensures Valid()
      ensures r == Upsert(old(drafts), draft)
      ensures r.Err? ==> drafts == old(drafts)
      ensures r.Ok? ==> drafts == r.value
    {
      UpsertKeepsUnique(drafts, draft);
      if !Truthy(draft.id) || !Truthy(draft.imageUri) {
        return Err(MissingIdOrImage);
      }
      var idx := FindIndex(drafts, draft.id);
      if idx.Some? {
        drafts := drafts[idx.value := Merge(drafts[idx.value], draft)];
      } else {
        drafts := [draft] + drafts;
      }
      r := Ok(drafts);
    }

    /** `removeDraft(draftId)`. */
    method RemoveDraft(draftId: Field<string>) returns (r: seq<Draft>)
      requires Valid()
      modifies this
      ensures Valid()
      ensures drafts == Remove(old(drafts), draftId) && r == drafts
    {
      if !Truthy(draftId) {
        return drafts;
      }
      DropIdKeepsUnique(drafts, draftId);
      drafts := DropId(drafts, draftId);
      r := drafts;
    }

    /** `clearAllDrafts()`. */
    method ClearAllDrafts() returns (r: seq<Draft>)
      modifies this
      ensures Valid()
      ensures drafts == [] && r == []
    {
      drafts := [];
      r := drafts;
    }
  }
}

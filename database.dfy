/** database.py: the checklist collection, one document per chat holding an `items`
    array, with the seeding, the migration of bare names, and the three update operators
    the bot issues (`$addToSet`, `$pull`, positional `$set`). */
module Database {
  import opened Wrappers
  import opened Utils

  /** The two statuses the bot stores, as the emoji it stores. */
  const PENDING := "❌"
  const DONE := "✅"

  /** The translation keys of the five default items, in their order. */
  const DEFAULT_KEYS: seq<string> := ["passport", "tickets", "boarding_pass", "hotel_reservation", "travel_insurance"]

  /** One element of a stored `items` array: a bare name written by older versions, a
      document whose fields may be missing, or any other value. */
  datatype StoredItem = Bare(text: string) | Doc(name: Option<string>, status: Option<string>) | OtherValue

  /** An item the bot can show: a document with both a name and a status. */
  predicate WellFormed(item: StoredItem) {
    item.Doc? && item.name.Some? && item.status.Some?
  }

  /** `{"name": name, "status": "❌"}`. */
  function NewItem(name: string): StoredItem {
    Doc(Some(name), Some(PENDING))
  }

  /** The seeded checklist: the five default keys translated for the chat, in order, all pending. */
  function Defaults(translate: string -> string): (items: seq<StoredItem>)
    ensures |items| == |DEFAULT_KEYS| == 5
    ensures forall i :: 0 <= i < 5 ==> WellFormed(items[i]) && items[i].status == Some(PENDING)
    ensures forall i :: 0 <= i < 5 ==> items[i] == NewItem(translate(DEFAULT_KEYS[i]))
  {
    [NewItem(translate("passport")), NewItem(translate("tickets")), NewItem(translate("boarding_pass")),
     NewItem(translate("hotel_reservation")), NewItem(translate("travel_insurance"))]
  }

  /** The migration: a bare name becomes a pending document; everything else is kept. */
  function NormalizeItem(item: StoredItem): StoredItem {
    if item.Bare? then NewItem(item.text) else item
  }

  function Normalized(items: seq<StoredItem>): seq<StoredItem> {
    seq(|items|, i requires 0 <= i < |items| => NormalizeItem(items[i]))
  }

  /** Normalising keeps length and order, turns each bare name into a pending document, and
      leaves every other element untouched; after it no bare name remains. */
  lemma NormalizedShape(items: seq<StoredItem>)
    ensures |Normalized(items)| == |items|
    ensures forall i :: 0 <= i < |items| && items[i].Bare? ==> Normalized(items)[i] == NewItem(items[i].text)
    ensures forall i :: 0 <= i < |items| && !items[i].Bare? ==> Normalized(items)[i] == items[i]
    ensures forall i :: 0 <= i < |items| ==> !Normalized(items)[i].Bare?
  {
  }

  /** The migration is idempotent: a second pass changes nothing. */
  lemma NormalizedIdempotent(items: seq<StoredItem>)
    ensures Normalized(Normalized(items)) == Normalized(items)
  {
  }

  /** The seeded checklist needs no migration. */
  lemma NormalizedDefaults(translate: string -> string)
    ensures Normalized(Defaults(translate)) == Defaults(translate)
  {
  }

  /** `$addToSet`: appends the element unless an identical one is present. */
  function AddToSet(items: seq<StoredItem>, item: StoredItem): (r: seq<StoredItem>)
    ensures item in items ==> r == items
    ensures item !in items ==> r == items + [item]
    ensures forall x :: x in r <==> x in items || x == item
  {
    if item in items then items else items + [item]
  }

  /** Adding twice is adding once. */
  lemma AddToSetIdempotent(items: seq<StoredItem>, item: StoredItem)
    ensures AddToSet(AddToSet(items, item), item) == AddToSet(items, item)
  {
  }

  /** A document with the same name but status "✅" is not identical to the new pending one,
      so it does not stop the addition. */
  lemma AddToSetBesideDone(items: seq<StoredItem>, name: string)
    requires Doc(Some(name), Some(DONE)) in items && NewItem(name) !in items
    ensures AddToSet(items, NewItem(name)) == items + [NewItem(name)]
    ensures |AddToSet(items, NewItem(name))| == |items| + 1
  {
  }

  /** The element a `{"name": name}` condition matches. */
  predicate Named(item: StoredItem, name: string) {
    item.Doc? && item.name == Some(name)
  }

  /** `$pull` with `{"name": name}`: every matching element goes, the others stay in order. */
  function Pull(items: seq<StoredItem>, name: string): (r: seq<StoredItem>)
    ensures |r| <= |items|
    ensures forall i :: 0 <= i < |r| ==> !Named(r[i], name)
    ensures forall x :: x in r <==> x in items && !Named(x, name)
  {
    if items == [] then []
    else (if Named(items[0], name) then [] else [items[0]]) + Pull(items[1..], name)
  }

  /** Pulling a name nothing carries changes nothing. */
  lemma {:induction false} PullAbsent(items: seq<StoredItem>, name: string)
    requires forall i :: 0 <= i < |items| ==> !Named(items[i], name)
    ensures Pull(items, name) == items
  {
    if items != [] {
      PullAbsent(items[1..], name);
      assert [items[0]] + items[1..] == items;
    }
  }

  /** Pulling works piecewise, so the kept elements keep their relative order. */
  lemma {:induction false} PullAppend(a: seq<StoredItem>, b: seq<StoredItem>, name: string)
    ensures Pull(a + b, name) == Pull(a, name) + Pull(b, name)
  {
    if a != [] {
      assert (a + b)[1..] == a[1..] + b;
      PullAppend(a[1..], b, name);
    } else {
      assert a + b == b;
    }
  }

  /** Pulling twice is pulling once. */
  lemma PullIdempotent(items: seq<StoredItem>, name: string)
    ensures Pull(Pull(items, name), name) == Pull(items, name)
  {
    PullAbsent(Pull(items, name), name);
  }

  /** The position the positional operator `$` selects: the first element named `name`,
      or the length when none is. */
  function FirstNamed(items: seq<StoredItem>, name: string): (k: nat)
    ensures k <= |items|
    ensures forall i :: 0 <= i < k ==> !Named(items[i], name)
    ensures k < |items| ==> Named(items[k], name)
  {
    if items == [] || Named(items[0], name) then 0 else 1 + FirstNamed(items[1..], name)
  }

  /** `$set` of `items.$.status` under the filter `items.name == name`. */
  function SetFirstStatus(items: seq<StoredItem>, name: string, status: string): (r: seq<StoredItem>)
    ensures |r| == |items|
  {
    if items == [] then []
    else if Named(items[0], name) then [Doc(items[0].name, Some(status))] + items[1..]
    else [items[0]] + SetFirstStatus(items[1..], name, status)
  }

  /** Only the first item with that name changes, and only its status; with no such item
      nothing changes. */
  lemma {:induction false} SetFirstStatusEffect(items: seq<StoredItem>, name: string, status: string)
    ensures var r, k := SetFirstStatus(items, name, status), FirstNamed(items, name);
      && (forall i :: 0 <= i < |items| && i != k ==> r[i] == items[i])
      && (k < |items| ==> r[k] == Doc(Some(name), Some(status)))
  {
    if items != [] && !Named(items[0], name) {
      SetFirstStatusEffect(items[1..], name, status);
    }
  }

  /** The items `get_or_create_checklist` answers for a chat: the migrated stored items, or
      the seeded defaults when the chat has no document. */
  function Opened(docs: map<ChatId, seq<StoredItem>>, chat: ChatId, translate: string -> string): seq<StoredItem> {
    if chat in docs then Normalized(docs[chat]) else Defaults(translate)
  }

  /** The collection after `add_item_to_checklist`: `update_one` does not insert, so a chat
      without a document is left as it is. */
  function Added(docs: map<ChatId, seq<StoredItem>>, chat: ChatId, name: string): map<ChatId, seq<StoredItem>> {
    if chat in docs then docs[chat := AddToSet(docs[chat], NewItem(name))] else docs
  }

  /** The collection after `delete_item_from_checklist`. */
  function Pulled(docs: map<ChatId, seq<StoredItem>>, chat: ChatId, name: string): map<ChatId, seq<StoredItem>> {
    if chat in docs then docs[chat := Pull(docs[chat], name)] else docs
  }

  /** The collection after `update_item_status`: the filter matches only a document that
      has an item of that name. */
  function StatusSet(docs: map<ChatId, seq<StoredItem>>, chat: ChatId, name: string, status: string): map<ChatId, seq<StoredItem>> {
    if chat in docs && FirstNamed(docs[chat], name) < |docs[chat]| then docs[chat := SetFirstStatus(docs[chat], name, status)]
    else docs
  }

  /** None of the three updates creates a document, and none touches another chat's. */
  lemma UpdatesStayInPlace(docs: map<ChatId, seq<StoredItem>>, chat: ChatId, name: string, status: string)
    ensures chat !in docs ==> Added(docs, chat, name) == Pulled(docs, chat, name) == StatusSet(docs, chat, name, status) == docs
    ensures Added(docs, chat, name).Keys == Pulled(docs, chat, name).Keys == StatusSet(docs, chat, name, status).Keys == docs.Keys
    ensures forall c :: c in docs && c != chat ==>
      Added(docs, chat, name)[c] == Pulled(docs, chat, name)[c] == StatusSet(docs, chat, name, status)[c] == docs[c]
  {
  }

  /** `get_checklists_collection()`: chat id to the document's `items`. */
  class ChecklistStore {
    var docs: map<ChatId, seq<StoredItem>>

    constructor ()
      ensures docs == map[]
    {
      docs := map[];
    }

    /** `get_or_create_checklist`: seeds the defaults for a chat without a document;
        otherwise rewrites each bare name in place and writes the items back. */
    method GetOrCreate(chat: ChatId, translate: string -> string) returns (items: seq<StoredItem>)
      modifies this
      ensures items == Opened(old(docs), chat, translate)
      ensures docs == old(docs)[chat := items]
    {
      if chat !in docs {
        items := Defaults(translate);
        docs := docs[chat := items];
        return;
      }
      items := docs[chat];
      for i := 0 to |items|
        invariant |items| == |docs[chat]|
        invariant forall k :: 0 <= k < i ==> items[k] == NormalizeItem(docs[chat][k])
        invariant forall k :: i <= k < |items| ==> items[k] == docs[chat][k]
      {
        if items[i].Bare? {
          items := items[i := NewItem(items[i].text)];
        }
      }
      docs := docs[chat := items];
    }

    /** `add_item_to_checklist`: `$addToSet` of a pending item. */
    method AddItem(chat: ChatId, name: string)
      modifies this
      ensures docs == Added(old(docs), chat, name)
    {
      if chat in docs {
        docs := docs[chat := AddToSet(docs[chat], NewItem(name))];
      }
    }

    /** `delete_item_from_checklist`: `$pull` by name. */
    method DeleteItem(chat: ChatId, name: string)
      modifies this
      ensures docs == Pulled(old(docs), chat, name)
    {
      if chat in docs {
        docs := docs[chat := Pull(docs[chat], name)];
      }
    }

    /** `update_item_status`: positional `$set` of the first matching item's status. */
    method UpdateItemStatus(chat: ChatId, name: string, status: string)
      modifies this
      ensures docs == StatusSet(old(docs), chat, name, status)
    {
      if chat in docs && FirstNamed(docs[chat], name) < |docs[chat]| {
        docs := docs[chat := SetFirstStatus(docs[chat], name, status)];
      }
    }

    /** `delete_one` followed by `insert_one`: the chat's document is replaced outright. */
    method Replace(chat: ChatId, items: seq<StoredItem>)
      modifies this
      ensures docs == old(docs)[chat := items]
    {
      docs := docs[chat := items];
    }
  }
}

/** checklist_functions.py: the checklist dialogue. `user_states` says what the next text
    message or button press of a chat means; the handlers read and update the chat's
    checklist through the store and render it as text. */
module Checklist {
  import opened Wrappers
  import opened Strings
  import opened Utils
  import opened Database

  /** `user_states[chat_id]`: None (here Idle, also for a chat never seen, since every
      reader uses `.get`), one of four tags, or the record kept while the status of a
      chosen item is awaited. */
  datatype State =
    | Idle
    | WaitingForChecklistResponse
    | WaitingForItem
    | WaitingForItemDelete
    | WaitingForStatusUpdate
    | WaitingForStatusChange(itemName: string)

  function StateIn(states: map<ChatId, State>, chat: ChatId): (s: State)
    ensures chat in states ==> s == states[chat]
    ensures chat !in states ==> s == Idle
  {
    if chat in states then states[chat] else Idle
  }

  /** The line `show_checklist` writes for one item: `- {status} {name}` and a newline for a
      well-formed item, nothing (only a log entry) for any other element. */
  function LineOf(item: StoredItem): string {
    if WellFormed(item) then "- " + item.status.value + " " + item.name.value + "\n" else ""
  }

  /** The text built by the rendering loop over `items`. */
  function Rendered(items: seq<StoredItem>): string {
    if items == [] then "" else Rendered(items[..|items| - 1]) + LineOf(items[|items| - 1])
  }

  /** One more item adds its line at the end. */
  lemma RenderedSnoc(items: seq<StoredItem>, item: StoredItem)
    ensures Rendered(items + [item]) == Rendered(items) + LineOf(item)
  {
    var s := items + [item];
    assert s[..|s| - 1] == items;
  }

  /** Rendering works piecewise: the lines keep the order of the items. */
  lemma {:induction false} RenderedAppend(a: seq<StoredItem>, b: seq<StoredItem>)
    ensures Rendered(a + b) == Rendered(a) + Rendered(b)
  {
    if b == [] {
      assert a + b == a;
    } else {
      var init, last := b[..|b| - 1], b[|b| - 1];
      assert b == init + [last];
      assert a + b == (a + init) + [last];
      RenderedAppend(a, init);
      RenderedSnoc(a + init, last);
      RenderedSnoc(init, last);
      ConcatAssoc(Rendered(a), Rendered(init), LineOf(last));
    }
  }

  /** Elements that are not well-formed documents contribute nothing. */
  lemma {:induction false} RenderedSkipsMalformed(items: seq<StoredItem>)
    requires forall i :: 0 <= i < |items| ==> !WellFormed(items[i])
    ensures Rendered(items) == ""
  {
    if items != [] {
      RenderedSkipsMalformed(items[..|items| - 1]);
    }
  }

  /** A pending item's line. */
  lemma PendingLine(name: string)
    ensures LineOf(NewItem(name)) == "- " + PENDING + " " + name + "\n"
  {
  }

  /** A freshly seeded checklist shows the five default items, in order, each pending. */
  lemma RenderedDefaults(translate: string -> string)
    ensures Rendered(Defaults(translate)) ==
      LineOf(NewItem(translate("passport"))) + LineOf(NewItem(translate("tickets"))) +
      LineOf(NewItem(translate("boarding_pass"))) + LineOf(NewItem(translate("hotel_reservation"))) +
      LineOf(NewItem(translate("travel_insurance")))
  {
    var d := Defaults(translate);
    assert d[..1][..0] == [];
    assert d[..2][..1] == d[..1];
    assert d[..3][..2] == d[..2];
    assert d[..4][..3] == d[..3];
    assert d[..5][..4] == d[..4];
    assert d[..5] == d;
    assert Rendered(d[..1]) == LineOf(d[0]);
    assert Rendered(d[..2]) == LineOf(d[0]) + LineOf(d[1]);
    assert Rendered(d[..3]) == LineOf(d[0]) + LineOf(d[1]) + LineOf(d[2]);
    assert Rendered(d[..4]) == LineOf(d[0]) + LineOf(d[1]) + LineOf(d[2]) + LineOf(d[3]);
  }

  /** The loop of `show_checklist` that builds the item lines. */
  method RenderItems(items: seq<StoredItem>) returns (text: string)
    ensures text == Rendered(items)
  {
    text := "";
    for i := 0 to |items|
      invariant text == Rendered(items[..i])
    {
      RenderedSnoc(items[..i], items[i]);
      assert items[..i] + [items[i]] == items[..i + 1];
      if WellFormed(items[i]) {
        var icon := items[i].status.value;
        var line := "- " + icon + " " + items[i].name.value + "\n";
        text := text + line;
      }
    }
    assert items[..|items|] == items;
  }

  /** The reply-keyboard label `show_items_for_status_update` makes for a well-formed item. */
  function Label(item: StoredItem): string
    requires WellFormed(item)
  {
    item.name.value + " (" + item.status.value + ")"
  }

  /** The labels, one per well-formed item, in the items' order. */
  function Labels(items: seq<StoredItem>): seq<string> {
    if items == [] then []
    else
      var last := items[|items| - 1];
      Labels(items[..|items| - 1]) + (if WellFormed(last) then [Label(last)] else [])
  }

  /** Every well-formed item gets a label, and every label belongs to a well-formed item. */
  lemma {:induction false} LabelsComplete(items: seq<StoredItem>)
    ensures forall i :: 0 <= i < |items| && WellFormed(items[i]) ==> Label(items[i]) in Labels(items)
    ensures forall l :: l in Labels(items) ==> exists i :: 0 <= i < |items| && WellFormed(items[i]) && l == Label(items[i])
  {
    if items != [] {
      var init := items[..|items| - 1];
      LabelsComplete(init);
      forall l | l in Labels(items)
        ensures exists i :: 0 <= i < |items| && WellFormed(items[i]) && l == Label(items[i])
      {
        if l in Labels(init) {
          var i :| 0 <= i < |init| && WellFormed(init[i]) && l == Label(init[i]);
          assert items[i] == init[i];
        } else {
          assert WellFormed(items[|items| - 1]) && l == Label(items[|items| - 1]);
        }
      }
      forall i | 0 <= i < |items| && WellFormed(items[i])
        ensures Label(items[i]) in Labels(items)
      {
        if i < |init| {
          assert items[i] == init[i];
        }
      }
    }
  }

  /** The loop of `show_items_for_status_update` that fills the keyboard. */
  method StatusLabels(items: seq<StoredItem>) returns (labels: seq<string>)
    ensures labels == Labels(items)
  {
    labels := [];
    for i := 0 to |items|
      invariant labels == Labels(items[..i])
    {
      assert items[..i + 1][..i] == items[..i];
      if WellFormed(items[i]) {
        labels := labels + [items[i].name.value + " (" + items[i].status.value + ")"];
      }
    }
    assert items[..|items|] == items;
  }

  /** The item name `handle_status_update_selection` reads from the pressed label:
      the stripped text up to its first " (". */
  function SelectedName(text: string): (name: string)
    ensures name <= Strip(text)
  {
    BeforeFirst(Strip(text), " (")
  }

  /** Pressing the label of an item whose name is stripped and holds no " (" selects
      exactly that item's name. Every name `handle_item_addition` stores is stripped. */
  lemma LabelRoundTrip(name: string, status: string)
    requires name != [] && !IsSpace(name[0]) && !IsSpace(name[|name| - 1])
    requires !Contains(name, " (")
    ensures SelectedName(Label(Doc(Some(name), Some(status)))) == name
  {
    var shownLabel := name + " (" + status + ")";
    assert shownLabel == name + " (" + (status + ")");
    assert shownLabel[0] == name[0] && shownLabel[|shownLabel| - 1] == ')';
    StripKeeps(shownLabel);
    BeforeFirstOpening(name, status + ")");
  }

  /** A name that itself holds " (" is cut at its first " (", so the status update that
      follows names a different item. */
  lemma SelectedNameCutsAtFirstOpening()
    ensures SelectedName(Label(Doc(Some("Visa (US)"), Some(PENDING)))) == "Visa"
  {
    var shownLabel := Label(Doc(Some("Visa (US)"), Some(PENDING)));
    assert shownLabel == "Visa" + " (" + ("US) (" + PENDING + ")");
    assert shownLabel[0] == 'V' && shownLabel[|shownLabel| - 1] == ')';
    StripKeeps(shownLabel);
    NoOpeningWithoutSpace("Visa");
    BeforeFirstOpening("Visa", "US) (" + PENDING + ")");
  }

  /** The status a status-change button stores: "✅" for `done`, "❌" for `not_done`. */
  function StatusFor(data: string): (status: Option<string>)
    ensures status.Some? <==> data == "done" || data == "not_done"
    ensures data == "done" ==> status == Some(DONE)
    ensures data == "not_done" ==> status == Some(PENDING)
  {
    if data == "done" then Some(DONE) else if data == "not_done" then Some(PENDING) else None
  }

  /** The checklist text the chat sees: the translated heading, a newline, the item lines. */
  function ChecklistText(items: seq<StoredItem>, translate: string -> string): string {
    translate("checklist") + "\n" + Rendered(items)
  }

  /** Normalising an item appended at the end normalises the rest and keeps a document. */
  lemma NormalizedSnoc(items: seq<StoredItem>, item: StoredItem)
    requires item.Doc?
    ensures Normalized(items + [item]) == Normalized(items) + [item]
  {
  }

  /** An added item shows up as one more pending line at the end of the checklist, provided
      the chat has a document and no identical pending item was already in it. */
  lemma AddedItemShown(docs: map<ChatId, seq<StoredItem>>, chat: ChatId, name: string, translate: string -> string)
    requires chat in docs && NewItem(name) !in docs[chat]
    ensures Opened(Added(docs, chat, name), chat, translate) == Opened(docs, chat, translate) + [NewItem(name)]
    ensures Rendered(Opened(Added(docs, chat, name), chat, translate)) ==
            Rendered(Opened(docs, chat, translate)) + ("- " + PENDING + " " + name + "\n")
  {
    var items := docs[chat];
    var after := items + [NewItem(name)];
    assert AddToSet(items, NewItem(name)) == after;
    assert Added(docs, chat, name) == docs[chat := after];
    assert Opened(docs[chat := after], chat, translate) == Normalized(after);
    NormalizedSnoc(items, NewItem(name));
    RenderedAppend(Normalized(items), [NewItem(name)]);
    assert Rendered([NewItem(name)]) == LineOf(NewItem(name));
  }

  /** An item added while the chat has no document is lost: the update matches nothing, and
      showing the checklist afterwards seeds the defaults. */
  lemma AddWithoutDocumentLost(docs: map<ChatId, seq<StoredItem>>, chat: ChatId, name: string, translate: string -> string)
    requires chat !in docs
    ensures Opened(Added(docs, chat, name), chat, translate) == Defaults(translate)
  {
  }

  /** After a deletion no shown item carries the deleted name, unless a bare name written by
      an older version survived (`$pull` on a field does not match a bare string). */
  lemma DeletedItemGone(docs: map<ChatId, seq<StoredItem>>, chat: ChatId, name: string, translate: string -> string)
    requires chat in docs && Bare(name) !in docs[chat]
    ensures forall i :: 0 <= i < |Opened(Pulled(docs, chat, name), chat, translate)| ==>
              !Named(Opened(Pulled(docs, chat, name), chat, translate)[i], name)
  {
    var pulled := Pull(docs[chat], name);
    forall i | 0 <= i < |pulled|
      ensures !Named(NormalizeItem(pulled[i]), name)
    {
      assert pulled[i] in pulled;
    }
  }

  /** The collection after an item message while the checklist waits for an item: for a
      non-blank message, the stripped text is added and the checklist is opened again; a
      blank message changes nothing. */
  function AfterAddition(docs: map<ChatId, seq<StoredItem>>, chat: ChatId, text: string,
                         translate: string -> string): map<ChatId, seq<StoredItem>>
  {
    if Strip(text) == [] then docs
    else
      var added := Added(docs, chat, Strip(text));
      added[chat := Opened(added, chat, translate)]
  }

  /** The collection after an item message while the checklist waits for an item to delete. */
  function AfterDeletion(docs: map<ChatId, seq<StoredItem>>, chat: ChatId, text: string,
                         translate: string -> string): map<ChatId, seq<StoredItem>>
  {
    if Strip(text) == [] then docs
    else
      var pulled := Pulled(docs, chat, Strip(text));
      pulled[chat := Opened(pulled, chat, translate)]
  }

  /** The process-wide `user_states` dictionary, over the checklist store. */
  class ChecklistDialogue {
    var userStates: map<ChatId, State>
    const store: ChecklistStore

    constructor (store: ChecklistStore)
      ensures this.store == store && userStates == map[]
    {
      this.store := store;
      userStates := map[];
    }

    /** `user_states.get(chat_id)`. */
    function StateOf(chat: ChatId): State
      reads this
    {
      StateIn(userStates, chat)
    }

    /** `new_checklist`: the chat's document is replaced by the five default items. */
    method NewChecklist(chat: ChatId, translate: string -> string)
      modifies store
      ensures store.docs == old(store.docs)[chat := Defaults(translate)]
    {
      store.Replace(chat, Defaults(translate));
    }

    /** `show_checklist`: opens (and so possibly seeds or migrates) the chat's checklist and
        answers the text sent. */
    method ShowChecklist(chat: ChatId, translate: string -> string) returns (text: string)
      modifies store
      ensures store.docs == old(store.docs)[chat := Opened(old(store.docs), chat, translate)]
      ensures text == ChecklistText(Opened(old(store.docs), chat, translate), translate)
    {
      var items := store.GetOrCreate(chat, translate);
      var rendered := RenderItems(items);
      text := translate("checklist") + "\n" + rendered;
    }

    /** `show_items_for_status_update`: opens the chat's checklist and answers the labels. */
    method ShowItemsForStatusUpdate(chat: ChatId, translate: string -> string) returns (labels: seq<string>)
      modifies store
      ensures store.docs == old(store.docs)[chat := Opened(old(store.docs), chat, translate)]
      ensures labels == Labels(Opened(old(store.docs), chat, translate))
    {
      var items := store.GetOrCreate(chat, translate);
      labels := StatusLabels(items);
    }

    /** The effect of a modify button: `add_item` and `delete_item` wait for a name,
        `update_status` opens the checklist, answers its labels and waits for one, and any
        other button changes nothing. */
    twostate predicate Responded(chat: ChatId, response: string, translate: string -> string,
                                 new labels: Option<seq<string>>)
      reads this, store
    {
      && (response == "add_item" ==>
            userStates == old(userStates)[chat := WaitingForItem] && store.docs == old(store.docs) && labels.None?)
      && (response == "delete_item" ==>
            userStates == old(userStates)[chat := WaitingForItemDelete] && store.docs == old(store.docs) && labels.None?)
      && (response == "update_status" ==>
            && userStates == old(userStates)[chat := WaitingForStatusUpdate]
            && store.docs == old(store.docs)[chat := Opened(old(store.docs), chat, translate)]
            && labels == Some(Labels(Opened(old(store.docs), chat, translate))))
      && (response !in {"add_item", "delete_item", "update_status"} ==>
            userStates == old(userStates) && store.docs == old(store.docs) && labels.None?)
    }

    /** `handle_modify_checklist_response_callback`. */
    method ModifyResponse(chat: ChatId, response: string, translate: string -> string)
      returns (labels: Option<seq<string>>)
      modifies this, store
      ensures Responded(chat, response, translate, labels)
    {
      labels := None;
      if response == "add_item" {
        userStates := userStates[chat := WaitingForItem];
      } else if response == "delete_item" {
        userStates := userStates[chat := WaitingForItemDelete];
      } else if response == "update_status" {
        var shown := ShowItemsForStatusUpdate(chat, translate);
        labels := Some(shown);
        userStates := userStates[chat := WaitingForStatusUpdate];
      }
    }

    /** `handle_item_addition`: a non-blank message adds its stripped text as a pending item
        and shows the checklist; the state goes back to Idle either way. */
    method ItemAddition(chat: ChatId, text: string, translate: string -> string) returns (shown: Option<string>)
      modifies this, store
      ensures userStates == old(userStates)[chat := Idle]
      ensures store.docs == AfterAddition(old(store.docs), chat, text, translate)
      ensures shown.None? <==> Strip(text) == []
      ensures shown.Some? ==> chat in store.docs && shown.value == ChecklistText(store.docs[chat], translate)
    {
      var item := Strip(text);
      shown := None;
      if item != [] {
        store.AddItem(chat, item);
        ghost var changed := Added(old(store.docs), chat, item);
        var checklist := ShowChecklist(chat, translate);
        assert store.docs == changed[chat := Opened(changed, chat, translate)];
        shown := Some(checklist);
      }
      userStates := userStates[chat := Idle];
    }

    /** `handle_item_deletion`: a non-blank message pulls every item of that stripped name and
        shows the checklist; the state goes back to Idle either way. */
    method ItemDeletion(chat: ChatId, text: string, translate: string -> string) returns (shown: Option<string>)
      modifies this, store
      ensures userStates == old(userStates)[chat := Idle]
      ensures store.docs == AfterDeletion(old(store.docs), chat, text, translate)
      ensures shown.None? <==> Strip(text) == []
      ensures shown.Some? ==> chat in store.docs && shown.value == ChecklistText(store.docs[chat], translate)
    {
      var item := Strip(text);
      shown := None;
      if item != [] {
        store.DeleteItem(chat, item);
        ghost var changed := Pulled(old(store.docs), chat, item);
        var checklist := ShowChecklist(chat, translate);
        assert store.docs == changed[chat := Opened(changed, chat, translate)];
        shown := Some(checklist);
      }
      userStates := userStates[chat := Idle];
    }

    /** `handle_status_update_selection`: remembers the selected name and waits for its status. */
    method StatusUpdateSelection(chat: ChatId, text: string) returns (itemName: string)
      modifies this
      ensures itemName == SelectedName(text)
      ensures userStates == old(userStates)[chat := WaitingForStatusChange(itemName)]
    {
      itemName := BeforeFirst(Strip(text), " (");
      userStates := userStates[chat := WaitingForStatusChange(itemName)];
    }

    /** The effect of a status button: reading `user_states[chat_id]["item_name"]` raises
        unless the chat waits for a status, and then nothing changes; otherwise the chosen
        status is stored on the first item of the remembered name, the checklist is shown and
        the state goes back to Idle. */
    twostate predicate StatusApplied(chat: ChatId, data: string, translate: string -> string, new shown: Option<string>)
      reads this, store
    {
      if !old(StateOf(chat)).WaitingForStatusChange? then
        shown.None? && userStates == old(userStates) && store.docs == old(store.docs)
      else
        var name := old(StateOf(chat)).itemName;
        var updated := if StatusFor(data).Some? then StatusSet(old(store.docs), chat, name, StatusFor(data).value)
                       else old(store.docs);
        && userStates == old(userStates)[chat := Idle]
        && store.docs == updated[chat := Opened(updated, chat, translate)]
        && shown == Some(ChecklistText(Opened(updated, chat, translate), translate))
    }

    /** `handle_status_change_callback`. */
    method StatusChange(chat: ChatId, data: string, translate: string -> string) returns (shown: Option<string>)
      modifies this, store
      ensures StatusApplied(chat, data, translate, shown)
    {
      var state := StateOf(chat);
      if !state.WaitingForStatusChange? {
        return None;
      }
      var name := state.itemName;
      if data == "done" {
        store.UpdateItemStatus(chat, name, DONE);
      } else if data == "not_done" {
        store.UpdateItemStatus(chat, name, PENDING);
      }
      var checklist := ShowChecklist(chat, translate);
      shown := Some(checklist);
      userStates := userStates[chat := Idle];
    }
  }
}

/** The favorites provider: an ordered list of event records held in memory,
    loaded once from storage under a fixed key, and written through to storage
    in full after every change. Each operation is one atomic step; the
    interleaving of concurrent calls is not modelled. */
module Favorites {
  import opened JsValues
  import opened Console
  import opened Storage
  import opened Events

  /** The storage key of the favorites list. */
  const Key := "favoriteEvents"

  const LoadError := "Error loading favorite events:"
  const LoadErrorDutch := "Fout bij laden van favoriete evenementen:"
  const AddError := "Fout bij toevoegen van favoriet evenement:"
  const RemoveError := "Fout bij verwijderen van favoriet evenement:"

  /** The state after an operation: the in-memory list, the storage, and what
      the operation logged. */
  datatype Step = Step(favorites: seq<Event>, store: Store, log: seq<Entry>)

  /** The list a new provider holds before loading. */
  function Initial(): (favorites: seq<Event>)
    ensures |favorites| == 0
  {
    []
  }

  /** `isFavorite(id)`: some entry carries the id. */
  function IsFavorite(favorites: seq<Event>, id: EventId): (r: bool)
    ensures r <==> exists i :: 0 <= i < |favorites| && favorites[i].id == id
  {
    if favorites == [] then false
    else if favorites[0].id == id then true
    else
      var rest := IsFavorite(favorites[1..], id);
      assert forall i :: 1 <= i < |favorites| ==> favorites[i] == favorites[1..][i - 1];
      rest
  }

  /** How many entries carry the id. */
  function CountId(favorites: seq<Event>, id: EventId): (n: nat)
    ensures n <= |favorites|
    ensures n > 0 <==> IsFavorite(favorites, id)
  {
    if favorites == [] then 0
    else (if favorites[0].id == id then 1 else 0) + CountId(favorites[1..], id)
  }

  /** `favoriteEvents.filter(event => event.id !== id)`. */
  function WithoutId(favorites: seq<Event>, id: EventId): seq<Event>
  {
    if favorites == [] then []
    else if favorites[0].id == id then WithoutId(favorites[1..], id)
    else [favorites[0]] + WithoutId(favorites[1..], id)
  }

  /** An event is kept by the filter exactly when it was in the list with a
      different id. */
  lemma {:induction false} WithoutIdMembership(favorites: seq<Event>, id: EventId)
    ensures forall e :: e in WithoutId(favorites, id) <==> e in favorites && e.id != id
  {
    if favorites != [] {
      WithoutIdMembership(favorites[1..], id);
      assert favorites == [favorites[0]] + favorites[1..];
    }
  }

  /** The filter drops exactly the entries carrying the id, and leaves a list
      without that id unchanged. */
  lemma {:induction false} WithoutIdDropsOnlyId(favorites: seq<Event>, id: EventId)
    ensures |WithoutId(favorites, id)| + CountId(favorites, id) == |favorites|
    ensures !IsFavorite(favorites, id) ==> WithoutId(favorites, id) == favorites
  {
    if favorites != [] {
      WithoutIdDropsOnlyId(favorites[1..], id);
      if !IsFavorite(favorites, id) {
        assert favorites[0].id != id;
        assert favorites == [favorites[0]] + favorites[1..];
      }
    }
  }

  /** What a load finds under the key when a stored favorites list is there. */
  function StoredList(store: Store): Option<seq<Event>>
  {
    if Key in store && store[Key].JsonText? then ListFromJson(store[Key].value) else None
  }

  /** `loadFavorites`: on mount, replaces the list with the parsed stored list
      when the stored string is present and non-empty; a failed read or a
      string `JSON.parse` rejects is logged and changes nothing. */
  function Load(favorites: seq<Event>, store: Store, readSucceeds: bool): (r: Step)
    ensures r.store == store
    ensures r.log != [] <==> !readSucceeds || (Key in store && TruthyText(store[Key]) && Parse(store[Key]).None?)
    ensures r.log != [] ==> r.log == [Error(LoadError), Error(LoadErrorDutch)]
    ensures r.favorites != favorites ==> readSucceeds && StoredList(store) == Some(r.favorites)
    ensures readSucceeds && StoredList(store).Some? ==> r.favorites == StoredList(store).value
    ensures !readSucceeds || Key !in store || !TruthyText(store[Key]) ==> r.favorites == favorites
  {
    match GetItem(store, Key, readSucceeds)
    case ReadFailed => Step(favorites, store, [Error(LoadError), Error(LoadErrorDutch)])
    case Missing => Step(favorites, store, [])
    case Found(text) =>
      if !TruthyText(text) then Step(favorites, store, [])
      else match Parse(text)
        case None => Step(favorites, store, [Error(LoadError), Error(LoadErrorDutch)])
        case Some(j) =>
          match ListFromJson(j)
          case Some(list) => Step(list, store, [])
          case None => Step(favorites, store, [])
  }

  /** Sets the in-memory list to `updated`, then writes it to storage; a failed
      write is logged and the in-memory list is not rolled back. */
  function WriteThrough(updated: seq<Event>, store: Store, writeSucceeds: bool, error: string): (r: Step)
    ensures r.favorites == updated
    ensures writeSucceeds ==> Key in r.store && r.store[Key] == Stringify(ListToJson(updated))
    ensures writeSucceeds ==> StoredList(r.store) == Some(updated) && r.log == []
    ensures !writeSucceeds ==> r.store == store && r.log == [Error(error)]
    ensures r.store - {Key} == store - {Key}
  {
    ListRoundTrip(updated);
    Step(updated, SetItem(store, Key, Stringify(ListToJson(updated)), writeSucceeds),
         if writeSucceeds then [] else [Error(error)])
  }

  /** `addFavorite(event)`: appends the event, with no check for an entry
      with the same id, and writes the new list through. */
  function Add(favorites: seq<Event>, store: Store, event: Event, writeSucceeds: bool): (r: Step)
    ensures |r.favorites| == |favorites| + 1
    ensures r.favorites[..|favorites|] == favorites
    ensures r.favorites[|favorites|] == event
    ensures IsFavorite(r.favorites, event.id)
    ensures writeSucceeds ==> Key in r.store && r.store[Key] == Stringify(ListToJson(r.favorites))
    ensures writeSucceeds ==> StoredList(r.store) == Some(r.favorites) && r.log == []
    ensures !writeSucceeds ==> r.store == store && r.log == [Error(AddError)]
    ensures r.store - {Key} == store - {Key}
  {
    var updated := favorites + [event];
    assert updated[|favorites|] == event;
    WriteThrough(updated, store, writeSucceeds, AddError)
  }

  /** `removeFavorite(id)`: drops every entry with the id, keeps the others,
      and writes the new list through. */
  function Remove(favorites: seq<Event>, store: Store, id: EventId, writeSucceeds: bool): (r: Step)
    ensures r.favorites == WithoutId(favorites, id)
    ensures !IsFavorite(r.favorites, id)
    ensures forall e :: e in r.favorites <==> e in favorites && e.id != id
    ensures |r.favorites| == |favorites| - CountId(favorites, id)
    ensures !IsFavorite(favorites, id) ==> r.favorites == favorites
    ensures writeSucceeds ==> Key in r.store && r.store[Key] == Stringify(ListToJson(r.favorites))
    ensures writeSucceeds ==> StoredList(r.store) == Some(r.favorites) && r.log == []
    ensures !writeSucceeds ==> r.store == store && r.log == [Error(RemoveError)]
    ensures r.store - {Key} == store - {Key}
  {
    WithoutIdMembership(favorites, id);
    WithoutIdDropsOnlyId(favorites, id);
    var updated := WithoutId(favorites, id);
    WriteThrough(updated, store, writeSucceeds, RemoveError)
  }

  /** Filtering keeps the relative order of the entries it keeps: filtering a
      concatenation is the concatenation of the filtered parts. */
  lemma {:induction false} WithoutIdConcat(a: seq<Event>, b: seq<Event>, id: EventId)
    ensures WithoutId(a + b, id) == WithoutId(a, id) + WithoutId(b, id)
  {
    if a == [] {
      assert a + b == b;
    } else {
      var ab := a + b;
      assert ab[0] == a[0];
      assert ab[1..] == a[1..] + b;
      WithoutIdConcat(a[1..], b, id);
      if a[0].id == id {
        assert WithoutId(ab, id) == WithoutId(ab[1..], id);
        assert WithoutId(a, id) == WithoutId(a[1..], id);
      } else {
        assert WithoutId(ab, id) == [a[0]] + WithoutId(ab[1..], id);
        assert WithoutId(a, id) == [a[0]] + WithoutId(a[1..], id);
      }
    }
  }

  lemma {:induction false} CountIdAppend(favorites: seq<Event>, event: Event, id: EventId)
    ensures CountId(favorites + [event], id) == CountId(favorites, id) + (if event.id == id then 1 else 0)
  {
    if favorites != [] {
      assert (favorites + [event])[1..] == favorites[1..] + [event];
      CountIdAppend(favorites[1..], event, id);
    }
  }

  /** Adding never deduplicates: the added id is carried by one more entry
      than before, so adding an id already present leaves two entries with it. */
  lemma AddDoesNotDeduplicate(favorites: seq<Event>, store: Store, event: Event, writeSucceeds: bool)
    ensures CountId(Add(favorites, store, event, writeSucceeds).favorites, event.id) == CountId(favorites, event.id) + 1
    ensures IsFavorite(favorites, event.id) ==> CountId(Add(favorites, store, event, writeSucceeds).favorites, event.id) >= 2
  {
    CountIdAppend(favorites, event, event.id);
    assert Add(favorites, store, event, writeSucceeds).favorites == favorites + [event];
  }

  /** Removing the id of an event just added to a list that did not hold that
      id gives back exactly the earlier list. */
  lemma RemoveUndoesAdd(favorites: seq<Event>, store: Store, event: Event, addWrites: bool, removeWrites: bool)
    requires !IsFavorite(favorites, event.id)
    ensures
      var added := Add(favorites, store, event, addWrites);
      Remove(added.favorites, added.store, event.id, removeWrites).favorites == favorites
  {
    var added := Add(favorites, store, event, addWrites);
    assert added.favorites == favorites + [event];
    WithoutIdConcat(favorites, [event], event.id);
    WithoutIdDropsOnlyId(favorites, event.id);
    assert WithoutId(favorites + [event], event.id) == favorites;
    assert Remove(added.favorites, added.store, event.id, removeWrites).favorites == WithoutId(added.favorites, event.id);
  }

  /** The in-memory update does not depend on whether the write succeeded:
      there is no rollback. */
  lemma NoRollback(favorites: seq<Event>, store: Store, event: Event, id: EventId)
    ensures Add(favorites, store, event, false).favorites == Add(favorites, store, event, true).favorites
    ensures Remove(favorites, store, id, false).favorites == Remove(favorites, store, id, true).favorites
    ensures Add(favorites, store, event, false).store == store
    ensures Remove(favorites, store, id, false).store == store
  {
  }

  /** After a successful add, a restart (a fresh provider loading from the
      same storage) holds the same list, and the event is a favorite. */
  lemma AddThenRestart(favorites: seq<Event>, store: Store, event: Event)
    ensures
      var reloaded := Load(Initial(), Add(favorites, store, event, true).store, true);
      reloaded.favorites == favorites + [event] && IsFavorite(reloaded.favorites, event.id) && reloaded.log == []
  {
    var added := Add(favorites, store, event, true);
    assert added.favorites == favorites + [event];
  }

  /** After a successful remove, a restart holds the same list, without the id. */
  lemma RemoveThenRestart(favorites: seq<Event>, store: Store, id: EventId)
    ensures
      var removed := Remove(favorites, store, id, true);
      var reloaded := Load(Initial(), removed.store, true);
      reloaded.favorites == removed.favorites && !IsFavorite(reloaded.favorites, id)
  {
  }

  /** One call of `addFavorite` or `removeFavorite`. */
  datatype Op = AddOp(event: Event) | RemoveOp(id: EventId)

  function Apply(favorites: seq<Event>, store: Store, op: Op, writeSucceeds: bool): Step
  {
    match op
    case AddOp(e) => Add(favorites, store, e, writeSucceeds)
    case RemoveOp(id) => Remove(favorites, store, id, writeSucceeds)
  }

  /** Runs the calls one after the other; `writes[i]` says whether the write
      of call `i` succeeds. */
  function Replay(favorites: seq<Event>, store: Store, ops: seq<Op>, writes: seq<bool>): (r: Step)
    requires |writes| == |ops|
    ensures |ops| > 0 && writes[|ops| - 1] ==> StoredList(r.store) == Some(r.favorites)
    decreases |ops|
  {
    if ops == [] then Step(favorites, store, [])
    else
      var prev := Replay(favorites, store, ops[..|ops| - 1], writes[..|ops| - 1]);
      var last := Apply(prev.favorites, prev.store, ops[|ops| - 1], writes[|ops| - 1]);
      Step(last.favorites, last.store, prev.log + last.log)
  }

  /** The last call that names the id: `Some(true)` for an add, `Some(false)`
      for a remove, `None` when no call names it. */
  function LastWord(ops: seq<Op>, id: EventId): Option<bool>
  {
    if ops == [] then None
    else match ops[|ops| - 1]
      case AddOp(e) => if e.id == id then Some(true) else LastWord(ops[..|ops| - 1], id)
      case RemoveOp(x) => if x == id then Some(false) else LastWord(ops[..|ops| - 1], id)
  }

  lemma IsFavoriteAppend(favorites: seq<Event>, event: Event, id: EventId)
    ensures IsFavorite(favorites + [event], id) <==> IsFavorite(favorites, id) || event.id == id
  {
    var l := favorites + [event];
    if IsFavorite(favorites, id) {
      var i :| 0 <= i < |favorites| && favorites[i].id == id;
      assert l[i] == favorites[i];
    }
    assert l[|favorites|] == event;
    if IsFavorite(l, id) && event.id != id {
      var i :| 0 <= i < |l| && l[i].id == id;
      assert l[i] == favorites[i];
    }
  }

  lemma IsFavoriteWithoutId(favorites: seq<Event>, removed: EventId, id: EventId)
    ensures IsFavorite(WithoutId(favorites, removed), id) <==> removed != id && IsFavorite(favorites, id)
  {
    var l := WithoutId(favorites, removed);
    WithoutIdMembership(favorites, removed);
    if IsFavorite(l, id) {
      var i :| 0 <= i < |l| && l[i].id == id;
      assert l[i] in l;
    }
    if removed != id && IsFavorite(favorites, id) {
      var i :| 0 <= i < |favorites| && favorites[i].id == id;
      assert favorites[i] in l;
    }
  }

  /** Membership after any run of adds and removes is decided by the last call
      naming the id, whatever the writes did; with no such call it is as before. */
  lemma {:induction false} ReplayMembership(favorites: seq<Event>, store: Store, ops: seq<Op>, writes: seq<bool>, id: EventId)
    requires |writes| == |ops|
    ensures IsFavorite(Replay(favorites, store, ops, writes).favorites, id) ==
      match LastWord(ops, id)
      case Some(added) => added
      case None => IsFavorite(favorites, id)
    decreases |ops|
  {
    if ops != [] {
      var n := |ops| - 1;
      var prev := Replay(favorites, store, ops[..n], writes[..n]);
      ReplayMembership(favorites, store, ops[..n], writes[..n], id);
      var next := Apply(prev.favorites, prev.store, ops[n], writes[n]);
      assert Replay(favorites, store, ops, writes).favorites == next.favorites;
      match ops[n]
      case AddOp(e) =>
        assert next.favorites == prev.favorites + [e];
        IsFavoriteAppend(prev.favorites, e, id);
      case RemoveOp(x) =>
        assert next.favorites == WithoutId(prev.favorites, x);
        IsFavoriteWithoutId(prev.favorites, x, id);
    }
  }
}

/** The event registry of the board game: a keyed table of square events with
    validated registration, partial update, removal and reset to the defaults. */
module Registry {
  import opened Optional

  /** The `type` strings of EVENT_TYPES. */
  const ADVANCE: string := "advance"
  const RETREAT: string := "retreat"
  const SKIP_TURN: string := "skip_turn"
  const BONUS: string := "bonus"
  const SWAP: string := "swap"
  const NEUTRAL: string := "neutral"

  /** The ids of the built-in events. */
  const ID_ADVANCE_1: string := "advance_1"
  const ID_ADVANCE_2: string := "advance_2"
  const ID_ADVANCE_3: string := "advance_3"
  const ID_RETREAT_1: string := "retreat_1"
  const ID_RETREAT_2: string := "retreat_2"
  const ID_RETREAT_3: string := "retreat_3"
  const ID_SKIP_TURN: string := "skip_turn"
  const ID_BONUS: string := "bonus"
  const ID_SWAP: string := "swap"
  const ID_NEUTRAL_1: string := "neutral_1"
  const ID_NEUTRAL_2: string := "neutral_2"
  const ID_NEUTRAL_3: string := "neutral_3"

  /** A square event. `kind` is the source's `type` field; `effect` is
      `effect.value`, `None` when the effect object or its value is absent.
      `description` and `icon` are display text and are not modelled. */
  datatype Event = Event(id: string, name: string, kind: string, effect: Option<int>)

  /** The argument of `updateEvent`: each field present in the update object
      overrides the stored one. For `effect`, `Some(None)` is an update that
      sets the effect to an empty object. */
  datatype EventPatch = EventPatch(
    id: Option<string>, name: Option<string>, kind: Option<string>, effect: Option<Option<int>>)

  /** The twelve built-in events, in registration order. */
  function DefaultEvents(): seq<Event>
  {
    [ Event(ID_ADVANCE_1, "追い風！", ADVANCE, Some(1)),
      Event(ID_ADVANCE_2, "ダッシュ！", ADVANCE, Some(2)),
      Event(ID_ADVANCE_3, "ワープ！", ADVANCE, Some(3)),
      Event(ID_RETREAT_1, "落とし穴！", RETREAT, Some(1)),
      Event(ID_RETREAT_2, "逆風！", RETREAT, Some(2)),
      Event(ID_RETREAT_3, "迷子！", RETREAT, Some(3)),
      Event(ID_SKIP_TURN, "1回休み", SKIP_TURN, None),
      Event(ID_BONUS, "もう1回！", BONUS, None),
      Event(ID_SWAP, "入れ替え！", SWAP, None),
      Event(ID_NEUTRAL_1, "休憩所", NEUTRAL, None),
      Event(ID_NEUTRAL_2, "お花畑", NEUTRAL, None),
      Event(ID_NEUTRAL_3, "星空", NEUTRAL, None) ]
  }

  /** The ids of the built-in events, in registration order. */
  function DefaultIds(): seq<string>
  {
    [ID_ADVANCE_1, ID_ADVANCE_2, ID_ADVANCE_3, ID_RETREAT_1, ID_RETREAT_2, ID_RETREAT_3,
     ID_SKIP_TURN, ID_BONUS, ID_SWAP, ID_NEUTRAL_1, ID_NEUTRAL_2, ID_NEUTRAL_3]
  }

  /** No built-in id is the empty string. */
  lemma {:induction false} DefaultIdsNonEmpty()
    ensures forall k :: 0 <= k < |DefaultIds()| ==> |DefaultIds()[k]| > 0
    ensures "" !in DefaultIds()
  {
    assert forall k :: 0 <= k < |DefaultIds()| ==> |DefaultIds()[k]| > 0;
  }

  lemma {:induction false} DefaultIdsOfEvents()
    ensures |DefaultIds()| == |DefaultEvents()|
    ensures forall k :: 0 <= k < |DefaultEvents()| ==> DefaultIds()[k] == DefaultEvents()[k].id
  {
  }

  /** The table that registering `evs` one after another into an empty table builds. */
  function TableOf(evs: seq<Event>): (t: map<string, Event>)
    ensures forall k :: k in t <==> exists j :: 0 <= j < |evs| && evs[j].id == k
  {
    if evs == [] then map[]
    else
      var t := TableOf(evs[..|evs| - 1]);
      assert forall j :: 0 <= j < |evs| - 1 ==> evs[..|evs| - 1][j] == evs[j];
      t[evs[|evs| - 1].id := evs[|evs| - 1]]
  }

  /** The registry contents right after loading the defaults. */
  function DefaultTable(): map<string, Event>
  {
    TableOf(DefaultEvents())
  }

  ghost predicate Distinct(ids: seq<string>)
  {
    forall i, j :: 0 <= i < j < |ids| ==> ids[i] != ids[j]
  }

  /** `!event.id || !event.name || !event.type`: none of the three may be empty. */
  predicate HasRequiredFields(ev: Event)
  {
    ev.id != "" && ev.name != "" && ev.kind != ""
  }

  /** `{ ...existing, ...updates }`. */
  function Merge(existing: Event, updates: EventPatch): (merged: Event)
    ensures merged.id == (if updates.id.Some? then updates.id.value else existing.id)
    ensures merged.name == (if updates.name.Some? then updates.name.value else existing.name)
    ensures merged.kind == (if updates.kind.Some? then updates.kind.value else existing.kind)
    ensures merged.effect == (if updates.effect.Some? then updates.effect.value else existing.effect)
  {
    Event(
      if updates.id.Some? then updates.id.value else existing.id,
      if updates.name.Some? then updates.name.value else existing.name,
      if updates.kind.Some? then updates.kind.value else existing.kind,
      if updates.effect.Some? then updates.effect.value else existing.effect)
  }

  /** A patch with no field present. */
  function NoChange(): EventPatch
  {
    EventPatch(None, None, None, None)
  }

  /** Spreading an empty update object gives back the stored event. */
  lemma {:induction false} MergeNoChange(existing: Event)
    ensures Merge(existing, NoChange()) == existing
  {
  }

  /** Spreading the same update object twice is spreading it once. */
  lemma {:induction false} MergeIdempotent(existing: Event, updates: EventPatch)
    ensures Merge(Merge(existing, updates), updates) == Merge(existing, updates)
  {
  }

  /** Every stored event carries its own key as its id. */
  predicate KeyedById(t: map<string, Event>)
  {
    forall k :: k in t ==> t[k].id == k
  }

  /** `updateEvent` stores the merge under the old key even when the update
      object carries a different `id`: the table stays keyed by id exactly when
      the update leaves the id alone or repeats it. */
  lemma {:induction false} MergeKeepsKeyed(t: map<string, Event>, id: string, updates: EventPatch)
    requires KeyedById(t) && id in t
    ensures KeyedById(t[id := Merge(t[id], updates)]) <==> updates.id.None? || updates.id.value == id
  {
    var t' := t[id := Merge(t[id], updates)];
    assert t'[id].id == Merge(t[id], updates).id;
    if updates.id.None? || updates.id.value == id {
      forall k | k in t' ensures t'[k].id == k {
        if k != id {
          assert t'[k] == t[k];
        }
      }
    }
  }

  /** `registerEvent` stores each event under its own id, so the table stays keyed by id. */
  lemma {:induction false} PutKeepsKeyed(t: map<string, Event>, ev: Event)
    requires KeyedById(t)
    ensures KeyedById(t[ev.id := ev])
  {
    var t' := t[ev.id := ev];
    forall k | k in t' ensures t'[k].id == k {
      if k != ev.id {
        assert t'[k] == t[k];
      }
    }
  }

  /** The key list with `id` taken out (what `Map.delete` does to the iteration order). */
  function Without(ids: seq<string>, id: string): (rest: seq<string>)
    ensures forall k :: k in rest <==> k in ids && k != id
  {
    if ids == [] then []
    else if ids[0] == id then Without(ids[1..], id)
    else [ids[0]] + Without(ids[1..], id)
  }

  /** A repetition-free listing of a set has as many entries as the set. */
  lemma {:induction false} DistinctListingSize(ids: seq<string>, keys: set<string>)
    requires Distinct(ids)
    requires forall k :: k in keys <==> k in ids
    ensures |ids| == |keys|
  {
    if ids != [] {
      var rest := ids[1..];
      assert forall k :: k in keys - {ids[0]} <==> k in rest by {
        forall k ensures k in keys - {ids[0]} <==> k in rest {
          if k in rest {
            var j :| 0 <= j < |rest| && rest[j] == k;
            assert ids[j + 1] == k;
          }
          if k in ids && k != ids[0] {
            var j :| 0 <= j < |ids| && ids[j] == k;
            assert j > 0 && rest[j - 1] == k;
          }
        }
      }
      DistinctListingSize(rest, keys - {ids[0]});
    }
  }

  /** A cheap fingerprint of an id: its length, last and first character. */
  function Fingerprint(id: string): (int, char, char)
  {
    if id == [] then (0, ' ', ' ') else (|id|, id[|id| - 1], id[0])
  }

  /** The built-in ids are pairwise different (their fingerprints already are). */
  lemma {:induction false} DefaultIdsDistinct()
    ensures Distinct(DefaultIds())
  {
    var ids := DefaultIds();
    var prints := seq(|ids|, k requires 0 <= k < |ids| => Fingerprint(ids[k]));
    assert prints == [(9, '1', 'a'), (9, '2', 'a'), (9, '3', 'a'), (9, '1', 'r'), (9, '2', 'r'), (9, '3', 'r'),
                      (9, 'n', 's'), (5, 's', 'b'), (4, 'p', 's'), (9, '1', 'n'), (9, '2', 'n'), (9, '3', 'n')];
    forall i, j | 0 <= i < j < |ids| ensures ids[i] != ids[j] {
      assert prints[i] != prints[j];
    }
  }

  /** Registering events with pairwise different ids keeps each one under its id. */
  lemma {:induction false} TableOfLookup(evs: seq<Event>)
    requires forall i, j :: 0 <= i < j < |evs| ==> evs[i].id != evs[j].id
    ensures forall k :: 0 <= k < |evs| ==> TableOf(evs)[evs[k].id] == evs[k]
  {
    if evs != [] {
      var init, last := evs[..|evs| - 1], evs[|evs| - 1];
      assert forall i, j :: 0 <= i < j < |init| ==> init[i].id != init[j].id by {
        forall i, j | 0 <= i < j < |init| ensures init[i].id != init[j].id {
          assert init[i] == evs[i] && init[j] == evs[j];
        }
      }
      TableOfLookup(init);
      forall k | 0 <= k < |evs| ensures TableOf(evs)[evs[k].id] == evs[k] {
        if k < |evs| - 1 {
          assert init[k] == evs[k];
          assert evs[k].id != last.id;
        }
      }
    }
  }

  /** After loading the defaults the registry holds exactly the twelve built-in
      events, each under its own id. */
  lemma {:induction false} DefaultTableContents()
    ensures forall k :: k in DefaultTable() <==> k in DefaultIds()
    ensures forall k :: 0 <= k < |DefaultEvents()| ==> DefaultTable()[DefaultEvents()[k].id] == DefaultEvents()[k]
    ensures |DefaultTable()| == 12
  {
    var ids := DefaultIds();
    DefaultIdsOfEvents();
    DefaultIdsDistinct();
    forall k ensures k in DefaultTable() <==> k in ids {
      if k in ids {
        var j :| 0 <= j < |ids| && ids[j] == k;
        assert DefaultEvents()[j].id == k;
      }
      if k in DefaultTable() {
        var j :| 0 <= j < |DefaultEvents()| && DefaultEvents()[j].id == k;
        assert ids[j] == k;
      }
    }
    forall i, j | 0 <= i < j < |DefaultEvents()| ensures DefaultEvents()[i].id != DefaultEvents()[j].id {
      assert ids[i] != ids[j];
    }
    TableOfLookup(DefaultEvents());
    DistinctListingSize(ids, DefaultTable().Keys);
  }

  /** Registering one event after another stores each under its own id. */
  lemma {:induction false} TableOfKeyed(evs: seq<Event>)
    ensures KeyedById(TableOf(evs))
    decreases |evs|
  {
    if evs != [] {
      TableOfKeyed(evs[..|evs| - 1]);
      PutKeepsKeyed(TableOf(evs[..|evs| - 1]), evs[|evs| - 1]);
    }
  }

  /** The registry. A JavaScript `Map` iterates in insertion order, so the model
      keeps that order in `order` beside the table itself. */
  class EventRegistry {
    var order: seq<string>
    var events: map<string, Event>

    ghost predicate Valid()
      reads this
    {
      Distinct(order) && forall k :: k in events <==> k in order
    }

    /** The registry right after module initialisation. */
    constructor ()
      ensures Valid()
      ensures events == DefaultTable() && order == DefaultIds()
    {
      order, events := [], map[];
      new;
      LoadDefaults();
    }

    /** `events.set(id, ev)`: a known key keeps its place in the order, a new one goes last. */
    method Put(id: string, ev: Event)
      requires Valid()
      modifies this
      ensures Valid()
      ensures events == old(events)[id := ev]
      ensures order == if id in old(events) then old(order) else old(order) + [id]
    {
      if id !in events {
        order := order + [id];
      }
      events := events[id := ev];
    }

    /** `defaultEvents.forEach(event => events.set(event.id, { ...event }))` on an empty table. */
    method LoadDefaults()
      requires Valid() && events == map[] && order == []
      modifies this
      ensures Valid()
      ensures events == DefaultTable() && order == DefaultIds()
    {
      DefaultIdsOfEvents();
      DefaultIdsDistinct();
      forall i, j | 0 <= i < j < |DefaultEvents()| ensures DefaultEvents()[i].id != DefaultEvents()[j].id {
        assert DefaultIds()[i] != DefaultIds()[j];
      }
      LoadAll(DefaultEvents(), DefaultIds());
    }

    /** Registers `evs` one after another; `ids` lists their ids. */
    method LoadAll(evs: seq<Event>, ghost ids: seq<string>)
      requires Valid() && events == map[] && order == []
      requires |ids| == |evs| && forall k :: 0 <= k < |evs| ==> ids[k] == evs[k].id
      requires Distinct(ids)
      modifies this
      ensures Valid()
      ensures events == TableOf(evs) && order == ids
    {
      var i := 0;
      while i < |evs|
        invariant 0 <= i <= |evs|
        invariant Valid()
        invariant order == ids[..i]
        invariant events == TableOf(evs[..i])
      {
        FreshId(ids, i);
        Put(evs[i].id, evs[i]);
        TableOfStep(evs, i);
        assert ids[..i + 1] == ids[..i] + [ids[i]];
        i := i + 1;
      }
      assert ids[..i] == ids;
      assert evs[..i] == evs;
    }

    /** `getEvent`: a copy of the stored event, or `null` for an unknown id. */
    function GetEvent(id: string): (r: Option<Event>)
      reads this
      ensures r.Some? <==> id in events
      ensures r.Some? ==> r.value == events[id]
    {
      if id in events then Some(events[id]) else None
    }

    /** `getAllEvents`: one copy per registered event, in insertion order. */
    function GetAllEvents(): (all: seq<Event>)
      reads this
      requires Valid()
      ensures |all| == |order| == |events|
      ensures forall k :: 0 <= k < |all| ==> order[k] in events && all[k] == events[order[k]]
      ensures forall id :: id in events ==> exists k :: 0 <= k < |all| && order[k] == id
    {
      DistinctListingSize(order, events.Keys);
      assert forall k :: 0 <= k < |order| ==> order[k] in events;
      seq(|order|, k requires 0 <= k < |order| && order[k] in events reads this => events[order[k]])
    }

    /** `registerEvent`: throws unless id, name and type are all non-empty;
        otherwise adds the event or overwrites the one with the same id. */
    method RegisterEvent(ev: Event) returns (status: Status)
      requires Valid()
      modifies this
      ensures Valid()
      ensures status == if HasRequiredFields(ev) then Done else Failed(MissingRequiredField)
      ensures status.Done? ==> events == old(events)[ev.id := ev] && GetEvent(ev.id) == Some(ev)
      ensures status.Done? ==> order == if ev.id in old(events) then old(order) else old(order) + [ev.id]
      ensures old(KeyedById(events)) ==> KeyedById(events)
      ensures status.Failed? ==> events == old(events) && order == old(order)
    {
      if !HasRequiredFields(ev) {
        return Failed(MissingRequiredField);
      }
      if KeyedById(events) {
        PutKeepsKeyed(events, ev);
      }
      Put(ev.id, ev);
      status := Done;
    }

    /** `updateEvent`: throws for an unknown id; otherwise replaces the stored
        event by its merge with `updates`, under the same key. */
    method UpdateEvent(id: string, updates: EventPatch) returns (status: Status)
      requires Valid()
      modifies this
      ensures Valid()
      ensures order == old(order)
      ensures status == if id in old(events) then Done else Failed(EventNotFound(id))
      ensures status.Done? ==> events == old(events)[id := Merge(old(events)[id], updates)]
      ensures status.Failed? ==> events == old(events)
      ensures old(KeyedById(events)) && status.Done? ==>
                (KeyedById(events) <==> updates.id.None? || updates.id.value == id)
    {
      if id !in events {
        return Failed(EventNotFound(id));
      }
      if KeyedById(events) {
        MergeKeepsKeyed(events, id, updates);
      }
      Put(id, Merge(events[id], updates));
      status := Done;
    }

    /** `removeEvent`: drops the entry if there is one; an unknown id is a no-op. */
    method RemoveEvent(id: string)
      requires Valid()
      modifies this
      ensures Valid()
      ensures events == old(events) - {id}
      ensures GetEvent(id) == None
      ensures forall k :: k != id ==> GetEvent(k) == old(GetEvent(k))
      ensures id !in old(events) ==> events == old(events) && order == old(order)
      ensures order == Without(old(order), id)
    {
      WithoutAbsent(order, id);
      WithoutDistinct(order, id);
      events := events - {id};
      order := Without(order, id);
    }

    /** `reset`: clear, then load the twelve defaults again, whatever happened before. */
    method Reset()
      requires Valid()
      modifies this
      ensures Valid()
      ensures events == DefaultTable() && order == DefaultIds()
      ensures |events| == 12 && KeyedById(events)
    {
      TableOfKeyed(DefaultEvents());
      events, order := map[], [];
      LoadDefaults();
      DefaultTableContents();
    }
  }

  /** An id of a repetition-free listing does not occur before its place. */
  lemma {:induction false} FreshId(ids: seq<string>, i: int)
    requires Distinct(ids) && 0 <= i < |ids|
    ensures ids[i] !in ids[..i]
  {
    forall j | 0 <= j < i ensures ids[..i][j] != ids[i] {
      assert ids[..i][j] == ids[j];
    }
  }

  /** Registering one more event extends the table by that event. */
  lemma {:induction false} TableOfStep(evs: seq<Event>, i: int)
    requires 0 <= i < |evs|
    ensures TableOf(evs[..i + 1]) == TableOf(evs[..i])[evs[i].id := evs[i]]
  {
    assert evs[..i + 1][..i] == evs[..i];
    assert evs[..i + 1][i] == evs[i];
  }

  /** Taking out a key that is not listed leaves the listing as it is. */
  lemma {:induction false} WithoutAbsent(ids: seq<string>, id: string)
    ensures id !in ids ==> Without(ids, id) == ids
  {
    if ids != [] && id !in ids {
      WithoutAbsent(ids[1..], id);
    }
  }

  /** Taking out a key keeps a listing free of repetitions. */
  lemma {:induction false} WithoutDistinct(ids: seq<string>, id: string)
    requires Distinct(ids)
    ensures Distinct(Without(ids, id))
  {
    if ids != [] {
      assert Distinct(ids[1..]) by {
        forall i, j | 0 <= i < j < |ids| - 1 ensures ids[1..][i] != ids[1..][j] {
          assert ids[i + 1] != ids[j + 1];
        }
      }
      WithoutDistinct(ids[1..], id);
      if ids[0] != id {
        var rest := Without(ids[1..], id);
        assert ids[0] !in ids[1..];
        assert ids[0] !in rest;
        var all := [ids[0]] + rest;
        forall i, j | 0 <= i < j < |all| ensures all[i] != all[j] {
          if i == 0 {
            assert all[j] == rest[j - 1];
          } else {
            assert all[i] == rest[i - 1] && all[j] == rest[j - 1];
          }
        }
      }
    }
  }
}

/** D&D days and player availability (src/lib/stores/dndSessions.ts). Each store
    mirrors one path of the realtime database, modelled as a map from child
    key to stored value: writes change that map, and every change event
    replaces the store's list with a projection of it. */
module DndSessions {
  import opened Seqs

  datatype DndDay = DndDay(date: string, isDndDay: bool, isTentative: bool)

  /** The value stored under `dndDays/<date>`; a flag missing from it is `None`. */
  datatype DayRecord = DayRecord(isDndDay: Option<bool>, isTentative: Option<bool>)

  /** `boolean | 'tentative'` */
  datatype CanPlay = Answer(canPlay: bool) | Tentative

  datatype PlayerAvailability = PlayerAvailability(id: string, date: string, playerName: string, canPlay: CanPlay)

  /** `Omit<PlayerAvailability, 'id'>`: what `add` is given and writes. */
  datatype AvailabilityFields = AvailabilityFields(date: string, playerName: string, canPlay: CanPlay)

  /** The value stored under `playerAvailability/<key>`. It has an `id` field
      only if some writer other than `add` put one there. */
  datatype AvailabilityRecord = AvailabilityRecord(storedId: Option<string>, date: string, playerName: string, canPlay: CanPlay)

  /** `order` is the order in which the change event delivers the children of
      `m`: each key exactly once. */
  ghost predicate ListsKeys<V>(order: seq<string>, m: map<string, V>)
  {
    && |order| == |m|
    && (forall i :: 0 <= i < |order| ==> order[i] in m)
    && (forall k :: k in m ==> k in order)
    && (forall i, j :: 0 <= i < j < |order| ==> order[i] != order[j])
  }

  /** `value || false` for a flag that may be missing. */
  function FlagOrFalse(flag: Option<bool>): bool
  {
    flag == Some(true)
  }

  /** The `onValue` projection of `dndDays`: one day per stored date, in
      delivery order, with a missing flag read as false. */
  function ProjectDays(db: map<string, DayRecord>, order: seq<string>): (days: seq<DndDay>)
    requires ListsKeys(order, db)
    ensures |days| == |order|
    ensures forall i :: 0 <= i < |days| ==>
              && days[i].date == order[i]
              && days[i].isDndDay == FlagOrFalse(db[order[i]].isDndDay)
              && days[i].isTentative == FlagOrFalse(db[order[i]].isTentative)
    ensures forall date :: date in db <==> exists i :: 0 <= i < |days| && days[i].date == date
    ensures forall i, j :: 0 <= i < j < |days| ==> days[i].date != days[j].date
    ensures db == map[] ==> days == []
  {
    if db == map[] then
      []
    else
      seq(|order|, i requires 0 <= i < |order| =>
        DndDay(order[i], FlagOrFalse(db[order[i]].isDndDay), FlagOrFalse(db[order[i]].isTentative)))
  }

  function OnDate(date: string): DndDay -> bool
  {
    (d: DndDay) => d.date == date
  }

  /** `days.find(d => d.date === date)?.isDndDay || false` */
  function IsDndDay(days: seq<DndDay>, date: string): (r: bool)
    ensures r <==> exists i :: 0 <= i < |days| && days[i].date == date && days[i].isDndDay &&
                              forall j :: 0 <= j < i ==> days[j].date != date
  {
    var i := FindIndex(days, OnDate(date));
    i >= 0 && days[i].isDndDay
  }

  /** `days.find(d => d.date === date)?.isTentative || false` */
  function IsTentative(days: seq<DndDay>, date: string): (r: bool)
    ensures r <==> exists i :: 0 <= i < |days| && days[i].date == date && days[i].isTentative &&
                              forall j :: 0 <= j < i ==> days[j].date != date
  {
    var i := FindIndex(days, OnDate(date));
    i >= 0 && days[i].isTentative
  }

  /** The dates map as `setDndDay(date, isDndDay, isTentative)` leaves it once
      its write went through. */
  function SetDay(db: map<string, DayRecord>, date: string, isDndDay: bool, isTentative: bool): (r: map<string, DayRecord>)
    ensures date in r <==> isDndDay || isTentative
    ensures date in r ==> r[date] == DayRecord(Some(isDndDay), Some(isTentative))
    ensures forall k :: k != date ==> (k in r <==> k in db)
    ensures forall k :: k != date && k in db ==> r[k] == db[k]
  {
    if isDndDay || isTentative then db[date := DayRecord(Some(isDndDay), Some(isTentative))]
    else db - {date}
  }

  /** A day in a list with distinct dates is found at its own index. */
  lemma DistinctDateFound(days: seq<DndDay>, i: nat)
    requires i < |days|
    requires forall a, b :: 0 <= a < b < |days| ==> days[a].date != days[b].date
    ensures FindIndex(days, OnDate(days[i].date)) == i
  {
    var r := FindIndex(days, OnDate(days[i].date));
    assert OnDate(days[i].date)(days[i]);
    assert r != -1;
  }

  /** After `setDndDay(date, a, t)` has been written and the change event has
      been projected, `isDndDay(date)` is `a` and `isTentative(date)` is `t`,
      whatever order the children arrive in. */
  lemma SetDayThenQuery(db: map<string, DayRecord>, date: string, a: bool, t: bool, order: seq<string>)
    requires ListsKeys(order, SetDay(db, date, a, t))
    ensures IsDndDay(ProjectDays(SetDay(db, date, a, t), order), date) == a
    ensures IsTentative(ProjectDays(SetDay(db, date, a, t), order), date) == t
  {
    var m := SetDay(db, date, a, t);
    var days := ProjectDays(m, order);
    if a || t {
      var i :| 0 <= i < |days| && days[i].date == date;
      DistinctDateFound(days, i);
    } else {
      assert FindIndex(days, OnDate(date)) == -1 by {
        forall i | 0 <= i < |days| ensures !OnDate(date)(days[i]) {
          assert days[i].date == order[i] && order[i] in m;
        }
      }
    }
  }

  /** The store built by `createDndDaysStore`, with the `dndDays` path it mirrors. */
  class DndDaysStore {
    var days: seq<DndDay>
    /** The children of `dndDays` in the database. */
    var remote: map<string, DayRecord>

    constructor (remote: map<string, DayRecord>)
      ensures days == [] && this.remote == remote
    {
      days := [];
      this.remote := remote;
    }

    /** The `onValue` callback: the list becomes the projection of the
        database's current children (none for a null snapshot). */
    method OnValue(order: seq<string>)
      requires ListsKeys(order, remote)
      modifies this`days
      ensures days == ProjectDays(remote, order)
    {
      if remote == map[] {
        days := [];
      } else {
        days := ProjectDays(remote, order);
      }
    }

    /** `setDndDay`: write or delete `dndDays/<date>`. `written` is whether the
        database call succeeded; a failure is logged and swallowed. */
    method SetDndDay(date: string, isDndDay: bool, isTentative: bool, written: bool)
      modifies this`remote
      ensures remote == if written then SetDay(old(remote), date, isDndDay, isTentative) else old(remote)
    {
      if written {
        remote := SetDay(remote, date, isDndDay, isTentative);
      }
    }
  }

  /** The `onValue` projection of `playerAvailability`: `{ id: key, ...value }`,
      so an `id` stored inside the value wins over the key. */
  function ProjectAvailability(db: map<string, AvailabilityRecord>, order: seq<string>): (list: seq<PlayerAvailability>)
    requires ListsKeys(order, db)
    ensures |list| == |order|
    ensures forall i :: 0 <= i < |list| ==>
              var rec := db[order[i]];
              && list[i].id == (if rec.storedId.Some? then rec.storedId.value else order[i])
              && list[i].date == rec.date
              && list[i].playerName == rec.playerName
              && list[i].canPlay == rec.canPlay
    ensures db == map[] ==> list == []
  {
    if db == map[] then
      []
    else
      seq(|order|, i requires 0 <= i < |order| =>
        var rec := db[order[i]];
        PlayerAvailability(if rec.storedId.Some? then rec.storedId.value else order[i],
                           rec.date, rec.playerName, rec.canPlay))
  }

  /** When no stored value carries its own `id`, the ids of the projected list
      are exactly the keys, so they are distinct. */
  lemma AvailabilityIdsAreKeys(db: map<string, AvailabilityRecord>, order: seq<string>)
    requires ListsKeys(order, db)
    requires forall k :: k in db ==> db[k].storedId == None
    ensures forall k :: k in db <==> exists i :: 0 <= i < |ProjectAvailability(db, order)| &&
                                                ProjectAvailability(db, order)[i].id == k
    ensures forall i, j :: 0 <= i < j < |ProjectAvailability(db, order)| ==>
              ProjectAvailability(db, order)[i].id != ProjectAvailability(db, order)[j].id
  {
    var list := ProjectAvailability(db, order);
    forall k | k in db
      ensures exists i :: 0 <= i < |list| && list[i].id == k
    {
      var i :| 0 <= i < |order| && order[i] == k;
      assert list[i].id == k;
    }
  }

  /** The record that `add` writes: the fields without an id. */
  function RecordOf(fields: AvailabilityFields): AvailabilityRecord
  {
    AvailabilityRecord(None, fields.date, fields.playerName, fields.canPlay)
  }

  function AvailableOn(date: string): PlayerAvailability -> bool
  {
    (a: PlayerAvailability) => a.date == date
  }

  /** `getByDate`: the entries for that date, in list order. */
  function GetByDate(list: seq<PlayerAvailability>, date: string): (r: seq<PlayerAvailability>)
    ensures forall i :: 0 <= i < |r| ==> r[i].date == date && r[i] in list
    ensures forall i :: 0 <= i < |list| && list[i].date == date ==> list[i] in r
    ensures |r| <= |list|
  {
    Filter(list, AvailableOn(date))
  }

  /** `getByDate` keeps list order and multiplicity: splitting the list
      anywhere around one entry splits the result the same way. */
  lemma {:induction false} GetByDateKeepsOrder(a: seq<PlayerAvailability>, x: PlayerAvailability,
                                               b: seq<PlayerAvailability>, date: string)
    ensures GetByDate(a + [x] + b, date) ==
            GetByDate(a, date) + (if x.date == date then [x] else []) + GetByDate(b, date)
  {
    FilterAppend(a + [x], b, AvailableOn(date));
    FilterAppend(a, [x], AvailableOn(date));
    assert Filter([x], AvailableOn(date)) == if x.date == date then [x] else [];
  }

  /** The store built by `createPlayerAvailabilityStore`, with the
      `playerAvailability` path it mirrors. */
  class AvailabilityStore {
    var list: seq<PlayerAvailability>
    /** The children of `playerAvailability` in the database. */
    var remote: map<string, AvailabilityRecord>

    constructor (remote: map<string, AvailabilityRecord>)
      ensures list == [] && this.remote == remote
    {
      list := [];
      this.remote := remote;
    }

    /** The `onValue` callback. */
    method OnValue(order: seq<string>)
      requires ListsKeys(order, remote)
      modifies this`list
      ensures list == ProjectAvailability(remote, order)
    {
      if remote == map[] {
        list := [];
      } else {
        list := ProjectAvailability(remote, order);
      }
    }

    /** `add`: write the fields under the fresh key `id`; a failed write is
        logged and swallowed. */
    method Add(fields: AvailabilityFields, id: string, written: bool)
      modifies this`remote
      ensures written ==> remote == old(remote)[id := RecordOf(fields)]
      ensures written && id !in old(remote) ==> |remote| == |old(remote)| + 1
      ensures !written ==> remote == old(remote)
    {
      if written {
        remote := remote[id := RecordOf(fields)];
      }
    }

    /** `remove`: delete exactly the key `id`; a failed delete is logged and swallowed. */
    method Remove(id: string, written: bool)
      modifies this`remote
      ensures remote == if written then old(remote) - {id} else old(remote)
      ensures written ==> id !in remote && forall k :: k != id && k in old(remote) ==> k in remote && remote[k] == old(remote)[k]
    {
      if written {
        remote := remote - {id};
      }
    }
  }
}

/** The people table: an in-memory list of injured people kept in one
    `localStorage` slot, changed optimistically by `add`, `update` and
    `remove`, saved after a debounce with up to three retries, and rolled
    back when the save fails for good (src/lib/stores.ts). */
module PeopleStore {
  import opened Seqs

  /** Retries after the first failed write; four write attempts in all from a fresh counter. */
  const MAX_RETRIES: nat := 3

  const LOAD_FAILED := "Failed to load data"
  const SAVE_FAILED := "Failed to save data"

  datatype Leg = Left | Right | Both | Other

  datatype Person = Person(id: string, name: string, dateOfInjury: string, injuredLeg: Leg)

  /** `Omit<Person, 'id'>`: what `add` is given. */
  datatype PersonFields = PersonFields(name: string, dateOfInjury: string, injuredLeg: Leg)

  /** `Partial<Omit<Person, 'id'>>`: the fields `update` overwrites; `None` is an absent key. */
  datatype PersonPatch = PersonPatch(name: Option<string>, dateOfInjury: Option<string>, injuredLeg: Option<Leg>)

  /** What a `catch` receives: an `Error` with its message, or any other thrown value. */
  datatype Failure = ErrorObject(message: string) | OtherThrown

  /** The outcome of one `localStorage.setItem` call. */
  datatype Attempt = Written | Rejected(failure: Failure)

  /** The string held in the storage slot: empty (falsy), the JSON of a list, or
      text whose reading or parsing throws. */
  datatype Stored = Blank | Json(people: seq<Person>) | Corrupt(failure: Failure)

  /** What reading the slot yields: nothing to load, a list, or a thrown failure. */
  datatype ReadResult = Absent | Loaded(people: seq<Person>) | Unreadable(failure: Failure)

  /** How `saveWithRetry` settles: resolved, or rejected with the last write's failure. */
  datatype SaveResult = Saved | SaveFailed(failure: Failure)

  /** A whole `saveWithRetry` call: how it settles, the counter it leaves, and the
      number of writes it attempted. */
  datatype RetryRun = RetryRun(result: SaveResult, retryCount: nat, attempts: nat)

  /** What the pending save callback undoes if its save fails for good. */
  datatype Rollback = DropAdded(id: string) | RestoreSnapshot(snapshot: seq<Person>)

  /** The message a `catch` block stores in `error`. */
  function Describe(f: Failure, fallback: string): string
  {
    match f
    case ErrorObject(m) => m
    case OtherThrown => fallback
  }

  function WithId(fields: PersonFields, id: string): Person
  {
    Person(id, fields.name, fields.dateOfInjury, fields.injuredLeg)
  }

  function HasId(id: string): Person -> bool
  {
    (p: Person) => p.id == id
  }

  function OtherThan(id: string): Person -> bool
  {
    (p: Person) => p.id != id
  }

  /** `{ ...person, ...updates }`: every field given in the patch replaces the
      person's, every other field and the id are kept. */
  function Merge(p: Person, patch: PersonPatch): (r: Person)
    ensures r.id == p.id
    ensures r.name == (if patch.name.Some? then patch.name.value else p.name)
    ensures r.dateOfInjury == (if patch.dateOfInjury.Some? then patch.dateOfInjury.value else p.dateOfInjury)
    ensures r.injuredLeg == (if patch.injuredLeg.Some? then patch.injuredLeg.value else p.injuredLeg)
    ensures patch == PersonPatch(None, None, None) ==> r == p
  {
    p.(name := match patch.name case Some(n) => n case None => p.name,
       dateOfInjury := match patch.dateOfInjury case Some(d) => d case None => p.dateOfInjury,
       injuredLeg := match patch.injuredLeg case Some(l) => l case None => p.injuredLeg)
  }

  /** `JSON.stringify` of a list: what `setItem` stores. */
  function Serialize(people: seq<Person>): (s: Stored)
    ensures ReadSlot(Some(s)) == Loaded(people)
  {
    Json(people)
  }

  /** `getItem` followed by `if (raw) JSON.parse(raw)`: a missing or empty slot
      loads nothing. */
  function ReadSlot(slot: Option<Stored>): ReadResult
  {
    match slot
    case None => Absent
    case Some(Blank) => Absent
    case Some(Json(people)) => Loaded(people)
    case Some(Corrupt(f)) => Unreadable(f)
  }

  /** `saveWithRetry` started with the shared counter at `count`, where
      `outcome(k)` is the result of its first write, `outcome(k + 1)` of the
      second, and so on. */
  function RetrySpec(count: nat, outcome: nat -> Attempt, k: nat): (run: RetryRun)
    requires count <= MAX_RETRIES
    ensures 1 <= run.attempts <= MAX_RETRIES - count + 1
    ensures run.retryCount <= MAX_RETRIES
    ensures forall j :: k <= j < k + run.attempts - 1 ==> outcome(j).Rejected?
    ensures run.result.Saved? ==> run.retryCount == 0 && outcome(k + run.attempts - 1).Written?
    ensures run.result.SaveFailed? ==>
              && run.retryCount == MAX_RETRIES
              && run.attempts == MAX_RETRIES - count + 1
              && outcome(k + run.attempts - 1) == Rejected(run.result.failure)
    decreases MAX_RETRIES - count
  {
    match outcome(k)
    case Written => RetryRun(Saved, 0, 1)
    case Rejected(f) =>
      if count < MAX_RETRIES then
        var rest := RetrySpec(count + 1, outcome, k + 1);
        rest.(attempts := rest.attempts + 1)
      else
        RetryRun(SaveFailed(f), count, 1)
  }

  /** The save succeeds exactly when one of the writes it is allowed succeeds. */
  lemma SaveSucceedsIff(count: nat, outcome: nat -> Attempt, k: nat)
    requires count <= MAX_RETRIES
    ensures RetrySpec(count, outcome, k).result.Saved? <==>
            exists j :: k <= j <= k + MAX_RETRIES - count && outcome(j).Written?
  {
    var run := RetrySpec(count, outcome, k);
    if run.result.Saved? {
      assert outcome(k + run.attempts - 1).Written?;
    }
  }

  /** Once a save has failed for good the counter stays at its ceiling, so the
      next save that meets a failing write gives up after that one write. */
  lemma ExhaustedCounterDoesNotRetry(outcome: nat -> Attempt, k: nat)
    requires outcome(k).Rejected?
    ensures RetrySpec(MAX_RETRIES, outcome, k) == RetryRun(SaveFailed(outcome(k).failure), MAX_RETRIES, 1)
  {
  }

  /** Rolling back an `add` removes exactly the entry it prepended. */
  lemma {:induction false} DropAddedRestores(people: seq<Person>, p: Person)
    requires forall i :: 0 <= i < |people| ==> people[i].id != p.id
    ensures Filter([p] + people, OtherThan(p.id)) == people
  {
    FilterAppend([p], people, OtherThan(p.id));
    assert Filter([p], OtherThan(p.id)) == [];
  }

  /** The list the failing save callback leaves behind. */
  function RolledBack(job: Rollback, current: seq<Person>): seq<Person>
  {
    match job
    case DropAdded(id) => Filter(current, OtherThan(id))
    case RestoreSnapshot(snapshot) => snapshot
  }

  /** The store built by `createPeopleStore`: the writable stores become fields,
      `saveTimer` becomes `timerSet` (not null) plus the callback it will run. */
  class PeopleStore {
    var data: seq<Person>
    var isLoading: bool
    var error: string
    var isSaving: bool
    /** `saveTimer !== null` */
    var timerSet: bool
    /** The debounced save that has been scheduled and has not run yet. */
    var pending: Option<Rollback>
    var retryCount: nat
    /** The `localStorage` value under the key 'people-table-v1'; `None` is a missing key. */
    var slot: Option<Stored>
    /** `typeof window !== 'undefined'` */
    const inBrowser: bool

    /** What holds between operations: the counter is within its ceiling, no
        save is in progress, and a scheduled callback has its timer set. */
    ghost predicate Valid()
      reads this
    {
      && retryCount <= MAX_RETRIES
      && !isSaving
      && (pending.Some? ==> timerSet)
    }

    /** Creating the store runs the initial load, in a browser only. */
    constructor (inBrowser: bool, slot: Option<Stored>)
      ensures Valid()
      ensures this.inBrowser == inBrowser && this.slot == slot
      ensures retryCount == 0 && !timerSet && pending == None
      ensures isLoading == !inBrowser
      ensures !inBrowser ==> data == [] && error == ""
      ensures inBrowser ==>
                match ReadSlot(slot)
                case Absent => data == [] && error == ""
                case Loaded(people) => data == people && error == ""
                case Unreadable(f) => data == [] && error == Describe(f, LOAD_FAILED)
    {
      this.inBrowser := inBrowser;
      this.slot := slot;
      isLoading := true;
      error := "";
      data := [];
      isSaving := false;
      timerSet := false;
      pending := None;
      retryCount := 0;
      new;
      if inBrowser {
        match ReadSlot(slot) {
          case Absent =>
          case Loaded(people) => data := people;
          case Unreadable(f) => error := Describe(f, LOAD_FAILED);
        }
        isLoading := false;
      }
    }

    /** `saveWithRetry`: one write per call, recursing after a failed write
        while the shared counter is below its ceiling. */
    method SaveWithRetry(newData: seq<Person>, outcome: nat -> Attempt, k: nat) returns (result: SaveResult, attempts: nat)
      requires retryCount <= MAX_RETRIES
      modifies this`isSaving, this`error, this`retryCount, this`slot
      ensures result == RetrySpec(old(retryCount), outcome, k).result
      ensures retryCount == RetrySpec(old(retryCount), outcome, k).retryCount
      ensures attempts == RetrySpec(old(retryCount), outcome, k).attempts
      ensures error == "" && !isSaving
      ensures slot == if result.Saved? then Some(Serialize(newData)) else old(slot)
      decreases MAX_RETRIES - retryCount
    {
      var attempt := outcome(k);
      isSaving := true;
      error := "";
      match attempt {
        case Written =>
          slot := Some(Serialize(newData));
          retryCount := 0;
          result, attempts := Saved, 1;
        case Rejected(f) =>
          if retryCount < MAX_RETRIES {
            retryCount := retryCount + 1;
            // the wait of 1000 * retryCount milliseconds before retrying is not modelled
            result, attempts := SaveWithRetry(newData, outcome, k + 1);
            attempts := attempts + 1;
          } else {
            result, attempts := SaveFailed(f), 1;
          }
      }
      // the `finally` block
      isSaving := false;
    }

    /** The debounced timer fires: save the current list and, if the save
        fails for good, report it and undo the change that scheduled it. */
    method FireSaveTimer(outcome: nat -> Attempt) returns (result: SaveResult)
      requires Valid() && pending.Some?
      modifies this
      ensures Valid()
      ensures result == RetrySpec(old(retryCount), outcome, 0).result
      ensures retryCount == RetrySpec(old(retryCount), outcome, 0).retryCount
      ensures pending == None && timerSet && isLoading == old(isLoading)
      ensures result.Saved? ==> data == old(data) && error == "" && slot == Some(Serialize(old(data)))
      ensures result.SaveFailed? ==>
                && data == RolledBack(old(pending).value, old(data))
                && error == Describe(result.failure, SAVE_FAILED)
                && slot == old(slot)
    {
      var job := pending.value;
      pending := None;
      var attempts;
      result, attempts := SaveWithRetry(data, outcome, 0);
      if result.SaveFailed? {
        error := Describe(result.failure, SAVE_FAILED);
        data := RolledBack(job, data);
      }
    }

    /** `cleanup`, also run when a subscriber unsubscribes: cancel any pending save. */
    method Cleanup()
      requires Valid()
      modifies this
      ensures Valid()
      ensures !timerSet && pending == None
      ensures data == old(data) && error == old(error) && isLoading == old(isLoading)
      ensures retryCount == old(retryCount) && slot == old(slot)
    {
      if timerSet {
        timerSet := false;
        pending := None;
      }
    }

    /** `load`: re-read the slot; the loading flag is always cleared. */
    method Load()
      requires Valid()
      modifies this
      ensures Valid()
      ensures !isLoading
      ensures !inBrowser ==> data == old(data) && error == old(error)
      ensures inBrowser ==>
                match ReadSlot(slot)
                case Absent => data == old(data) && error == old(error)
                case Loaded(people) => data == people && error == old(error)
                case Unreadable(f) => data == old(data) && error == Describe(f, LOAD_FAILED)
      ensures slot == old(slot) && retryCount == old(retryCount)
      ensures timerSet == old(timerSet) && pending == old(pending)
    {
      isLoading := true;
      if !inBrowser {
        isLoading := false;
        return;
      }
      match ReadSlot(slot) {
        case Absent =>
        case Loaded(people) => data := people;
        case Unreadable(f) => error := Describe(f, LOAD_FAILED);
      }
      isLoading := false;
    }

    /** `save`: one immediate write without retry; the list is replaced only if it was written. */
    method Save(newData: seq<Person>, write: Attempt)
      requires Valid()
      modifies this
      ensures Valid()
      ensures !inBrowser ==> data == old(data) && error == old(error) && slot == old(slot)
      ensures inBrowser && write.Written? ==> slot == Some(Serialize(newData)) && data == newData && error == ""
      ensures inBrowser && write.Rejected? ==>
                slot == old(slot) && data == old(data) && error == Describe(write.failure, SAVE_FAILED)
      ensures isLoading == old(isLoading) && retryCount == old(retryCount)
      ensures timerSet == old(timerSet) && pending == old(pending)
    {
      if !inBrowser {
        return;
      }
      match write
      case Written =>
        slot := Some(Serialize(newData));
        data := newData;
        error := "";
      case Rejected(f) =>
        error := Describe(f, SAVE_FAILED);
    }

    /** `set`: replace the list directly. */
    method Set(newData: seq<Person>)
      requires Valid()
      modifies this`data
      ensures Valid() && data == newData
    {
      data := newData;
    }

    /** `add`: prepend the person under the fresh id `id` and (re)schedule the save. */
    method Add(fields: PersonFields, id: string)
      requires Valid()
      modifies this
      ensures Valid()
      ensures |data| == |old(data)| + 1
      ensures data[0] == WithId(fields, id) && data[1..] == old(data)
      ensures timerSet && pending == Some(DropAdded(id))
      ensures error == old(error) && isLoading == old(isLoading)
      ensures retryCount == old(retryCount) && slot == old(slot)
    {
      data := [WithId(fields, id)] + data;
      timerSet := true;
      pending := Some(DropAdded(id));
    }

    /** `update`: merge the patch into the first person with this id, if any,
        and schedule a save that restores the list as it was. */
    method Update(id: string, patch: PersonPatch)
      requires Valid()
      modifies this
      ensures Valid()
      ensures error == old(error) && isLoading == old(isLoading)
      ensures retryCount == old(retryCount) && slot == old(slot)
      ensures (forall i :: 0 <= i < |old(data)| ==> old(data)[i].id != id) ==>
                data == old(data) && timerSet == old(timerSet) && pending == old(pending)
      ensures (exists i :: 0 <= i < |old(data)| && old(data)[i].id == id) ==>
                var idx := FindIndex(old(data), HasId(id));
                && 0 <= idx < |data| == |old(data)|
                && data[idx] == Merge(old(data)[idx], patch)
                && data[idx].id == id
                && (forall i :: 0 <= i < |data| && i != idx ==> data[i] == old(data)[i])
                && timerSet && pending == Some(RestoreSnapshot(old(data)))
    {
      var originalPeople := data;
      var idx := FindIndex(originalPeople, HasId(id));
      if idx == -1 {
        return;
      }
      data := data[idx := Merge(data[idx], patch)];
      timerSet := true;
      pending := Some(RestoreSnapshot(originalPeople));
    }

    /** `remove`: if someone has this id, drop every entry with it and schedule
        a save that restores the list as it was. */
    method Remove(id: string)
      requires Valid()
      modifies this
      ensures Valid()
      ensures error == old(error) && isLoading == old(isLoading)
      ensures retryCount == old(retryCount) && slot == old(slot)
      ensures (forall i :: 0 <= i < |old(data)| ==> old(data)[i].id != id) ==>
                data == old(data) && timerSet == old(timerSet) && pending == old(pending)
      ensures (exists i :: 0 <= i < |old(data)| && old(data)[i].id == id) ==>
                && data == Filter(old(data), OtherThan(id))
                && |data| < |old(data)|
                && timerSet && pending == Some(RestoreSnapshot(old(data)))
    {
      var originalPeople := data;
      var personToRemove := Find(originalPeople, HasId(id));
      if personToRemove.None? {
        return;
      }
      data := Filter(data, OtherThan(id));
      timerSet := true;
      pending := Some(RestoreSnapshot(originalPeople));
    }
  }

  /** Every write the save attempts fails, each with a non-empty message. */
  ghost predicate AllWritesFail(outcome: nat -> Attempt)
  {
    forall j :: outcome(j).Rejected? && outcome(j).failure != ErrorObject("")
  }

  /** An `add` whose debounced save then fails for good: the list is as before
      the `add` and an error is shown. */
  method AddThenFailedSave(s: PeopleStore, fields: PersonFields, id: string, outcome: nat -> Attempt)
    requires s.Valid() && AllWritesFail(outcome)
    requires forall i :: 0 <= i < |s.data| ==> s.data[i].id != id
    modifies s
    ensures s.Valid()
    ensures s.data == old(s.data) && s.slot == old(s.slot)
    ensures s.error != "" && s.retryCount == MAX_RETRIES
  {
    s.Add(fields, id);
    var result := s.FireSaveTimer(outcome);
    DropAddedRestores(old(s.data), WithId(fields, id));
  }

  /** An `update` of a listed id whose save then fails for good: the list is
      back to the snapshot taken before the `update`. */
  method UpdateThenFailedSave(s: PeopleStore, id: string, patch: PersonPatch, outcome: nat -> Attempt)
    requires s.Valid() && AllWritesFail(outcome)
    requires exists i :: 0 <= i < |s.data| && s.data[i].id == id
    modifies s
    ensures s.Valid()
    ensures s.data == old(s.data) && s.slot == old(s.slot)
    ensures s.error != "" && s.retryCount == MAX_RETRIES
  {
    s.Update(id, patch);
    var result := s.FireSaveTimer(outcome);
  }

  /** A `remove` of a listed id whose save then fails for good: the list is
      back to the snapshot taken before the `remove`. */
  method RemoveThenFailedSave(s: PeopleStore, id: string, outcome: nat -> Attempt)
    requires s.Valid() && AllWritesFail(outcome)
    requires exists i :: 0 <= i < |s.data| && s.data[i].id == id
    modifies s
    ensures s.Valid()
    ensures s.data == old(s.data) && s.slot == old(s.slot)
    ensures s.error != "" && s.retryCount == MAX_RETRIES
  {
    s.Remove(id);
    var result := s.FireSaveTimer(outcome);
  }

  /** Two `add`s inside one debounce window share one save, and only the
      second is undone when it fails: the first person stays in the list
      although it was never written. */
  method CoalescedAddsKeepFirst(s: PeopleStore, first: PersonFields, firstId: string,
                                second: PersonFields, secondId: string, outcome: nat -> Attempt)
    requires s.Valid() && AllWritesFail(outcome) && firstId != secondId
    requires forall i :: 0 <= i < |s.data| ==> s.data[i].id != secondId
    modifies s
    ensures s.data == [WithId(first, firstId)] + old(s.data) && s.slot == old(s.slot)
  {
    s.Add(first, firstId);
    s.Add(second, secondId);
    var result := s.FireSaveTimer(outcome);
    DropAddedRestores([WithId(first, firstId)] + old(s.data), WithId(second, secondId));
  }
}

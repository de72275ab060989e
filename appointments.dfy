/** The appointments list (src/lib/stores/appointments.ts): kept in memory only,
    appended to by `add`, filtered by `remove`, and read by `getByDate`. */
module Appointments {
  import opened Seqs

  datatype Appointment = Appointment(id: string, date: string, time: string, visitorName: string)

  /** `Omit<Appointment, 'id'>`: what `add` is given. */
  datatype AppointmentFields = AppointmentFields(date: string, time: string, visitorName: string)

  function WithId(fields: AppointmentFields, id: string): Appointment
  {
    Appointment(id, fields.date, fields.time, fields.visitorName)
  }

  function OtherThan(id: string): Appointment -> bool
  {
    (a: Appointment) => a.id != id
  }

  function OnDate(date: string): Appointment -> bool
  {
    (a: Appointment) => a.date == date
  }

  /** `getByDate`: the appointments on that date, in list order. */
  function GetByDate(items: seq<Appointment>, date: string): (r: seq<Appointment>)
    ensures forall i :: 0 <= i < |r| ==> r[i].date == date && r[i] in items
    ensures forall i :: 0 <= i < |items| && items[i].date == date ==> items[i] in r
    ensures (forall i :: 0 <= i < |items| ==> items[i].date == date) ==> r == items
  {
    Filter(items, OnDate(date))
  }

  /** `getByDate` keeps list order and multiplicity: splitting the list
      anywhere around one entry splits the result the same way. */
  lemma {:induction false} GetByDateKeepsOrder(a: seq<Appointment>, x: Appointment, b: seq<Appointment>, date: string)
    ensures GetByDate(a + [x] + b, date) ==
            GetByDate(a, date) + (if x.date == date then [x] else []) + GetByDate(b, date)
  {
    FilterAppend(a + [x], b, OnDate(date));
    FilterAppend(a, [x], OnDate(date));
    assert Filter([x], OnDate(date)) == if x.date == date then [x] else [];
  }

  /** Adding an appointment and then removing its fresh id gives back the list. */
  lemma {:induction false} AddThenRemoveRestores(items: seq<Appointment>, fields: AppointmentFields, id: string)
    requires forall i :: 0 <= i < |items| ==> items[i].id != id
    ensures Filter(items + [WithId(fields, id)], OtherThan(id)) == items
  {
    FilterAppend(items, [WithId(fields, id)], OtherThan(id));
    assert Filter([WithId(fields, id)], OtherThan(id)) == [];
  }

  /** The store built by `createAppointmentsStore`. */
  class AppointmentsStore {
    var items: seq<Appointment>

    constructor ()
      ensures items == []
    {
      items := [];
    }

    /** `add`: append under the fresh id `id`. No check for an existing
        appointment at the same date and time is made. */
    method Add(fields: AppointmentFields, id: string)
      modifies this
      ensures |items| == |old(items)| + 1
      ensures items[..|old(items)|] == old(items)
      ensures items[|old(items)|] == WithId(fields, id)
    {
      items := items + [WithId(fields, id)];
    }

    /** `remove`: drop every appointment with this id, keeping the order of the rest. */
    method Remove(id: string)
      modifies this
      ensures items == Filter(old(items), OtherThan(id))
      ensures forall i :: 0 <= i < |items| ==> items[i].id != id
      ensures (forall i :: 0 <= i < |old(items)| ==> old(items)[i].id != id) ==> items == old(items)
    {
      items := Filter(items, OtherThan(id));
    }
  }
}

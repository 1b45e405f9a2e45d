/** The DTO mappers: an appointment summary, a user with their appointment summaries, and a
    user profile without appointments. */
module Mapper {
  import opened Wrappers
  import opened JavaText
  import opened Seqs
  import opened Entities
  import opened Repositories

  /** `AppointmentDTO`. */
  datatype AppointmentDTO = AppointmentDTO(
    id: Option<int>,
    vehicleName: Text,
    serviceType: Text,
    status: Text,
    date: Option<Date>,
    time: Option<Time>)

  /** `UserDTO`. */
  datatype UserDTO = UserDTO(id: Option<int>, name: Text, username: Text, appointments: seq<AppointmentDTO>)

  /** `UserWithoutAppointmentsDTO`: every scalar field of a user. */
  datatype UserWithoutAppointmentsDTO = UserWithoutAppointmentsDTO(
    id: Option<int>,
    password: Text,
    name: Text,
    username: Text,
    address: Text,
    vehicletype: Text,
    vehiclemodel: Text,
    yearofmanufacture: int,
    regno: Text,
    email: Text,
    phone: int,
    dateofbirth: Option<Timestamp>,
    imageName: Text,
    imageType: Text)

  /** `toAppointmentDTO`: id, vehicle name, service type, status, date and time, unchanged. */
  function ToAppointmentDTO(a: Appointment): (d: AppointmentDTO)
    ensures d.id == a.id && d.vehicleName == a.vehicleName && d.serviceType == a.serviceType
    ensures d.status == a.status && d.date == a.date && d.time == a.time
  {
    AppointmentDTO(a.id, a.vehicleName, a.serviceType, a.status, a.date, a.time)
  }

  /** `toUserDTO`, given the user's appointment collection (null for a user whose collection
      was never set): id, name and username, and one summary per appointment in order. */
  function ToUserDTO(user: User, appointments: Option<seq<Appointment>>): (d: UserDTO)
    ensures d.id == user.id && d.name == user.name && d.username == user.username
    ensures appointments.None? ==> d.appointments == []
    ensures appointments.Some? ==>
      && |d.appointments| == |appointments.value|
      && forall i :: 0 <= i < |appointments.value| ==> d.appointments[i] == ToAppointmentDTO(appointments.value[i])
  {
    var list := if appointments.None? then [] else appointments.value;
    UserDTO(user.id, user.name, user.username,
            seq(|list|, i requires 0 <= i < |list| => ToAppointmentDTO(list[i])))
  }

  /** Every summary in the DTO of a stored user's appointments is the summary of one of that
      user's appointments in the table. */
  lemma {:induction false} UserDTOListsOwnAppointments(appointments: seq<Appointment>, user: User)
    ensures forall d :: d in ToUserDTO(user, Some(AppointmentsByUser(appointments, user))).appointments ==>
      exists a :: a in appointments && a.user == user.id && d == ToAppointmentDTO(a)
  {
    var mine := AppointmentsByUser(appointments, user);
    var dto := ToUserDTO(user, Some(mine));
    forall d | d in dto.appointments
      ensures exists a :: a in appointments && a.user == user.id && d == ToAppointmentDTO(a)
    {
      var i :| 0 <= i < |dto.appointments| && dto.appointments[i] == d;
      assert mine[i] in mine;
    }
  }

  /** Booking one more appointment for a user adds exactly its summary at the end of the
      user's DTO. */
  lemma {:induction false} BookingExtendsUserDTO(appointments: seq<Appointment>, user: User, a: Appointment)
    requires a.user == user.id
    ensures ToUserDTO(user, Some(AppointmentsByUser(appointments + [a], user))).appointments ==
            ToUserDTO(user, Some(AppointmentsByUser(appointments, user))).appointments + [ToAppointmentDTO(a)]
  {
    FilterSnoc(appointments, a, (x: Appointment) => x.user == user.id);
  }

  /** `toUserWithoutAppointmentsDTO`: every scalar field of the user, password and image
      metadata included. */
  function ToUserWithoutAppointmentsDTO(user: User): (d: UserWithoutAppointmentsDTO)
    ensures d.id == user.id && d.password == user.password && d.name == user.name
    ensures d.username == user.username && d.address == user.address
    ensures d.vehicletype == user.vehicletype && d.vehiclemodel == user.vehiclemodel
    ensures d.yearofmanufacture == user.yearofmanufacture && d.regno == user.regno
    ensures d.email == user.email && d.phone == user.phone && d.dateofbirth == user.dateofbirth
    ensures d.imageName == user.imageName && d.imageType == user.imageType
  {
    UserWithoutAppointmentsDTO(user.id, user.password, user.name, user.username, user.address,
                               user.vehicletype, user.vehiclemodel, user.yearofmanufacture, user.regno,
                               user.email, user.phone, user.dateofbirth, user.imageName, user.imageType)
  }
}

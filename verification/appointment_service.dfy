/** Booking: an appointment is attached to the user named in the request, given the
    default status, and saved. */
module AppointmentService {
  import opened Wrappers
  import opened JavaText
  import opened Entities
  import opened Repositories

  const DefaultStatus := "Pending"

  function UserNotFoundMessage(username: Text): string
  {
    "User not found with username: " + Show(username)
  }

  /** What the foreign-key constraint reports for a provider key that names no provider. */
  const MissingProviderMessage := "could not execute statement; foreign key constraint fails on provider_id"

  /** The appointment as `bookAppointmentByUsername` hands it to `save`: linked to the user,
      with a null status replaced by "Pending" and every other field as given. */
  function Booked(appointment: Appointment, user: User): (r: Appointment)
    ensures r.user == user.id
    ensures appointment.status.None? ==> r.status == Some(DefaultStatus)
    ensures appointment.status.Some? ==> r.status == appointment.status
    ensures r.(user := appointment.user, status := appointment.status) == appointment
  {
    appointment.(user := user.id,
                 status := if appointment.status.None? then Some(DefaultStatus) else appointment.status)
  }

  /** `bookAppointmentByUsername`. An unknown username fails before anything is written; a
      provider key naming no provider is refused by the table's constraint; otherwise the
      booked appointment is saved. The appointment table keeps its foreign keys resolvable. */
  method BookAppointmentByUsername(appointmentRepo: AppointmentRepo, userRepo: UserRepo,
                                   providerRepo: ProviderRepo, appointment: Appointment, username: Text)
    returns (r: Result<Appointment, string>)
    requires appointmentRepo.Valid()
    modifies appointmentRepo
    ensures appointmentRepo.Valid()
    ensures UserByUsername(userRepo.rows, username).None? ==>
      && r == Failure(UserNotFoundMessage(username))
      && appointmentRepo.rows == old(appointmentRepo.rows) && appointmentRepo.nextId == old(appointmentRepo.nextId)
    ensures UserByUsername(userRepo.rows, username).Some? && LinkedProvider(providerRepo.rows, appointment).None?
            && appointment.provider.Some? ==>
      && r == Failure(MissingProviderMessage)
      && appointmentRepo.rows == old(appointmentRepo.rows) && appointmentRepo.nextId == old(appointmentRepo.nextId)
    ensures UserByUsername(userRepo.rows, username).Some? && appointment.id.None?
            && (appointment.provider.Some? ==> LinkedProvider(providerRepo.rows, appointment).Some?) ==>
      var booked := Booked(appointment, UserByUsername(userRepo.rows, username).value);
      && r == Success(booked.(id := Some(old(appointmentRepo.nextId))))
      && appointmentRepo.rows == old(appointmentRepo.rows) + [r.value]
    ensures UserByUsername(userRepo.rows, username).Some? && appointment.id.Some?
            && (appointment.provider.Some? ==> LinkedProvider(providerRepo.rows, appointment).Some?) ==>
      var booked := Booked(appointment, UserByUsername(userRepo.rows, username).value);
      && appointmentRepo.nextId == old(appointmentRepo.nextId)
      && match AppointmentIndex(old(appointmentRepo.rows), appointment.id.value)
         case Some(i) => r == Success(booked) && appointmentRepo.rows == old(appointmentRepo.rows)[i := booked]
         case None => r == Failure(StaleRowMessage) && appointmentRepo.rows == old(appointmentRepo.rows)
    ensures r.Success? ==> r.value in appointmentRepo.rows && r.value.id.Some?
    ensures LinksResolve(old(appointmentRepo.rows), userRepo.rows, providerRepo.rows) ==>
      LinksResolve(appointmentRepo.rows, userRepo.rows, providerRepo.rows)
  {
    var user := UserByUsername(userRepo.rows, username);
    if user.None? {
      return Failure(UserNotFoundMessage(username));
    }
    var booked := Booked(appointment, user.value);
    if booked.provider.Some? && LinkedProvider(providerRepo.rows, booked).None? {
      return Failure(MissingProviderMessage);
    }
    ghost var before := appointmentRepo.rows;
    r := appointmentRepo.Save(booked);
    if r.Success? {
      if booked.id.Some? {
        var i := AppointmentIndex(before, booked.id.value).value;
        assert appointmentRepo.rows[i] == r.value;
      } else {
        assert appointmentRepo.rows[|before|] == r.value;
      }
      BookedLinksResolve(before, appointmentRepo.rows, userRepo.rows, providerRepo.rows, r.value, user.value);
    }
  }

  /** Putting in one appointment whose user exists and whose provider key (if any) resolves
      keeps the foreign keys of the table resolvable. */
  lemma BookedLinksResolve(before: seq<Appointment>, after: seq<Appointment>, users: seq<User>,
                           providers: seq<Provider>, a: Appointment, user: User)
    requires user in users && a.user == user.id
    requires a.provider.Some? ==> LinkedProvider(providers, a).Some?
    requires forall x :: x in after ==> x in before || x == a
    ensures LinksResolve(before, users, providers) ==> LinksResolve(after, users, providers)
  {
    if LinksResolve(before, users, providers) && a.user.Some? {
      assert LinkedUser(users, a).Some?;
    }
  }
}

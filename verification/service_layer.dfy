/** The service-timeline view: a customer's service records, taken from the service table
    when it has any for them and otherwise derived from their appointments, each with a
    made-up progress timeline that follows the appointment's status. */
module ServiceLayer {
  import opened Wrappers
  import opened JavaText
  import opened Seqs
  import opened Entities
  import opened Repositories

  const Scheduled := "scheduled"
  const InProgress := "in-progress"
  const Completed := "completed"

  /** `mapAppointmentStatusToServiceStatus`: compared after lower-casing, "completed" stays
      completed, "in-progress" and "confirmed" become in-progress, and anything else,
      null included, is scheduled. */
  function ServiceStatus(appointmentStatus: Text): (r: string)
    ensures r == Scheduled || r == InProgress || r == Completed
    ensures r == Completed <==> appointmentStatus.Some? && Lower(appointmentStatus.value) == "completed"
    ensures r == InProgress <==> (appointmentStatus.Some? &&
      (Lower(appointmentStatus.value) == "in-progress" || Lower(appointmentStatus.value) == "confirmed"))
  {
    if appointmentStatus.None? then Scheduled
    else
      var key := Lower(appointmentStatus.value);
      if key == "completed" then Completed
      else if key == "in-progress" then InProgress
      else if key == "confirmed" then InProgress
      else Scheduled
  }

  /** `determinePriority`: "emergency" and "brake service" are high, "oil change" and
      "tire rotation" low, anything else (null included) medium; case is ignored. */
  function Priority(serviceType: Text): (r: string)
    ensures r == "high" || r == "medium" || r == "low"
    ensures r == "high" <==> (serviceType.Some? &&
      (Lower(serviceType.value) == "emergency" || Lower(serviceType.value) == "brake service"))
    ensures r == "low" <==> (serviceType.Some? &&
      (Lower(serviceType.value) == "oil change" || Lower(serviceType.value) == "tire rotation"))
  {
    if serviceType.None? then "medium"
    else
      var key := Lower(serviceType.value);
      if key == "emergency" || key == "brake service" then "high"
      else if key == "oil change" || key == "tire rotation" then "low"
      else "medium"
  }

  const AutoTechnician := "Auto Technician"

  /** `createUpdate`: an unsaved timeline step signed by the automatic technician. */
  function MakeUpdate(step: string, note: string, completed: bool, timestamp: string): Update
  {
    Update(None, Some(step), Some(note), completed, Some(timestamp), Some(AutoTechnician))
  }

  /** The two steps every timeline starts with. */
  const CommonSteps := [
    MakeUpdate("Vehicle Check-in", "Vehicle arrived at service center", true, "09:00 AM"),
    MakeUpdate("Initial Inspection", "Basic inspection completed", true, "09:30 AM")]

  /** The three further steps of a completed service. */
  const CompletionSteps := [
    MakeUpdate("Service Completed", "All services completed successfully", true, "11:00 AM"),
    MakeUpdate("Quality Check", "Final quality inspection passed", true, "11:30 AM"),
    MakeUpdate("Ready for Pickup", "Vehicle ready for customer pickup", true, "12:00 PM")]

  /** `createSampleUpdates`: the common steps, then one open step for a service in progress
      or the three closing steps for a completed one. Every step is unsaved and signed by
      the automatic technician; exactly the in-progress timeline has an unfinished step,
      and exactly the completed one ends with the vehicle ready for pickup. */
  function SampleUpdates(status: string): (r: seq<Update>)
    ensures |r| == (if status == InProgress then 3 else if status == Completed then 5 else 2)
    ensures r[..2] == CommonSteps
    ensures forall u :: u in r ==> u.id.None? && u.technician == Some(AutoTechnician)
    ensures (forall u :: u in r ==> u.completed) <==> status != InProgress
    ensures r[|r| - 1].step == Some("Ready for Pickup") <==> status == Completed
    ensures status == InProgress ==>
      r[2] == MakeUpdate("Service In Progress", "Currently working on the vehicle", false, "10:00 AM")
    ensures status == Completed ==> r[2..] == CompletionSteps
  {
    if status == InProgress then
      CommonSteps + [MakeUpdate("Service In Progress", "Currently working on the vehicle", false, "10:00 AM")]
    else if status == Completed then CommonSteps + CompletionSteps
    else CommonSteps
  }

  /** The technician text of a derived record. */
  function TechnicianFor(provider: Option<Provider>): string
  {
    "Technician " + (if provider.Some? then Show(provider.value.ownername) else "Not Assigned")
  }

  /** `convertAppointmentToServiceDetails` for an appointment of `user` whose provider row
      (if it has one) is `provider`: an unsaved record that copies the vehicle and service
      type, and whose status, priority and timeline follow the appointment. */
  function ToServiceDetails(a: Appointment, user: User, provider: Option<Provider>): (s: ServiceDetails)
    ensures s.id.None? && s.estimatedCompletion.None? && s.costEstimate.None?
    ensures s.username == user.username
    ensures s.vehicleModel == a.vehicleName && s.licensePlate == a.vehicleNumber
    ensures s.serviceType == a.serviceType
    ensures s.description == Some(Show(a.serviceType) + " service for " + Show(a.vehicleName))
    ensures s.status == Some(ServiceStatus(a.status)) && s.priority == Some(Priority(a.serviceType))
    ensures s.technician == Some(TechnicianFor(provider))
    ensures s.updates.Some? && s.updates.value == SampleUpdates(s.status.value)
    ensures (forall u :: u in s.updates.value ==> u.completed) <==> s.status != Some(InProgress)
  {
    ServiceDetails(
      id := None,
      username := user.username,
      vehicleModel := a.vehicleName,
      licensePlate := a.vehicleNumber,
      serviceType := a.serviceType,
      description := Some(Show(a.serviceType) + " service for " + Show(a.vehicleName)),
      status := Some(ServiceStatus(a.status)),
      estimatedCompletion := None,
      costEstimate := None,
      technician := Some(TechnicianFor(provider)),
      priority := Some(Priority(a.serviceType)),
      updates := Some(SampleUpdates(ServiceStatus(a.status))))
  }

  /** `createServiceDetailsFromAppointments`: no records for an unknown user, else one
      derived record per appointment of the user, in the same order. */
  function DerivedServices(users: seq<User>, appointments: seq<Appointment>, providers: seq<Provider>,
                           username: Text): (r: seq<ServiceDetails>)
    ensures UserByUsername(users, username).None? ==> r == []
    ensures UserByUsername(users, username).Some? ==>
      var mine := AppointmentsByUser(appointments, UserByUsername(users, username).value);
      && |r| == |mine|
      && forall i :: 0 <= i < |r| ==>
           r[i] == ToServiceDetails(mine[i], UserByUsername(users, username).value,
                                    LinkedProvider(providers, mine[i]))
    ensures forall s :: s in r ==> s.username == username
  {
    match UserByUsername(users, username)
    case None => []
    case Some(user) =>
      var mine := AppointmentsByUser(appointments, user);
      seq(|mine|, i requires 0 <= i < |mine| => ToServiceDetails(mine[i], user, LinkedProvider(providers, mine[i])))
  }

  /** `getServicesByUsername`: the stored records for the user if there are any, else the
      derived ones. Either way every record returned belongs to that username. */
  function ServicesForUsername(services: seq<ServiceDetails>, users: seq<User>,
                               appointments: seq<Appointment>, providers: seq<Provider>,
                               username: Text): (r: seq<ServiceDetails>)
    ensures ServicesByUsername(services, username) != [] ==> r == ServicesByUsername(services, username)
    ensures ServicesByUsername(services, username) == [] ==>
      r == DerivedServices(users, appointments, providers, username)
    ensures forall s :: s in r ==> s.username == username
  {
    var existing := ServicesByUsername(services, username);
    if existing != [] then existing
    else DerivedServices(users, appointments, providers, username)
  }

  /** With no stored records, a known user gets exactly one record per appointment, and a
      record shows the service finished exactly when its appointment's status reads
      "completed" in any letter case. */
  lemma {:induction false} DerivedTimelineFollowsStatus(services: seq<ServiceDetails>, users: seq<User>,
      appointments: seq<Appointment>, providers: seq<Provider>, username: Text, i: nat)
    requires ServicesByUsername(services, username) == []
    requires UserByUsername(users, username).Some?
    requires i < |AppointmentsByUser(appointments, UserByUsername(users, username).value)|
    ensures var r := ServicesForUsername(services, users, appointments, providers, username);
            var a := AppointmentsByUser(appointments, UserByUsername(users, username).value)[i];
      && |r| == |AppointmentsByUser(appointments, UserByUsername(users, username).value)|
      && r[i].vehicleModel == a.vehicleName && r[i].licensePlate == a.vehicleNumber
      && (r[i].updates.value[|r[i].updates.value| - 1].step == Some("Ready for Pickup") <==>
          a.status.Some? && Lower(a.status.value) == "completed")
  {
    var r := ServicesForUsername(services, users, appointments, providers, username);
    var mine := AppointmentsByUser(appointments, UserByUsername(users, username).value);
    assert r[i] == ToServiceDetails(mine[i], UserByUsername(users, username).value,
                                    LinkedProvider(providers, mine[i]));
  }

  /** `getServiceById`: the record with that id, or null. */
  function ServiceById(services: seq<ServiceDetails>, id: int): (r: Option<ServiceDetails>)
    ensures r.Some? ==> r.value in services && r.value.id == Some(id)
    ensures r.None? <==> forall s :: s in services ==> s.id != Some(id)
  {
    match ServiceIndex(services, id)
    case None => None
    case Some(i) => Some(services[i])
  }

  /** A saved record is found again by its id. */
  lemma SavedServiceIsFound(services: seq<ServiceDetails>, saved: ServiceDetails)
    requires saved.id.Some?
    requires forall s :: s in services ==> s.id != saved.id
    ensures ServiceById(services + [saved], saved.id.value) == Some(saved)
  {
    var i := ServiceIndex(services + [saved], saved.id.value);
    assert (services + [saved])[|services|] == saved;
  }
}

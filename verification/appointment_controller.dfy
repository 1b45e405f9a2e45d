/** The appointment HTTP endpoints: simple booking with date and time validation, the
    listing endpoints, the status update, and the response DTO they return. */
module AppointmentController {
  import opened Wrappers
  import opened JavaText
  import opened Entities
  import opened Repositories
  import opened AppointmentService
  import opened AppointmentRequestDTO

  /** `AppointmentResponseDTO`: an appointment with the names of its user and provider. */
  datatype AppointmentResponse = AppointmentResponse(
    id: Option<int>,
    name: Text,
    phone: Text,
    vehicleName: Text,
    vehicleNumber: Text,
    serviceType: Text,
    date: Option<Date>,
    time: Option<Time>,
    status: Text,
    userName: Text,
    userUsername: Text,
    providerGarageName: Text,
    providerOwnerName: Text,
    providerId: Option<int>)

  /** What a response carries: a message string, a saved appointment, or DTOs. */
  datatype Body = Message(text: string) | AppointmentBody(appointment: Appointment)
                | Dto(dto: AppointmentResponse) | Dtos(dtos: seq<AppointmentResponse>)

  datatype Response = Response(status: int, body: Body)

  const Ok := 200
  const BadRequest := 400
  const NotFound := 404

  const InvalidDateMessage := "Invalid date format. Please use YYYY-MM-DD format."
  const InvalidTimeMessage := "Invalid time format. Please use HH:mm format."
  const BookingErrorPrefix := "Error booking appointment: "

  /** A simple booking request (`BookAppointmentRequest`) has the fields of an
      `AppointmentRequest`. The appointment `bookAppointmentSimple` builds from a request before booking it, or the
      message of the 400 answer. A non-empty date is parsed first, then a non-empty time; a
      null or empty date or time leaves the field unset. */
  function RequestedAppointment(req: AppointmentRequest, parseDate: string -> Option<Date>,
                                parseTime: string -> Option<Time>): (r: Result<Appointment, string>)
    ensures Present(req.date) && parseDate(req.date.value).None? ==> r == Failure(InvalidDateMessage)
    ensures (!(Present(req.date) && parseDate(req.date.value).None?) &&
             Present(req.time) && parseTime(req.time.value).None?) ==> r == Failure(InvalidTimeMessage)
    ensures r.Success? <==> !(Present(req.date) && parseDate(req.date.value).None?) &&
                            !(Present(req.time) && parseTime(req.time.value).None?)
    ensures r.Success? ==>
      && r.value.id.None? && r.value.status.None? && r.value.user.None? && r.value.createdAt.None?
      && r.value.name == req.name && r.value.phone == req.phone
      && r.value.vehicleName == req.vehicleName && r.value.vehicleNumber == req.vehicleNumber
      && r.value.serviceType == req.serviceType
      && r.value.date == (if Present(req.date) then parseDate(req.date.value) else None)
      && r.value.time == (if Present(req.time) then parseTime(req.time.value) else None)
      && r.value.provider == req.providerId
  {
    var date := if Present(req.date) then parseDate(req.date.value) else None;
    var time := if Present(req.time) then parseTime(req.time.value) else None;
    if Present(req.date) && date.None? then Failure(InvalidDateMessage)
    else if Present(req.time) && time.None? then Failure(InvalidTimeMessage)
    else Success(BlankAppointment.(name := req.name, phone := req.phone, vehicleName := req.vehicleName,
                                   vehicleNumber := req.vehicleNumber, serviceType := req.serviceType,
                                   date := date, time := time, provider := req.providerId))
  }

  /** `bookAppointmentSimple`: builds the appointment field by field, answering 400 with no
      write on a bad date or time; then books it, answering 400 with the booking error or
      200 with the saved appointment. */
  method BookAppointmentSimple(appointmentRepo: AppointmentRepo, userRepo: UserRepo, providerRepo: ProviderRepo,
                               req: AppointmentRequest, parseDate: string -> Option<Date>,
                               parseTime: string -> Option<Time>) returns (resp: Response)
    requires appointmentRepo.Valid()
    modifies appointmentRepo
    ensures appointmentRepo.Valid()
    ensures match RequestedAppointment(req, parseDate, parseTime)
      case Failure(message) =>
        && resp == Response(BadRequest, Message(message))
        && appointmentRepo.rows == old(appointmentRepo.rows) && appointmentRepo.nextId == old(appointmentRepo.nextId)
      case Success(a) =>
        match UserByUsername(userRepo.rows, req.username)
        case None =>
          && resp == Response(BadRequest, Message(BookingErrorPrefix + UserNotFoundMessage(req.username)))
          && appointmentRepo.rows == old(appointmentRepo.rows)
        case Some(user) =>
          if a.provider.Some? && LinkedProvider(providerRepo.rows, a).None? then
            && resp == Response(BadRequest, Message(BookingErrorPrefix + MissingProviderMessage))
            && appointmentRepo.rows == old(appointmentRepo.rows)
          else
            var saved := Booked(a, user).(id := Some(old(appointmentRepo.nextId)));
            && resp == Response(Ok, AppointmentBody(saved))
            && appointmentRepo.rows == old(appointmentRepo.rows) + [saved]
    ensures LinksResolve(old(appointmentRepo.rows), userRepo.rows, providerRepo.rows) ==>
      LinksResolve(appointmentRepo.rows, userRepo.rows, providerRepo.rows)
  {
    var appointment := BlankAppointment;
    appointment := appointment.(name := req.name, phone := req.phone);
    appointment := appointment.(vehicleName := req.vehicleName, vehicleNumber := req.vehicleNumber);
    appointment := appointment.(serviceType := req.serviceType);
    if Present(req.date) {
      var date := parseDate(req.date.value);
      if date.None? {
        return Response(BadRequest, Message(InvalidDateMessage));
      }
      appointment := appointment.(date := date);
    }
    if Present(req.time) {
      var time := parseTime(req.time.value);
      if time.None? {
        return Response(BadRequest, Message(InvalidTimeMessage));
      }
      appointment := appointment.(time := time);
    }
    if req.providerId.Some? {
      appointment := appointment.(provider := req.providerId);
    }
    var saved := BookAppointmentByUsername(appointmentRepo, userRepo, providerRepo, appointment, req.username);
    match saved
    case Failure(error) =>
      resp := Response(BadRequest, Message(BookingErrorPrefix + error));
    case Success(a) =>
      resp := Response(Ok, AppointmentBody(a));
  }

  /** `convertToDTO`: the appointment's own fields, status "Pending" in place of null, and
      the user's and provider's names when the appointment has those links. */
  function ConvertToDTO(a: Appointment, users: seq<User>, providers: seq<Provider>): (d: AppointmentResponse)
    ensures d.id == a.id && d.name == a.name && d.phone == a.phone
    ensures d.vehicleName == a.vehicleName && d.vehicleNumber == a.vehicleNumber
    ensures d.serviceType == a.serviceType && d.date == a.date && d.time == a.time
    ensures d.status.Some?
    ensures a.status.Some? ==> d.status == a.status
    ensures a.status.None? ==> d.status == Some(DefaultStatus)
    ensures d.providerId == a.provider
    ensures a.user.None? ==> d.userName.None? && d.userUsername.None?
    ensures LinkedUser(users, a).Some? ==>
      d.userName == LinkedUser(users, a).value.name && d.userUsername == LinkedUser(users, a).value.username
    ensures a.provider.None? ==> d.providerGarageName.None? && d.providerOwnerName.None?
    ensures LinkedProvider(providers, a).Some? ==>
      && d.providerGarageName == LinkedProvider(providers, a).value.garagename
      && d.providerOwnerName == LinkedProvider(providers, a).value.ownername
  {
    var user := LinkedUser(users, a);
    var provider := LinkedProvider(providers, a);
    AppointmentResponse(
      a.id, a.name, a.phone, a.vehicleName, a.vehicleNumber, a.serviceType, a.date, a.time,
      if a.status.Some? then a.status else Some(DefaultStatus),
      if user.Some? then user.value.name else None,
      if user.Some? then user.value.username else None,
      if provider.Some? then provider.value.garagename else None,
      if provider.Some? then provider.value.ownername else None,
      a.provider)
  }

  /** The answer of a listing endpoint: 200 with a message when nothing was found, else 200
      with one DTO per appointment, in order. */
  function ListResponse(found: seq<Appointment>, users: seq<User>, providers: seq<Provider>,
                        emptyMessage: string): (r: Response)
    ensures r.status == Ok
    ensures found == [] <==> r.body == Message(emptyMessage)
    ensures found != [] ==>
      && r.body.Dtos? && |r.body.dtos| == |found|
      && forall i :: 0 <= i < |found| ==> r.body.dtos[i] == ConvertToDTO(found[i], users, providers)
  {
    if found == [] then Response(Ok, Message(emptyMessage))
    else Response(Ok, Dtos(seq(|found|, i requires 0 <= i < |found| => ConvertToDTO(found[i], users, providers))))
  }

  /** `getAppointmentsByOwner`: every DTO listed names that owner as the provider's owner. */
  function AppointmentsByOwnerResponse(appointments: seq<Appointment>, users: seq<User>,
                                       providers: seq<Provider>, ownerName: string): (r: Response)
    ensures r.status == Ok
    ensures AppointmentsByProviderOwnername(appointments, providers, Some(ownerName)) == [] <==>
      r.body == Message("No appointments found for owner: " + ownerName)
    ensures r.body.Dtos? ==>
      && |r.body.dtos| == |AppointmentsByProviderOwnername(appointments, providers, Some(ownerName))|
      && forall d :: d in r.body.dtos ==> d.providerOwnerName == Some(ownerName)
    ensures r.body.Dtos? ==>
      var found := AppointmentsByProviderOwnername(appointments, providers, Some(ownerName));
      forall i :: 0 <= i < |found| ==> r.body.dtos[i] == ConvertToDTO(found[i], users, providers)
  {
    var found := AppointmentsByProviderOwnername(appointments, providers, Some(ownerName));
    var r := ListResponse(found, users, providers, "No appointments found for owner: " + ownerName);
    assert r.body.Dtos? ==> forall d :: d in r.body.dtos ==> d.providerOwnerName == Some(ownerName) by {
      if r.body.Dtos? {
        forall d | d in r.body.dtos
          ensures d.providerOwnerName == Some(ownerName)
        {
          var i :| 0 <= i < |r.body.dtos| && r.body.dtos[i] == d;
          assert found[i] in found;
        }
      }
    }
    r
  }

  /** `getAppointmentsByProvider`: every DTO listed carries that provider id. */
  function AppointmentsByProviderResponse(appointments: seq<Appointment>, users: seq<User>,
                                          providers: seq<Provider>, providerId: int): (r: Response)
    ensures r.status == Ok
    ensures AppointmentsByProviderId(appointments, providerId) == [] <==>
      r.body == Message("No appointments found for provider ID: " + IntToString(providerId))
    ensures r.body.Dtos? ==>
      && |r.body.dtos| == |AppointmentsByProviderId(appointments, providerId)|
      && forall d :: d in r.body.dtos ==> d.providerId == Some(providerId)
    ensures r.body.Dtos? ==>
      var found := AppointmentsByProviderId(appointments, providerId);
      forall i :: 0 <= i < |found| ==> r.body.dtos[i] == ConvertToDTO(found[i], users, providers)
  {
    var found := AppointmentsByProviderId(appointments, providerId);
    var r := ListResponse(found, users, providers, "No appointments found for provider ID: " + IntToString(providerId));
    assert r.body.Dtos? ==> forall d :: d in r.body.dtos ==> d.providerId == Some(providerId) by {
      if r.body.Dtos? {
        forall d | d in r.body.dtos
          ensures d.providerId == Some(providerId)
        {
          var i :| 0 <= i < |r.body.dtos| && r.body.dtos[i] == d;
          assert found[i] in found;
        }
      }
    }
    r
  }

  /** `getAllAppointments`: one DTO per stored appointment, in table order. */
  function AllAppointmentsResponse(appointments: seq<Appointment>, users: seq<User>,
                                   providers: seq<Provider>): (r: Response)
    ensures r.status == Ok
    ensures appointments == [] <==> r.body == Message("No appointments found")
    ensures r.body.Dtos? ==>
      && |r.body.dtos| == |appointments|
      && forall i :: 0 <= i < |appointments| ==> r.body.dtos[i] == ConvertToDTO(appointments[i], users, providers)
  {
    ListResponse(appointments, users, providers, "No appointments found")
  }

  /** The status sent in an update body: the value under "status", null when absent. */
  function RequestedStatus(statusUpdate: map<string, Text>): Text
  {
    if "status" in statusUpdate then statusUpdate["status"] else None
  }

  /** `updateAppointmentStatus`: 404 with no write for an unknown id; otherwise the status
      (any string, or null) replaces the stored one, nothing else changes, and the updated
      appointment is answered as a DTO. */
  method UpdateAppointmentStatus(appointmentRepo: AppointmentRepo, users: seq<User>, providers: seq<Provider>,
                                 id: int, statusUpdate: map<string, Text>) returns (resp: Response)
    requires appointmentRepo.Valid()
    modifies appointmentRepo
    ensures appointmentRepo.Valid() && appointmentRepo.nextId == old(appointmentRepo.nextId)
    ensures match AppointmentIndex(old(appointmentRepo.rows), id)
      case None =>
        && resp == Response(NotFound, Message("Appointment not found with ID: " + IntToString(id)))
        && appointmentRepo.rows == old(appointmentRepo.rows)
      case Some(i) =>
        var updated := old(appointmentRepo.rows)[i].(status := RequestedStatus(statusUpdate));
        && appointmentRepo.rows == old(appointmentRepo.rows)[i := updated]
        && resp == Response(Ok, Dto(ConvertToDTO(updated, users, providers)))
    ensures LinksResolve(old(appointmentRepo.rows), users, providers) ==>
      LinksResolve(appointmentRepo.rows, users, providers)
  {
    var newStatus := RequestedStatus(statusUpdate);
    var i := AppointmentIndex(appointmentRepo.rows, id);
    if i.None? {
      return Response(NotFound, Message("Appointment not found with ID: " + IntToString(id)));
    }
    var appointment := appointmentRepo.rows[i.value];
    appointment := appointment.(status := newStatus);
    var updated := appointmentRepo.Save(appointment);
    assert updated == Success(appointment);
    resp := Response(Ok, Dto(ConvertToDTO(appointment, users, providers)));
  }

  /** The simple booking endpoint and `toAppointment` accept and reject the same requests
      (with different messages), and build the same appointment except that the endpoint
      also sets the provider. */
  lemma BookingBuildsRequestAppointment(req: AppointmentRequest, parseDate: string -> Option<Date>,
                                        parseTime: string -> Option<Time>)
    ensures RequestedAppointment(req, parseDate, parseTime).Success? <==>
            ToAppointment(req, parseDate, parseTime).Success?
    ensures RequestedAppointment(req, parseDate, parseTime).Success? ==>
      RequestedAppointment(req, parseDate, parseTime).value ==
      ToAppointment(req, parseDate, parseTime).value.(provider := req.providerId)
  {
  }
}

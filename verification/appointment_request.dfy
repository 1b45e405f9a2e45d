/** The appointment request body and its conversion to an unsaved appointment. */
module AppointmentRequestDTO {
  import opened Wrappers
  import opened JavaText
  import opened Entities

  /** An appointment request as the front end sends it: date and time as text, the
      customer's username and an optional provider id. */
  datatype AppointmentRequest = AppointmentRequest(
    name: Text,
    phone: Text,
    vehicleName: Text,
    vehicleNumber: Text,
    serviceType: Text,
    date: Text,
    time: Text,
    username: Text,
    providerId: Option<int>)

  function DateParseError(date: string): string
  {
    "Invalid date format: " + date
  }

  function TimeParseError(time: string): string
  {
    "Invalid time format: " + time
  }

  /** `toAppointment`: a fresh appointment carrying the request's text fields; a non-empty
      date and then a non-empty time are parsed, and the first that does not parse is the
      error. Status, user and provider stay unset. */
  function ToAppointment(req: AppointmentRequest, parseDate: string -> Option<Date>,
                         parseTime: string -> Option<Time>): (r: Result<Appointment, string>)
    ensures Present(req.date) && parseDate(req.date.value).None? ==>
      r == Failure(DateParseError(req.date.value))
    ensures (!(Present(req.date) && parseDate(req.date.value).None?) &&
             Present(req.time) && parseTime(req.time.value).None?) ==>
      r == Failure(TimeParseError(req.time.value))
    ensures r.Success? <==> !(Present(req.date) && parseDate(req.date.value).None?) &&
                            !(Present(req.time) && parseTime(req.time.value).None?)
    ensures r.Success? ==>
      && r.value.id.None? && r.value.status.None? && r.value.user.None? && r.value.provider.None?
      && r.value.createdAt.None?
      && r.value.name == req.name && r.value.phone == req.phone
      && r.value.vehicleName == req.vehicleName && r.value.vehicleNumber == req.vehicleNumber
      && r.value.serviceType == req.serviceType
      && (Present(req.date) ==> r.value.date == parseDate(req.date.value))
      && (!Present(req.date) ==> r.value.date.None?)
      && (Present(req.time) ==> r.value.time == parseTime(req.time.value))
      && (!Present(req.time) ==> r.value.time.None?)
  {
    var appointment := BlankAppointment.(name := req.name, phone := req.phone, vehicleName := req.vehicleName,
                                         vehicleNumber := req.vehicleNumber, serviceType := req.serviceType);
    if Present(req.date) && parseDate(req.date.value).None? then Failure(DateParseError(req.date.value))
    else
      var appointment := if Present(req.date) then appointment.(date := parseDate(req.date.value)) else appointment;
      if Present(req.time) && parseTime(req.time.value).None? then Failure(TimeParseError(req.time.value))
      else Success(if Present(req.time) then appointment.(time := parseTime(req.time.value)) else appointment)
  }
}

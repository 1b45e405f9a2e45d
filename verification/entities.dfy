/** The records the services read and write. Each datatype is one row of a table (the
    source's JPA entities `UserList`, `ProviderList`, `Appointment`, `ServiceDetails` and
    `Update`); a nullable Java field is an `Option`. */
module Entities {
  import opened Wrappers
  import opened JavaText

  /** A `LocalDate`, known by its ISO text (`yyyy-MM-dd`), which is what `toString` yields. */
  datatype Date = Date(iso: string)

  /** A `LocalTime`, known by its `toString` text (`HH:mm`, or longer when seconds are set). */
  datatype Time = Time(iso: string)

  /** An instant (`LocalDateTime`, `OffsetDateTime`, `java.util.Date`), abstracted to a number. */
  type Timestamp = int

  type byte = b: int | 0 <= b < 256

  /** A customer account (`UserList`). */
  datatype User = User(
    id: Option<int>,
    password: Text,
    name: Text,
    username: Text,
    address: Text,
    vehicletype: Text,
    vehiclemodel: Text,
    yearofmanufacture: int,
    regno: Text,
    email: Text,
    phone: int,
    dateofbirth: Option<Timestamp>,
    imageName: Text,
    imageType: Text)

  /** A garage account (`ProviderList`); its `int` id is 0 until the row is saved. */
  datatype Provider = Provider(
    id: int,
    garagename: Text,
    ownername: Text,
    garageaddress: Text,
    password: Text,
    email: Text,
    phoneno: int,
    specializations: Text,
    availableservices: Text,
    imageName: Text,
    imageType: Text,
    imageData: Option<seq<byte>>)

  /** A booked service. `user` and `provider` are the foreign keys of the two lazy
      many-to-one links; the linked rows are looked up in their tables. */
  datatype Appointment = Appointment(
    id: Option<int>,
    name: Text,
    phone: Text,
    vehicleName: Text,
    vehicleNumber: Text,
    serviceType: Text,
    date: Option<Date>,
    time: Option<Time>,
    status: Text,
    createdAt: Option<Timestamp>,
    user: Option<int>,
    provider: Option<int>)

  /** A freshly constructed `Appointment` (`new Appointment()`): every field null. */
  const BlankAppointment := Appointment(None, None, None, None, None, None, None, None, None, None, None, None)

  /** One step of a service timeline. */
  datatype Update = Update(
    id: Option<int>,
    step: Text,
    note: Text,
    completed: bool,
    timestamp: Text,
    technician: Text)

  /** A service-progress record shown to a customer. */
  datatype ServiceDetails = ServiceDetails(
    id: Option<int>,
    username: Text,
    vehicleModel: Text,
    licensePlate: Text,
    serviceType: Text,
    description: Text,
    status: Text,
    estimatedCompletion: Text,
    costEstimate: Text,
    technician: Text,
    priority: Text,
    updates: Option<seq<Update>>)
}

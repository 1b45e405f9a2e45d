/** The persistence layer: one in-memory table per Spring Data repository. Rows are kept in
    insertion order, which is the order a finder returns them in; saving a new row gives it
    the next identity value. The finders are functions of a table's rows. Derived finders
    compare with `==` on nullable columns, matching the `IS NULL` that Spring Data generates
    for a null argument. */
module Repositories {
  import opened Wrappers
  import opened JavaText
  import opened Seqs
  import opened Entities
  import opened BillingEntity

  /** What an `Optional<T>` finder does with its matches: none, one, or an
      `IncorrectResultSizeDataAccessException` when the result is not unique. */
  function Unique<T>(matches: seq<T>): (r: Result<Option<T>, string>)
    ensures r == Success(None) <==> |matches| == 0
    ensures r.Success? && r.value.Some? <==> |matches| == 1
    ensures r.Failure? <==> |matches| > 1
    ensures r.Success? && r.value.Some? ==> r.value.value == matches[0]
  {
    if |matches| == 0 then Success(None)
    else if |matches| == 1 then Success(Some(matches[0]))
    else Failure(NonUniqueMessage)
  }

  const NonUniqueMessage := "query did not return a unique result"

  /** What `save` reports for a detached row whose id is not in its table. */
  const StaleRowMessage := "Row was updated or deleted by another transaction"

  /** What `save` reports when a unique column would hold the same value twice. */
  const DuplicateKeyMessage := "could not execute statement; constraint violation"

  // ----- users -----

  /** Where the user with primary key `id` is. */
  function UserIndex(users: seq<User>, id: int): (r: Option<nat>)
    ensures r.Some? ==> r.value < |users| && users[r.value].id == Some(id)
    ensures r.None? ==> forall i :: 0 <= i < |users| ==> users[i].id != Some(id)
  {
    FirstIndex(users, (u: User) => u.id == Some(id))
  }

  /** Where the user with that username is. */
  function UsernameIndex(users: seq<User>, username: Text): (r: Option<nat>)
    ensures r.Some? ==> r.value < |users| && users[r.value].username == username
    ensures r.None? ==> forall i :: 0 <= i < |users| ==> users[i].username != username
  {
    FirstIndex(users, (u: User) => u.username == username)
  }

  /** `findByUsername`. */
  function UserByUsername(users: seq<User>, username: Text): (r: Option<User>)
    ensures r.Some? ==> r.value in users && r.value.username == username
    ensures r.None? <==> forall u :: u in users ==> u.username != username
  {
    match UsernameIndex(users, username)
    case None => None
    case Some(i) => Some(users[i])
  }

  /** `findByusernameAndPassword`. */
  function UserByUsernameAndPassword(users: seq<User>, username: Text, password: Text): (r: Option<User>)
    ensures r.Some? ==> r.value in users && r.value.username == username && r.value.password == password
    ensures r.None? ==> forall u :: u in users ==> !(u.username == username && u.password == password)
  {
    FindFirst(users, (u: User) => u.username == username && u.password == password)
  }

  /** `UserRepo`. The `username` column is unique. */
  class UserRepo {
    var rows: seq<User>
    var nextId: int

    ghost predicate Valid()
      reads this
    {
      && (forall i :: 0 <= i < |rows| ==> rows[i].id.Some? && rows[i].id.value < nextId)
      && (forall i, j :: 0 <= i < j < |rows| ==> rows[i].id.value < rows[j].id.value)
      && (forall i, j :: 0 <= i < j < |rows| ==> rows[i].username != rows[j].username)
    }

    constructor ()
      ensures Valid() && rows == [] && nextId == 1
    {
      rows, nextId := [], 1;
    }

    /** `save` of a new user: it is stored under the next identity value. */
    method Insert(row: User) returns (saved: User)
      requires Valid()
      requires forall u :: u in rows ==> u.username != row.username
      modifies this
      ensures Valid() && saved == row.(id := Some(old(nextId)))
      ensures rows == old(rows) + [saved] && nextId == old(nextId) + 1
    {
      saved := row.(id := Some(nextId));
      rows, nextId := rows + [saved], nextId + 1;
    }

    /** `save` of a row that already exists: it replaces the stored row. */
    method Replace(i: nat, row: User)
      requires Valid() && i < |rows| && row.id == rows[i].id
      requires forall j :: 0 <= j < |rows| && j != i ==> rows[j].username != row.username
      modifies this
      ensures Valid() && rows == old(rows)[i := row] && nextId == old(nextId)
    {
      rows := rows[i := row];
    }

    /** True when some row other than position `except` has that username. */
    predicate UsernameTaken(username: Text, except: Option<nat>)
      reads this
    {
      exists j :: 0 <= j < |rows| && Some(j) != except && rows[j].username == username
    }

    /** `save`: as for the other tables, and a row whose username another row already has
        is refused by the unique constraint. */
    method Save(row: User) returns (r: Result<User, string>)
      requires Valid()
      modifies this
      ensures Valid()
      ensures row.id.None? && old(UsernameTaken(row.username, None)) ==>
        r == Failure(DuplicateKeyMessage) && rows == old(rows) && nextId == old(nextId)
      ensures row.id.None? && !old(UsernameTaken(row.username, None)) ==>
        && r == Success(row.(id := Some(old(nextId))))
        && rows == old(rows) + [r.value] && nextId == old(nextId) + 1
      ensures row.id.Some? ==> nextId == old(nextId) && match UserIndex(old(rows), row.id.value)
        case None => r == Failure(StaleRowMessage) && rows == old(rows)
        case Some(i) =>
          if old(UsernameTaken(row.username, Some(i)))
          then r == Failure(DuplicateKeyMessage) && rows == old(rows)
          else r == Success(row) && rows == old(rows)[i := row]
    {
      if row.id.None? {
        if UsernameTaken(row.username, None) {
          r := Failure(DuplicateKeyMessage);
        } else {
          var saved := Insert(row);
          r := Success(saved);
        }
      } else {
        var i := UserIndex(rows, row.id.value);
        if i.None? {
          r := Failure(StaleRowMessage);
        } else if UsernameTaken(row.username, i) {
          r := Failure(DuplicateKeyMessage);
        } else {
          Replace(i.value, row);
          r := Success(row);
        }
      }
    }
  }

  // ----- providers -----

  function ProviderIndex(providers: seq<Provider>, id: int): (r: Option<nat>)
    ensures r.Some? ==> r.value < |providers| && providers[r.value].id == id
    ensures r.None? ==> forall i :: 0 <= i < |providers| ==> providers[i].id != id
  {
    FirstIndex(providers, (p: Provider) => p.id == id)
  }

  /** `findById`. */
  function ProviderById(providers: seq<Provider>, id: int): (r: Option<Provider>)
    ensures r.Some? ==> r.value in providers && r.value.id == id
    ensures r.None? ==> forall p :: p in providers ==> p.id != id
  {
    match ProviderIndex(providers, id)
    case None => None
    case Some(i) => Some(providers[i])
  }

  /** The provider row an appointment's provider key points at (the lazy `getProvider()`). */
  function LinkedProvider(providers: seq<Provider>, a: Appointment): (r: Option<Provider>)
    ensures r.Some? ==> r.value in providers && a.provider == Some(r.value.id)
    ensures r.None? ==> a.provider.None? || forall p :: p in providers ==> Some(p.id) != a.provider
  {
    if a.provider.None? then None else ProviderById(providers, a.provider.value)
  }

  /** `findByOwnername` (an `Optional` result). */
  function ProviderByOwnername(providers: seq<Provider>, ownername: Text): (r: Result<Option<Provider>, string>)
    ensures r.Success? && r.value.Some? ==> r.value.value in providers && r.value.value.ownername == ownername
    ensures r == Success(None) <==> forall p :: p in providers ==> p.ownername != ownername
    ensures r.Failure? ==> r.error == NonUniqueMessage
    ensures r.Failure? <==>
      exists i, j :: 0 <= i < j < |providers| && providers[i].ownername == ownername && providers[j].ownername == ownername
  {
    var matches := (p: Provider) => p.ownername == ownername;
    FilterHasTwo(providers, matches);
    Unique(Filter(providers, matches))
  }

  /** `findByOwnernameAndPassword` (an `Optional` result). */
  function ProviderByOwnernameAndPassword(providers: seq<Provider>, ownername: Text, password: Text)
    : (r: Result<Option<Provider>, string>)
    ensures r.Success? && r.value.Some? ==>
      r.value.value in providers && r.value.value.ownername == ownername && r.value.value.password == password
    ensures r == Success(None) <==>
      forall p :: p in providers ==> !(p.ownername == ownername && p.password == password)
    ensures r.Failure? ==> r.error == NonUniqueMessage
    ensures r.Failure? <==>
      exists i, j :: 0 <= i < j < |providers|
        && providers[i].ownername == ownername && providers[i].password == password
        && providers[j].ownername == ownername && providers[j].password == password
  {
    var matches := (p: Provider) => p.ownername == ownername && p.password == password;
    FilterHasTwo(providers, matches);
    Unique(Filter(providers, matches))
  }

  /** `ProviderRepo`. Owner names are not unique; an id of 0 marks an unsaved provider. */
  class ProviderRepo {
    var rows: seq<Provider>
    var nextId: int

    ghost predicate Valid()
      reads this
    {
      && 1 <= nextId
      && (forall i :: 0 <= i < |rows| ==> 0 < rows[i].id < nextId)
      && (forall i, j :: 0 <= i < j < |rows| ==> rows[i].id < rows[j].id)
    }

    constructor ()
      ensures Valid() && rows == [] && nextId == 1
    {
      rows, nextId := [], 1;
    }

    /** `save` of a new provider: it is stored under the next identity value. */
    method Insert(row: Provider) returns (saved: Provider)
      requires Valid()
      modifies this
      ensures Valid() && saved == row.(id := old(nextId))
      ensures rows == old(rows) + [saved] && nextId == old(nextId) + 1
    {
      saved := row.(id := nextId);
      rows, nextId := rows + [saved], nextId + 1;
    }

    method Replace(i: nat, row: Provider)
      requires Valid() && i < |rows| && row.id == rows[i].id
      modifies this
      ensures Valid() && rows == old(rows)[i := row] && nextId == old(nextId)
    {
      rows := rows[i := row];
    }

    /** `save`: a provider with id 0 is inserted under the next id; one whose id is in the
        table replaces that row; one carrying an unknown id is refused. */
    method Save(row: Provider) returns (r: Result<Provider, string>)
      requires Valid()
      modifies this
      ensures Valid()
      ensures row.id == 0 ==>
        && r == Success(row.(id := old(nextId)))
        && rows == old(rows) + [r.value] && nextId == old(nextId) + 1
      ensures row.id != 0 ==> nextId == old(nextId) && match ProviderIndex(old(rows), row.id)
        case Some(i) => r == Success(row) && rows == old(rows)[i := row]
        case None => r == Failure(StaleRowMessage) && rows == old(rows)
    {
      if row.id == 0 {
        var saved := Insert(row);
        r := Success(saved);
      } else {
        var i := ProviderIndex(rows, row.id);
        if i.Some? {
          Replace(i.value, row);
          r := Success(row);
        } else {
          r := Failure(StaleRowMessage);
        }
      }
    }
  }

  // ----- appointments -----

  function AppointmentIndex(appointments: seq<Appointment>, id: int): (r: Option<nat>)
    ensures r.Some? ==> r.value < |appointments| && appointments[r.value].id == Some(id)
    ensures r.None? ==> forall i :: 0 <= i < |appointments| ==> appointments[i].id != Some(id)
  {
    FirstIndex(appointments, (a: Appointment) => a.id == Some(id))
  }

  /** `findById`. */
  function AppointmentById(appointments: seq<Appointment>, id: int): (r: Option<Appointment>)
    ensures r.Some? ==> r.value in appointments && r.value.id == Some(id)
    ensures r.None? ==> forall a :: a in appointments ==> a.id != Some(id)
  {
    match AppointmentIndex(appointments, id)
    case None => None
    case Some(i) => Some(appointments[i])
  }

  /** `findByUser`: the appointments whose user link is that user's key. */
  function AppointmentsByUser(appointments: seq<Appointment>, user: User): (r: seq<Appointment>)
    ensures forall a :: a in r <==> a in appointments && a.user == user.id
  {
    Filter(appointments, (a: Appointment) => a.user == user.id)
  }

  /** `findByProviderId`. */
  function AppointmentsByProviderId(appointments: seq<Appointment>, providerId: int): (r: seq<Appointment>)
    ensures forall a :: a in r <==> a in appointments && a.provider == Some(providerId)
  {
    Filter(appointments, (a: Appointment) => a.provider == Some(providerId))
  }

  /** True when the appointment's provider row exists and has that owner name. */
  predicate OwnedBy(providers: seq<Provider>, a: Appointment, ownerName: Text)
  {
    var p := LinkedProvider(providers, a); p.Some? && p.value.ownername == ownerName
  }

  /** `findByProviderOwnername`: a join through the provider link. */
  function AppointmentsByProviderOwnername(appointments: seq<Appointment>, providers: seq<Provider>,
                                           ownerName: Text): (r: seq<Appointment>)
    ensures forall a :: a in r <==> a in appointments && OwnedBy(providers, a, ownerName)
  {
    Filter(appointments, (a: Appointment) => OwnedBy(providers, a, ownerName))
  }

  /** True when the appointment is for that vehicle name and number. */
  predicate SameVehicle(a: Appointment, vehicleName: Text, vehicleNumber: Text)
  {
    a.vehicleName == vehicleName && a.vehicleNumber == vehicleNumber
  }

  /** `findByVehicleNameAndVehicleNumber`. */
  function AppointmentsByVehicle(appointments: seq<Appointment>, vehicleName: Text,
                                 vehicleNumber: Text): (r: seq<Appointment>)
    ensures forall a :: a in r <==> a in appointments && SameVehicle(a, vehicleName, vehicleNumber)
  {
    Filter(appointments, (a: Appointment) => SameVehicle(a, vehicleName, vehicleNumber))
  }

  /** The user row an appointment's user key points at (the lazy `getUser()`). */
  function LinkedUser(users: seq<User>, a: Appointment): (r: Option<User>)
    ensures r.Some? ==> r.value in users && a.user.Some? && r.value.id == a.user
    ensures r.None? ==> a.user.None? || forall u :: u in users ==> u.id != a.user
  {
    if a.user.None? then None
    else match UserIndex(users, a.user.value)
      case None => None
      case Some(i) => Some(users[i])
  }

  /** The foreign-key constraints of the appointment table: every user and provider key
      names an existing row. */
  predicate LinksResolve(appointments: seq<Appointment>, users: seq<User>, providers: seq<Provider>)
  {
    forall a :: a in appointments ==>
      (a.user.Some? ==> LinkedUser(users, a).Some?) &&
      (a.provider.Some? ==> LinkedProvider(providers, a).Some?)
  }

  /** `AppointmentRepository`. */
  class AppointmentRepo {
    var rows: seq<Appointment>
    var nextId: int

    ghost predicate Valid()
      reads this
    {
      && (forall i :: 0 <= i < |rows| ==> rows[i].id.Some? && rows[i].id.value < nextId)
      && (forall i, j :: 0 <= i < j < |rows| ==> rows[i].id.value < rows[j].id.value)
    }

    constructor ()
      ensures Valid() && rows == [] && nextId == 1
    {
      rows, nextId := [], 1;
    }

    /** `save` of a new appointment: it is stored under the next identity value. */
    method Insert(row: Appointment) returns (saved: Appointment)
      requires Valid()
      modifies this
      ensures Valid() && saved == row.(id := Some(old(nextId)))
      ensures rows == old(rows) + [saved] && nextId == old(nextId) + 1
    {
      saved := row.(id := Some(nextId));
      rows, nextId := rows + [saved], nextId + 1;
    }

    method Replace(i: nat, row: Appointment)
      requires Valid() && i < |rows| && row.id == rows[i].id
      modifies this
      ensures Valid() && rows == old(rows)[i := row] && nextId == old(nextId)
    {
      rows := rows[i := row];
    }

    /** `save`: a row without an id is inserted under the next id; a row whose id is in
        the table replaces that row; a row carrying an unknown id is refused. */
    method Save(row: Appointment) returns (r: Result<Appointment, string>)
      requires Valid()
      modifies this
      ensures Valid()
      ensures row.id.None? ==>
        && r == Success(row.(id := Some(old(nextId))))
        && rows == old(rows) + [r.value] && nextId == old(nextId) + 1
      ensures row.id.Some? ==> nextId == old(nextId) && match AppointmentIndex(old(rows), row.id.value)
        case Some(i) => r == Success(row) && rows == old(rows)[i := row]
        case None => r == Failure(StaleRowMessage) && rows == old(rows)
    {
      if row.id.None? {
        var saved := Insert(row);
        r := Success(saved);
      } else {
        var i := AppointmentIndex(rows, row.id.value);
        if i.Some? {
          Replace(i.value, row);
          r := Success(row);
        } else {
          r := Failure(StaleRowMessage);
        }
      }
    }
  }

  // ----- billing -----

  function BillingIndex(billings: seq<BillingRow>, id: int): (r: Option<nat>)
    ensures r.Some? ==> r.value < |billings| && billings[r.value].id == Some(id)
    ensures r.None? ==> forall i :: 0 <= i < |billings| ==> billings[i].id != Some(id)
  {
    FirstIndex(billings, (b: BillingRow) => b.id == Some(id))
  }

  /** True when the bill is linked to that appointment. */
  predicate BillsAppointment(b: BillingRow, appointmentId: int)
  {
    b.appointmentId == Some(appointmentId)
  }

  /** `findByAppointmentId`. */
  function BillingsByAppointmentId(billings: seq<BillingRow>, appointmentId: int): (r: seq<BillingRow>)
    ensures forall b :: b in r <==> b in billings && BillsAppointment(b, appointmentId)
  {
    Filter(billings, (b: BillingRow) => BillsAppointment(b, appointmentId))
  }

  /** `BillingRepo`. */
  class BillingRepo {
    var rows: seq<BillingRow>
    var nextId: int

    ghost predicate Valid()
      reads this
    {
      && (forall i :: 0 <= i < |rows| ==> rows[i].id.Some? && rows[i].id.value < nextId)
      && (forall i, j :: 0 <= i < j < |rows| ==> rows[i].id.value < rows[j].id.value)
    }

    constructor ()
      ensures Valid() && rows == [] && nextId == 1
    {
      rows, nextId := [], 1;
    }

    /** `save` of a new bill: it is stored under the next identity value. */
    method Insert(row: BillingRow) returns (saved: BillingRow)
      requires Valid()
      modifies this
      ensures Valid() && saved == row.(id := Some(old(nextId)))
      ensures rows == old(rows) + [saved] && nextId == old(nextId) + 1
    {
      saved := row.(id := Some(nextId));
      rows, nextId := rows + [saved], nextId + 1;
    }

    method Replace(i: nat, row: BillingRow)
      requires Valid() && i < |rows| && row.id == rows[i].id
      modifies this
      ensures Valid() && rows == old(rows)[i := row] && nextId == old(nextId)
    {
      rows := rows[i := row];
    }

    /** `save`: a row without an id is inserted under the next id; a row whose id is in
        the table replaces that row; a row carrying an unknown id is refused. */
    method Save(row: BillingRow) returns (r: Result<BillingRow, string>)
      requires Valid()
      modifies this
      ensures Valid()
      ensures row.id.None? ==>
        && r == Success(row.(id := Some(old(nextId))))
        && rows == old(rows) + [r.value] && nextId == old(nextId) + 1
      ensures row.id.Some? ==> nextId == old(nextId) && match BillingIndex(old(rows), row.id.value)
        case Some(i) => r == Success(row) && rows == old(rows)[i := row]
        case None => r == Failure(StaleRowMessage) && rows == old(rows)
    {
      if row.id.None? {
        var saved := Insert(row);
        r := Success(saved);
      } else {
        var i := BillingIndex(rows, row.id.value);
        if i.Some? {
          Replace(i.value, row);
          r := Success(row);
        } else {
          r := Failure(StaleRowMessage);
        }
      }
    }
  }

  // ----- service details -----

  /** `findByUsername` on the service-details table. */
  function ServicesByUsername(services: seq<ServiceDetails>, username: Text): (r: seq<ServiceDetails>)
    ensures forall s :: s in r <==> s in services && s.username == username
  {
    Filter(services, (s: ServiceDetails) => s.username == username)
  }

  function ServiceIndex(services: seq<ServiceDetails>, id: int): (r: Option<nat>)
    ensures r.Some? ==> r.value < |services| && services[r.value].id == Some(id)
    ensures r.None? ==> forall i :: 0 <= i < |services| ==> services[i].id != Some(id)
  {
    FirstIndex(services, (s: ServiceDetails) => s.id == Some(id))
  }

  /** `ServiceRepo`. */
  class ServiceRepo {
    var rows: seq<ServiceDetails>
    var nextId: int

    ghost predicate Valid()
      reads this
    {
      && (forall i :: 0 <= i < |rows| ==> rows[i].id.Some? && rows[i].id.value < nextId)
      && (forall i, j :: 0 <= i < j < |rows| ==> rows[i].id.value < rows[j].id.value)
    }

    constructor ()
      ensures Valid() && rows == [] && nextId == 1
    {
      rows, nextId := [], 1;
    }

    /** `save` of a new service record: it is stored under the next identity value. */
    method Insert(row: ServiceDetails) returns (saved: ServiceDetails)
      requires Valid()
      modifies this
      ensures Valid() && saved == row.(id := Some(old(nextId)))
      ensures rows == old(rows) + [saved] && nextId == old(nextId) + 1
    {
      saved := row.(id := Some(nextId));
      rows, nextId := rows + [saved], nextId + 1;
    }

    method Replace(i: nat, row: ServiceDetails)
      requires Valid() && i < |rows| && row.id == rows[i].id
      modifies this
      ensures Valid() && rows == old(rows)[i := row] && nextId == old(nextId)
    {
      rows := rows[i := row];
    }

    /** `save`: a row without an id is inserted under the next id; a row whose id is in
        the table replaces that row; a row carrying an unknown id is refused. */
    method Save(row: ServiceDetails) returns (r: Result<ServiceDetails, string>)
      requires Valid()
      modifies this
      ensures Valid()
      ensures row.id.None? ==>
        && r == Success(row.(id := Some(old(nextId))))
        && rows == old(rows) + [r.value] && nextId == old(nextId) + 1
      ensures row.id.Some? ==> nextId == old(nextId) && match ServiceIndex(old(rows), row.id.value)
        case Some(i) => r == Success(row) && rows == old(rows)[i := row]
        case None => r == Failure(StaleRowMessage) && rows == old(rows)
    {
      if row.id.None? {
        var saved := Insert(row);
        r := Success(saved);
      } else {
        var i := ServiceIndex(rows, row.id.value);
        if i.Some? {
          Replace(i.value, row);
          r := Success(row);
        } else {
          r := Failure(StaleRowMessage);
        }
      }
    }
  }
}

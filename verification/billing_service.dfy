/** The billing service: prices a service, derives a bill from a completed appointment,
    records payments, and repairs bills that lost their appointment link. */
module BillingService {
  import opened Wrappers
  import opened JavaText
  import opened Seqs
  import opened Entities
  import opened BillingEntity
  import opened Repositories

  // ----- price list -----

  /** The price charged when the service type is null or not on the list. */
  const DefaultAmount := 2000

  /** The fixed price list in rupees, keyed on the lower-cased service type. */
  const PriceList: map<string, int> := map[
    "oil change" := 1500,
    "tire rotation" := 1200,
    "brake service" := 3500,
    "engine diagnostic" := 2500,
    "general maintenance" := 1800]

  /** `calculateServiceAmount`: the price of a service type, compared after lower-casing. */
  function ServiceAmount(serviceType: Text): (r: int)
    ensures serviceType.Some? && Lower(serviceType.value) in PriceList ==>
      r == PriceList[Lower(serviceType.value)]
    ensures serviceType.None? || Lower(serviceType.value) !in PriceList ==> r == DefaultAmount
    ensures r in {1500, 1200, 3500, 2500, 1800, DefaultAmount}
  {
    if serviceType.None? then 2000
    else
      var key := Lower(serviceType.value);
      if key == "oil change" then 1500
      else if key == "tire rotation" then 1200
      else if key == "brake service" then 3500
      else if key == "engine diagnostic" then 2500
      else if key == "general maintenance" then 1800
      else 2000
  }

  // ----- deriving a bill from an appointment -----

  const FallbackProviderName := "Service Provider"

  /** The provider name written on a derived bill: the garage name when it is non-empty,
      else the owner name when that is non-empty, else "Service Provider". */
  function BillingProviderName(provider: Option<Provider>): (r: string)
    ensures r != ""
    ensures provider.Some? && Present(provider.value.garagename) ==>
      r == provider.value.garagename.value
    ensures provider.Some? && !Present(provider.value.garagename) && Present(provider.value.ownername) ==>
      r == provider.value.ownername.value
    ensures provider.None? || (!Present(provider.value.garagename) && !Present(provider.value.ownername)) ==>
      r == FallbackProviderName
  {
    match provider
    case None => FallbackProviderName
    case Some(p) =>
      if Present(p.garagename) then p.garagename.value
      else if Present(p.ownername) then p.ownername.value
      else FallbackProviderName
  }

  /** The text a nullable date becomes on a bill (`date.toString()` when non-null). */
  function DateText(d: Option<Date>): Text
  {
    if d.Some? then Some(d.value.iso) else None
  }

  function TimeText(t: Option<Time>): Text
  {
    if t.Some? then Some(t.value.iso) else None
  }

  /** The unsaved bill `createBillingFromAppointment` builds for an appointment whose
      provider row (if it has one) is `provider`. */
  function SynthesizedBilling(a: Appointment, provider: Option<Provider>): (b: BillingRow)
    requires provider.Some? ==> a.provider == Some(provider.value.id)
    ensures b.id == None && b.appointmentId == a.id
    ensures b.paymentStatus == Some("pending") && b.paymentMethod == None && b.paymentDate == None
    ensures b.totalAmount == Some(ServiceAmount(a.serviceType))
    ensures b.vehicleName == a.vehicleName && b.vehicleNumber == a.vehicleNumber
    ensures b.userId == a.user
    ensures b.providerId == (if provider.Some? then a.provider else None)
    ensures b.providerName == Some(BillingProviderName(provider))
    ensures b.date.Some? <==> a.date.Some?
    ensures a.date.Some? ==> b.date == Some(a.date.value.iso)
    ensures b.time.Some? <==> a.time.Some?
    ensures a.time.Some? ==> b.time == Some(a.time.value.iso)
  {
    BillingRow(
      id := None,
      userId := a.user,
      vehicleName := a.vehicleName,
      vehicleNumber := a.vehicleNumber,
      appointmentId := a.id,
      date := DateText(a.date),
      time := TimeText(a.time),
      totalAmount := Some(ServiceAmount(a.serviceType)),
      paymentStatus := Some("pending"),
      paymentMethod := None,
      paymentDate := None,
      providerId := if provider.Some? then Some(provider.value.id) else None,
      providerName := Some(BillingProviderName(provider)))
  }

  /** The provider part of `createBillingFromAppointment`: the provider id, and the name
      chosen by `BillingProviderName`. */
  method SetProvider(billing: Billing, provider: Option<Provider>)
    modifies billing
    ensures billing.Row() == old(billing.Row()).(
      providerId := if provider.Some? then Some(provider.value.id) else old(billing.providerId),
      providerName := Some(BillingProviderName(provider)))
    ensures billing.services == old(billing.services)
  {
    if provider.Some? {
      billing.providerId := Some(provider.value.id);
      if Present(provider.value.garagename) {
        billing.providerName := provider.value.garagename;
      } else if Present(provider.value.ownername) {
        billing.providerName := provider.value.ownername;
      } else {
        billing.providerName := Some(FallbackProviderName);
      }
    } else {
      billing.providerName := Some(FallbackProviderName);
    }
  }

  /** The unsaved `Billing` object `createBillingFromAppointment` fills in, field by field,
      for an appointment whose provider row (if it has one) is `provider`. */
  method NewBillingFor(appointment: Appointment, provider: Option<Provider>) returns (billing: Billing)
    requires provider.Some? ==> appointment.provider == Some(provider.value.id)
    ensures fresh(billing)
    ensures billing.Row() == SynthesizedBilling(appointment, provider)
    ensures billing.services == Some([])
  {
    billing := new Billing();
    billing.appointmentId := appointment.id;
    billing.paymentStatus := Some("pending");
    billing.totalAmount := Some(ServiceAmount(appointment.serviceType));
    billing.vehicleName := appointment.vehicleName;
    billing.vehicleNumber := appointment.vehicleNumber;
    if appointment.user.Some? {
      billing.userId := appointment.user;
    }
    SetProvider(billing, provider);
    if appointment.date.Some? {
      billing.date := Some(appointment.date.value.iso);
    }
    if appointment.time.Some? {
      billing.time := Some(appointment.time.value.iso);
    }
  }

  /** `createBillingFromAppointment(Appointment)`: the bill built by `NewBillingFor`, saved as
      one new row. */
  method CreateBillingFromAppointment(billingRepo: BillingRepo, providerRepo: ProviderRepo,
                                      appointment: Appointment) returns (saved: BillingRow)
    requires billingRepo.Valid()
    modifies billingRepo
    ensures billingRepo.Valid() && billingRepo.nextId == old(billingRepo.nextId) + 1
    ensures saved == SynthesizedBilling(appointment, LinkedProvider(providerRepo.rows, appointment))
                       .(id := Some(old(billingRepo.nextId)))
    ensures billingRepo.rows == old(billingRepo.rows) + [saved]
  {
    var billing := NewBillingFor(appointment, LinkedProvider(providerRepo.rows, appointment));
    saved := billingRepo.Insert(billing.Row());
  }

  /** `createBillingFromAppointment(Long)`: null, and no write, for an unknown appointment. */
  method CreateBillingForAppointmentId(billingRepo: BillingRepo, appointmentRepo: AppointmentRepo,
                                       providerRepo: ProviderRepo, appointmentId: int)
    returns (r: Option<BillingRow>)
    requires billingRepo.Valid()
    modifies billingRepo
    ensures billingRepo.Valid()
    ensures AppointmentById(appointmentRepo.rows, appointmentId).None? ==>
      r.None? && billingRepo.rows == old(billingRepo.rows) && billingRepo.nextId == old(billingRepo.nextId)
    ensures AppointmentById(appointmentRepo.rows, appointmentId).Some? ==>
      var a := AppointmentById(appointmentRepo.rows, appointmentId).value;
      && r == Some(SynthesizedBilling(a, LinkedProvider(providerRepo.rows, a)).(id := Some(old(billingRepo.nextId))))
      && billingRepo.rows == old(billingRepo.rows) + [r.value]
  {
    var appointment := AppointmentById(appointmentRepo.rows, appointmentId);
    if appointment.Some? {
      var saved := CreateBillingFromAppointment(billingRepo, providerRepo, appointment.value);
      r := Some(saved);
    } else {
      r := None;
    }
  }

  // ----- queries and plain save -----

  /** `getBillingByUser`: the bills whose user id equals the argument (null matches null). */
  function BillingsForUser(billings: seq<BillingRow>, userId: Option<int>): (r: seq<BillingRow>)
    ensures |r| <= |billings|
    ensures forall b :: b in r <==> b in billings && b.userId == userId
  {
    Filter(billings, (b: BillingRow) => b.userId == userId)
  }

  // The three list queries below are separate Spring Data finders over different columns.

  /** `getBillingByProvider`: the bills whose provider name equals the argument. */
  function BillingsForProvider(billings: seq<BillingRow>, providerName: Text): (r: seq<BillingRow>)
    ensures |r| <= |billings|
    ensures forall b :: b in r <==> b in billings && b.providerName == providerName
  {
    Filter(billings, (b: BillingRow) => b.providerName == providerName)
  }

  /** `getBillingByPaymentStatus`: the bills whose payment status equals the argument exactly. */
  function BillingsWithPaymentStatus(billings: seq<BillingRow>, paymentStatus: Text): (r: seq<BillingRow>)
    ensures |r| <= |billings|
    ensures forall b :: b in r <==> b in billings && b.paymentStatus == paymentStatus
  {
    Filter(billings, (b: BillingRow) => b.paymentStatus == paymentStatus)
  }

  /** A bill just marked "paid" is listed by `getBillingByPaymentStatus("paid")`. */
  lemma PaidBillIsListedAsPaid(billings: seq<BillingRow>, i: nat, now: Timestamp)
    requires i < |billings|
    ensures var paid := WithPaymentStatus(billings[i], Some("paid"), now);
            paid in BillingsWithPaymentStatus(billings[i := paid], Some("paid"))
  {
    var paid := WithPaymentStatus(billings[i], Some("paid"), now);
    assert billings[i := paid][i] == paid;
  }

  // ----- get-or-create -----

  /** The effect of one `getBillingByAppointment` call: the billing table afterwards, the
      identity counter afterwards, and the list returned. */
  datatype Lookup = Lookup(rows: seq<BillingRow>, nextId: int, result: seq<BillingRow>)

  /** True when a completed appointment with that id exists (status compared exactly). */
  predicate CompletedAppointment(appointments: seq<Appointment>, appointmentId: int)
  {
    var a := AppointmentById(appointments, appointmentId);
    a.Some? && a.value.status == Some("completed")
  }

  /** `getBillingByAppointment` on table values: existing bills for the appointment are
      returned as they are; with none, one bill is derived and saved for a completed
      appointment, and an empty list is returned otherwise. */
  function BillingByAppointment(billings: seq<BillingRow>, nextId: int, appointments: seq<Appointment>,
                                providers: seq<Provider>, appointmentId: int): (o: Lookup)
    ensures BillingsByAppointmentId(billings, appointmentId) != [] ==>
      o == Lookup(billings, nextId, BillingsByAppointmentId(billings, appointmentId))
    ensures o.rows == billings || (o.rows == billings + o.result && |o.result| == 1 && o.nextId == nextId + 1)
    ensures o.rows != billings <==>
      BillingsByAppointmentId(billings, appointmentId) == [] && CompletedAppointment(appointments, appointmentId)
    ensures o.rows == billings ==> o.nextId == nextId
    ensures forall b :: b in o.result ==> BillsAppointment(b, appointmentId)
    ensures BillingsByAppointmentId(billings, appointmentId) == [] && !CompletedAppointment(appointments, appointmentId) ==>
      o.result == []
    ensures o.rows != billings ==>
      var a := AppointmentById(appointments, appointmentId).value;
      o.result == [SynthesizedBilling(a, LinkedProvider(providers, a)).(id := Some(nextId))]
  {
    var existing := BillingsByAppointmentId(billings, appointmentId);
    if existing != [] then Lookup(billings, nextId, existing)
    else if CompletedAppointment(appointments, appointmentId) then
      var a := AppointmentById(appointments, appointmentId).value;
      var saved := SynthesizedBilling(a, LinkedProvider(providers, a)).(id := Some(nextId));
      assert |billings + [saved]| != |billings|;
      Lookup(billings + [saved], nextId + 1, [saved])
    else Lookup(billings, nextId, [])
  }

  /** A second `getBillingByAppointment` for the same appointment changes nothing and returns
      what the first returned: at most one bill is ever derived per appointment. */
  lemma {:induction false} BillingByAppointmentIdempotent(billings: seq<BillingRow>, nextId: int,
      appointments: seq<Appointment>, providers: seq<Provider>, appointmentId: int)
    ensures var o := BillingByAppointment(billings, nextId, appointments, providers, appointmentId);
            BillingByAppointment(o.rows, o.nextId, appointments, providers, appointmentId) == o
  {
    var o := BillingByAppointment(billings, nextId, appointments, providers, appointmentId);
    if o.rows != billings {
      var saved := o.result[0];
      assert o.rows == billings + [saved];
      FilterSnoc(billings, saved, (b: BillingRow) => BillsAppointment(b, appointmentId));
      assert BillingsByAppointmentId(o.rows, appointmentId) == [saved];
    }
  }

  /** `getBillingByAppointment`. The derived bill is saved once (the source saves the same
      entity twice, which stores one row). */
  method GetBillingByAppointment(billingRepo: BillingRepo, appointmentRepo: AppointmentRepo,
                                 providerRepo: ProviderRepo, appointmentId: int) returns (r: seq<BillingRow>)
    requires billingRepo.Valid()
    modifies billingRepo
    ensures billingRepo.Valid()
    ensures var o := BillingByAppointment(old(billingRepo.rows), old(billingRepo.nextId),
                                          appointmentRepo.rows, providerRepo.rows, appointmentId);
            billingRepo.rows == o.rows && billingRepo.nextId == o.nextId && r == o.result
  {
    r := BillingsByAppointmentId(billingRepo.rows, appointmentId);
    if r == [] {
      var appointment := AppointmentById(appointmentRepo.rows, appointmentId);
      if appointment.Some? && appointment.value.status == Some("completed") {
        var saved := CreateBillingFromAppointment(billingRepo, providerRepo, appointment.value);
        r := [saved];
      }
    }
  }

  // ----- payments -----

  /** `updatePaymentStatus` on one bill: the status is replaced; the payment date is stamped
      with `now` when the new status is exactly "paid" and is otherwise kept. */
  function WithPaymentStatus(b: BillingRow, paymentStatus: Text, now: Timestamp): (r: BillingRow)
    ensures r.paymentStatus == paymentStatus
    ensures paymentStatus == Some("paid") ==> r.paymentDate == Some(now)
    ensures paymentStatus != Some("paid") ==> r.paymentDate == b.paymentDate
    ensures r.(paymentStatus := b.paymentStatus, paymentDate := b.paymentDate) == b
  {
    b.(paymentStatus := paymentStatus,
       paymentDate := if paymentStatus == Some("paid") then Some(now) else b.paymentDate)
  }

  /** `updatePayment` on one bill: as `WithPaymentStatus`, and the method is replaced too. */
  function WithPayment(b: BillingRow, paymentStatus: Text, paymentMethod: Text, now: Timestamp): (r: BillingRow)
    ensures r.paymentStatus == paymentStatus && r.paymentMethod == paymentMethod
    ensures paymentStatus == Some("paid") ==> r.paymentDate == Some(now)
    ensures paymentStatus != Some("paid") ==> r.paymentDate == b.paymentDate
    ensures r.(paymentStatus := b.paymentStatus, paymentMethod := b.paymentMethod,
               paymentDate := b.paymentDate) == b
  {
    WithPaymentStatus(b, paymentStatus, now).(paymentMethod := paymentMethod)
  }

  function NotFoundMessage(id: int): string
  {
    "Billing record not found with id: " + IntToString(id)
  }

  /** `updatePaymentStatus`: throws for an unknown id and leaves the table alone; otherwise
      replaces that one bill by its updated form. */
  method UpdatePaymentStatus(billingRepo: BillingRepo, id: int, paymentStatus: Text, now: Timestamp)
    returns (r: Result<BillingRow, string>)
    requires billingRepo.Valid()
    modifies billingRepo
    ensures billingRepo.Valid() && billingRepo.nextId == old(billingRepo.nextId)
    ensures match BillingIndex(old(billingRepo.rows), id)
      case None => r == Failure(NotFoundMessage(id)) && billingRepo.rows == old(billingRepo.rows)
      case Some(i) =>
        && r == Success(WithPaymentStatus(old(billingRepo.rows)[i], paymentStatus, now))
        && billingRepo.rows == old(billingRepo.rows)[i := r.value]
  {
    var i := BillingIndex(billingRepo.rows, id);
    if i.Some? {
      var billing := billingRepo.rows[i.value];
      billing := billing.(paymentStatus := paymentStatus);
      if paymentStatus == Some("paid") {
        billing := billing.(paymentDate := Some(now));
      }
      billingRepo.Replace(i.value, billing);
      r := Success(billing);
    } else {
      r := Failure(NotFoundMessage(id));
    }
  }

  /** `updatePayment`: as `UpdatePaymentStatus`, also replacing the payment method. The
      linked appointment is only looked up, never written. */
  method UpdatePayment(billingRepo: BillingRepo, id: int, paymentStatus: Text, paymentMethod: Text,
                       now: Timestamp) returns (r: Result<BillingRow, string>)
    requires billingRepo.Valid()
    modifies billingRepo
    ensures billingRepo.Valid() && billingRepo.nextId == old(billingRepo.nextId)
    ensures match BillingIndex(old(billingRepo.rows), id)
      case None => r == Failure(NotFoundMessage(id)) && billingRepo.rows == old(billingRepo.rows)
      case Some(i) =>
        && r == Success(WithPayment(old(billingRepo.rows)[i], paymentStatus, paymentMethod, now))
        && billingRepo.rows == old(billingRepo.rows)[i := r.value]
  {
    var i := BillingIndex(billingRepo.rows, id);
    if i.Some? {
      var billing := billingRepo.rows[i.value];
      billing := billing.(paymentStatus := paymentStatus, paymentMethod := paymentMethod);
      if paymentStatus == Some("paid") {
        billing := billing.(paymentDate := Some(now));
      }
      billingRepo.Replace(i.value, billing);
      r := Success(billing);
    } else {
      r := Failure(NotFoundMessage(id));
    }
  }

  /** One `updatePaymentStatus` call on a bill: the status sent and the clock reading. */
  datatype StatusChange = StatusChange(status: Text, now: Timestamp)

  /** A bill after a series of status changes, applied in order. */
  function AfterChanges(b: BillingRow, changes: seq<StatusChange>): BillingRow
    decreases |changes|
  {
    if changes == [] then b
    else
      var last := changes[|changes| - 1];
      WithPaymentStatus(AfterChanges(b, changes[..|changes| - 1]), last.status, last.now)
  }

  /** The clock reading of the last change to "paid", if any. */
  function LastPaidAt(changes: seq<StatusChange>): Option<Timestamp>
  {
    if changes == [] then None
    else match LastPaidAt(changes[1..])
      case Some(t) => Some(t)
      case None => if changes[0].status == Some("paid") then Some(changes[0].now) else None
  }

  lemma {:induction false} LastPaidAtSnoc(changes: seq<StatusChange>, c: StatusChange)
    ensures LastPaidAt(changes + [c]) == if c.status == Some("paid") then Some(c.now) else LastPaidAt(changes)
  {
    if changes == [] {
      assert changes + [c] == [c];
      assert [c][1..] == [];
    } else {
      assert (changes + [c])[1..] == changes[1..] + [c];
      LastPaidAtSnoc(changes[1..], c);
    }
  }

  /** The payment-date ratchet: after any series of status changes the payment date is the
      time of the last change to "paid", or the original date if there was none. It is never
      cleared, and the status is the last one sent. */
  lemma {:induction false} PaymentDateRatchet(b: BillingRow, changes: seq<StatusChange>)
    ensures var r := AfterChanges(b, changes);
      && r.paymentDate == (if LastPaidAt(changes).Some? then LastPaidAt(changes) else b.paymentDate)
      && (b.paymentDate.Some? ==> r.paymentDate.Some?)
      && (changes != [] ==> r.paymentStatus == changes[|changes| - 1].status)
  {
    if changes != [] {
      var front, last := changes[..|changes| - 1], changes[|changes| - 1];
      assert changes == front + [last];
      PaymentDateRatchet(b, front);
      LastPaidAtSnoc(front, last);
    }
  }

  // ----- repairing missing appointment links -----

  /** An appointment date agrees with a bill's date text (any date does if the bill has none). */
  predicate DateMatches(b: BillingRow, a: Appointment)
  {
    b.date.None? || (a.date.Some? && Some(a.date.value.iso) == b.date)
  }

  /** The first of `candidates` whose date agrees with the bill. */
  function DatedMatch(b: BillingRow, candidates: seq<Appointment>): Option<Appointment>
  {
    FindFirst(candidates, (a: Appointment) => DateMatches(b, a))
  }

  /** The appointment an unlinked bill is attached to: among appointments for the same
      vehicle, the first whose date agrees, else the first. */
  function BestMatch(b: BillingRow, appointments: seq<Appointment>): Option<Appointment>
  {
    var candidates := AppointmentsByVehicle(appointments, b.vehicleName, b.vehicleNumber);
    match DatedMatch(b, candidates)
    case Some(a) => Some(a)
    case None => if candidates != [] then Some(candidates[0]) else None
  }

  /** A direct scan for the first appointment that a bill prefers: same vehicle and agreeing date. */
  function FirstPreferred(b: BillingRow, appointments: seq<Appointment>): Option<Appointment>
  {
    if appointments == [] then None
    else if SameVehicle(appointments[0], b.vehicleName, b.vehicleNumber) && DateMatches(b, appointments[0])
    then Some(appointments[0])
    else FirstPreferred(b, appointments[1..])
  }

  /** A direct scan for the first appointment for the same vehicle. */
  function FirstSameVehicle(b: BillingRow, appointments: seq<Appointment>): Option<Appointment>
  {
    if appointments == [] then None
    else if SameVehicle(appointments[0], b.vehicleName, b.vehicleNumber) then Some(appointments[0])
    else FirstSameVehicle(b, appointments[1..])
  }

  lemma {:induction false} DatedMatchScan(b: BillingRow, appointments: seq<Appointment>)
    ensures DatedMatch(b, AppointmentsByVehicle(appointments, b.vehicleName, b.vehicleNumber))
         == FirstPreferred(b, appointments)
    ensures var c := AppointmentsByVehicle(appointments, b.vehicleName, b.vehicleNumber);
            (if c != [] then Some(c[0]) else None) == FirstSameVehicle(b, appointments)
  {
    if appointments != [] {
      DatedMatchScan(b, appointments[1..]);
    }
  }

  /** The matching rule in one scan of the appointment table: the first same-vehicle
      appointment with an agreeing date wins; failing that, the first same-vehicle one;
      with no same-vehicle appointment there is no match. */
  lemma BestMatchPrefersDate(b: BillingRow, appointments: seq<Appointment>)
    ensures BestMatch(b, appointments) ==
      if FirstPreferred(b, appointments).Some? then FirstPreferred(b, appointments)
      else FirstSameVehicle(b, appointments)
    ensures BestMatch(b, appointments).Some? <==>
      exists a :: a in appointments && SameVehicle(a, b.vehicleName, b.vehicleNumber)
  {
    DatedMatchScan(b, appointments);
  }

  /** One bill after the repair: a linked bill is untouched; an unlinked one takes the id
      of its best match, if it has one. */
  function Relinked(b: BillingRow, appointments: seq<Appointment>): (r: BillingRow)
    ensures b.appointmentId.Some? ==> r == b
    ensures r == b.(appointmentId := r.appointmentId)
    ensures b.appointmentId.None? && FirstPreferred(b, appointments).Some? ==>
      r.appointmentId == FirstPreferred(b, appointments).value.id
    ensures b.appointmentId.None? && FirstPreferred(b, appointments).None? && FirstSameVehicle(b, appointments).Some? ==>
      r.appointmentId == FirstSameVehicle(b, appointments).value.id
    ensures (forall a :: a in appointments ==> !SameVehicle(a, b.vehicleName, b.vehicleNumber)) ==> r == b
  {
    BestMatchPrefersDate(b, appointments);
    if b.appointmentId.Some? then b
    else match BestMatch(b, appointments)
      case Some(a) => b.(appointmentId := a.id)
      case None => b
  }

  /** The billing table after `fixMissingAppointmentIds`. */
  function RelinkAll(billings: seq<BillingRow>, appointments: seq<Appointment>): (r: seq<BillingRow>)
    ensures |r| == |billings|
    ensures forall i :: 0 <= i < |billings| ==> r[i] == Relinked(billings[i], appointments)
  {
    seq(|billings|, i requires 0 <= i < |billings| => Relinked(billings[i], appointments))
  }

  /** Bills the repair links, bills already linked, and bills left unlinked. */
  predicate Fixable(b: BillingRow, appointments: seq<Appointment>)
  {
    b.appointmentId.None? && BestMatch(b, appointments).Some?
  }

  predicate Unmatched(b: BillingRow, appointments: seq<Appointment>)
  {
    b.appointmentId.None? && BestMatch(b, appointments).None?
  }

  function FixableCount(billings: seq<BillingRow>, appointments: seq<Appointment>): nat
  {
    if billings == [] then 0
    else FixableCount(billings[..|billings| - 1], appointments)
         + (if Fixable(billings[|billings| - 1], appointments) then 1 else 0)
  }

  function LinkedCount(billings: seq<BillingRow>): nat
  {
    if billings == [] then 0
    else LinkedCount(billings[..|billings| - 1])
         + (if billings[|billings| - 1].appointmentId.Some? then 1 else 0)
  }

  function UnmatchedCount(billings: seq<BillingRow>, appointments: seq<Appointment>): nat
  {
    if billings == [] then 0
    else UnmatchedCount(billings[..|billings| - 1], appointments)
         + (if Unmatched(billings[|billings| - 1], appointments) then 1 else 0)
  }

  /** Every bill is exactly one of: fixed, already linked, left unmatched. */
  lemma {:induction false} RepairCountsPartition(billings: seq<BillingRow>, appointments: seq<Appointment>)
    ensures FixableCount(billings, appointments) + LinkedCount(billings)
            + UnmatchedCount(billings, appointments) == |billings|
  {
    if billings != [] {
      RepairCountsPartition(billings[..|billings| - 1], appointments);
    }
  }

  /** After one repair, every fixed bill is linked, and a second repair over the same
      appointments fixes nothing and changes nothing (appointments are saved rows, so
      they have ids). */
  lemma {:induction false} RepairIsIdempotent(billings: seq<BillingRow>, appointments: seq<Appointment>)
    requires forall a :: a in appointments ==> a.id.Some?
    ensures LinkedCount(RelinkAll(billings, appointments))
            == LinkedCount(billings) + FixableCount(billings, appointments)
    ensures FixableCount(RelinkAll(billings, appointments), appointments) == 0
    ensures RelinkAll(RelinkAll(billings, appointments), appointments) == RelinkAll(billings, appointments)
  {
    if billings != [] {
      var n := |billings|;
      var front := billings[..n - 1];
      RepairIsIdempotent(front, appointments);
      var r := RelinkAll(billings, appointments);
      assert r[..n - 1] == RelinkAll(front, appointments);
      var b := billings[n - 1];
      var m := BestMatch(b, appointments);
      assert m.Some? ==> m.value in appointments by {
        if m.Some? {
          var c := AppointmentsByVehicle(appointments, b.vehicleName, b.vehicleNumber);
          assert c != [] ==> c[0] in c;
        }
      }
    }
  }

  function FixReport(fixedCount: nat, alreadyCorrectCount: nat): string
  {
    "Fixed " + IntToString(fixedCount) + " billing records. "
      + IntToString(alreadyCorrectCount) + " records already had appointment IDs."
  }

  /** The body of the repair loop for the bill at position `i`: an unlinked bill with a
      best match is relinked and saved; the outcome says whether it was fixed. */
  method FixOne(billingRepo: BillingRepo, appointments: seq<Appointment>, i: nat)
    returns (fixed: bool)
    requires billingRepo.Valid() && i < |billingRepo.rows|
    modifies billingRepo
    ensures billingRepo.Valid() && billingRepo.nextId == old(billingRepo.nextId)
    ensures billingRepo.rows == old(billingRepo.rows)[i := Relinked(old(billingRepo.rows)[i], appointments)]
    ensures fixed <==> Fixable(old(billingRepo.rows)[i], appointments)
  {
    var billing := billingRepo.rows[i];
    fixed := false;
    if billing.appointmentId.None? {
      var matching := AppointmentsByVehicle(appointments, billing.vehicleName, billing.vehicleNumber);
      var bestMatch := DatedMatch(billing, matching);
      if bestMatch.Some? {
        billingRepo.Replace(i, billing.(appointmentId := bestMatch.value.id));
        fixed := true;
      } else if matching != [] {
        billingRepo.Replace(i, billing.(appointmentId := matching[0].id));
        fixed := true;
      }
    }
    if !fixed {
      assert billingRepo.rows == old(billingRepo.rows)[i := billing];
    }
  }

  /** `fixMissingAppointmentIds`: one pass over the billing table in order, linking each
      unlinked bill to its best match and counting fixed and already-linked bills. */
  method FixMissingAppointmentIds(billingRepo: BillingRepo, appointmentRepo: AppointmentRepo)
    returns (fixedCount: nat, alreadyCorrectCount: nat, report: string)
    requires billingRepo.Valid()
    modifies billingRepo
    ensures billingRepo.Valid() && billingRepo.nextId == old(billingRepo.nextId)
    ensures billingRepo.rows == RelinkAll(old(billingRepo.rows), appointmentRepo.rows)
    ensures fixedCount == FixableCount(old(billingRepo.rows), appointmentRepo.rows)
    ensures alreadyCorrectCount == LinkedCount(old(billingRepo.rows))
    ensures report == FixReport(fixedCount, alreadyCorrectCount)
  {
    var allBillings := billingRepo.rows;
    var appointments := appointmentRepo.rows;
    fixedCount, alreadyCorrectCount := 0, 0;
    var i := 0;
    while i < |allBillings|
      invariant 0 <= i <= |allBillings|
      invariant billingRepo.Valid() && billingRepo.nextId == old(billingRepo.nextId)
      invariant |billingRepo.rows| == |allBillings|
      invariant forall k :: 0 <= k < i ==> billingRepo.rows[k] == Relinked(allBillings[k], appointments)
      invariant forall k :: i <= k < |allBillings| ==> billingRepo.rows[k] == allBillings[k]
      invariant fixedCount == FixableCount(allBillings[..i], appointments)
      invariant alreadyCorrectCount == LinkedCount(allBillings[..i])
    {
      assert allBillings[..i + 1][..i] == allBillings[..i];
      var fixed := FixOne(billingRepo, appointments, i);
      if fixed {
        fixedCount := fixedCount + 1;
      } else if allBillings[i].appointmentId.Some? {
        alreadyCorrectCount := alreadyCorrectCount + 1;
      }
      i := i + 1;
    }
    assert allBillings[..i] == allBillings;
    report := FixReport(fixedCount, alreadyCorrectCount);
  }
}

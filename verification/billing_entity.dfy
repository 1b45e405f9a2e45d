/** The billing entity: the `Billing` object whose fields the billing service sets before
    saving it, the row it is stored as, and the service items that point back at it. */
module BillingEntity {
  import opened Wrappers
  import opened JavaText
  import opened Entities

  /** A row of the billing table: the scalar columns of a `Billing`. Amounts are whole rupees. */
  datatype BillingRow = BillingRow(
    id: Option<int>,
    userId: Option<int>,
    vehicleName: Text,
    vehicleNumber: Text,
    appointmentId: Option<int>,
    date: Text,
    time: Text,
    totalAmount: Option<int>,
    paymentStatus: Text,
    paymentMethod: Text,
    paymentDate: Option<Timestamp>,
    providerId: Option<int>,
    providerName: Text)

  /** A line item of a bill; `billing` is the owning side of the link to its bill. */
  class ServiceItem {
    var id: Option<int>
    var serviceName: Text
    var providerName: Text
    var price: Option<int>
    var billing: Billing?

    constructor (serviceName: Text, providerName: Text, price: Option<int>)
      ensures this.id == None && this.billing == null
      ensures this.serviceName == serviceName && this.providerName == providerName
      ensures this.price == price
    {
      this.id := None;
      this.serviceName := serviceName;
      this.providerName := providerName;
      this.price := price;
      this.billing := null;
    }
  }

  /** The items of a (possibly null) list. */
  function Items(services: Option<seq<ServiceItem>>): set<ServiceItem>
  {
    if services.None? then {} else set item | item in services.value
  }

  /** A bill. Field defaults: payment status "pending" and an empty, non-null item list. */
  class Billing {
    var id: Option<int>
    var userId: Option<int>
    var vehicleName: Text
    var vehicleNumber: Text
    var appointmentId: Option<int>
    var date: Text
    var time: Text
    var totalAmount: Option<int>
    var paymentStatus: Text
    var paymentMethod: Text
    var paymentDate: Option<Timestamp>
    var providerId: Option<int>
    var providerName: Text
    var services: Option<seq<ServiceItem>>

    /** The row this object is saved as. */
    function Row(): BillingRow
      reads this
    {
      BillingRow(id, userId, vehicleName, vehicleNumber, appointmentId, date, time,
                 totalAmount, paymentStatus, paymentMethod, paymentDate, providerId, providerName)
    }

    /** `new Billing()`: everything null except the two initialised fields. */
    constructor ()
      ensures Row() == BillingRow(None, None, None, None, None, None, None, None,
                                  Some("pending"), None, None, None, None)
      ensures services == Some([])
    {
      id, userId, vehicleName, vehicleNumber, appointmentId := None, None, None, None, None;
      date, time, totalAmount := None, None, None;
      paymentStatus := Some("pending");
      paymentMethod, paymentDate, providerId, providerName := None, None, None, None;
      services := Some([]);
    }

    /** The six-argument constructor: sets exactly those six fields over the defaults. */
    constructor Of(userId: Option<int>, vehicleName: Text, vehicleNumber: Text,
                   date: Text, time: Text, totalAmount: Option<int>)
      ensures Row() == BillingRow(None, userId, vehicleName, vehicleNumber, None, date, time,
                                  totalAmount, Some("pending"), None, None, None, None)
      ensures services == Some([])
    {
      id, appointmentId := None, None;
      this.userId, this.vehicleName, this.vehicleNumber := userId, vehicleName, vehicleNumber;
      this.date, this.time, this.totalAmount := date, time, totalAmount;
      paymentStatus := Some("pending");
      paymentMethod, paymentDate, providerId, providerName := None, None, None, None;
      services := Some([]);
    }

    /** `setServices`: stores the list and points every item's `billing` back at this bill;
        a null list is stored as null and no item is touched. */
    method SetServices(list: Option<seq<ServiceItem>>)
      modifies this, Items(list)
      ensures services == list && Row() == old(Row())
      ensures forall item :: item in Items(list) ==> item.billing == this
      ensures forall item :: item in Items(list) ==>
        item.id == old(item.id) && item.serviceName == old(item.serviceName) &&
        item.providerName == old(item.providerName) && item.price == old(item.price)
    {
      services := list;
      if list.Some? {
        var items := list.value;
        var k := 0;
        while k < |items|
          invariant 0 <= k <= |items|
          invariant services == list && Row() == old(Row())
          invariant forall j :: 0 <= j < k ==> items[j].billing == this
          invariant forall item :: item in Items(list) ==>
            item.id == old(item.id) && item.serviceName == old(item.serviceName) &&
            item.providerName == old(item.providerName) && item.price == old(item.price)
        {
          items[k].billing := this;
          k := k + 1;
        }
      }
    }
  }
}

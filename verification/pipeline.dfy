/** How the billing rule and the timeline rule read the same appointment status. */
module Pipeline {
  import opened Wrappers
  import opened JavaText
  import opened Entities
  import opened Repositories
  import opened BillingService
  import opened ServiceLayer

  /** A string without upper-case letters is its own lower-case form. */
  lemma LowerOfLowerCase(s: string)
    requires forall i :: 0 <= i < |s| ==> !('A' <= s[i] <= 'Z')
    ensures Lower(s) == s
  {
  }

  /** An appointment that `getBillingByAppointment` would bill is shown as completed by the
      service timeline, whose last step is then "Ready for Pickup". */
  lemma {:induction false} BillableIsShownCompleted(appointments: seq<Appointment>, appointmentId: int)
    requires CompletedAppointment(appointments, appointmentId)
    ensures var a := AppointmentById(appointments, appointmentId).value;
      && ServiceStatus(a.status) == Completed
      && SampleUpdates(ServiceStatus(a.status))[4].step == Some("Ready for Pickup")
  {
    LowerOfLowerCase("completed");
  }

  /** The converse fails: the timeline compares the status ignoring case and billing compares
      it exactly, so an appointment marked "Completed" is shown as finished but is never billed. */
  lemma {:induction false} CapitalisedCompletedIsNotBilled(a: Appointment)
    requires a.id.Some? && a.status == Some("Completed")
    ensures ServiceStatus(a.status) == Completed
    ensures !CompletedAppointment([a], a.id.value)
    ensures BillingByAppointment([], 1, [a], [], a.id.value) == Lookup([], 1, [])
  {
    var s := "Completed";
    assert Lower(s)[0] == 'c';
    assert forall i :: 1 <= i < |s| ==> Lower(s)[i] == s[i];
    assert Lower(s) == "completed";
    assert AppointmentById([a], a.id.value) == Some(a) by {
      assert [a][0] == a;
    }
  }
}

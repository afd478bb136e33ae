/**
 * The page's modal routing: two open flags and the selected doctor, driven by the click
 * handlers and the close callbacks, together with the booking form the page mounts once.
 */
module AppShell {
  import opened Wrappers
  import opened ClinicConfig
  import opened Booking
  import TreatmentsListing

  /** The page's state and the booking form instance it renders. */
  class App {
    const branch: Branch
    const booking: BookingForm
    var treatmentsOpen: bool
    var bookingOpen: bool
    var selectedDoctor: Option<Doctor>

    /**
     * Both modals closed and no doctor selected; the booking form is mounted here, with
     * the selected doctor of this moment (none) as its initial doctor.
     */
    constructor (branch: Branch)
      ensures this.branch == branch
      ensures !treatmentsOpen && !bookingOpen && selectedDoctor == None
      ensures fresh(booking)
      ensures booking.doctors == branch.doctors && booking.phones == branch.phones
      ensures booking.doctor == None && booking.selectedTreatment == "" && booking.form == EmptyForm
    {
      this.branch := branch;
      booking := new BookingForm(branch, None);
      treatmentsOpen := false;
      bookingOpen := false;
      selectedDoctor := None;
    }

    /**
     * `handleBookingClick` as the source has it: the selection and the open flag change,
     * but the mounted booking form keeps the doctor it was mounted with.
     */
    method HandleBookingClickAsWritten(doctor: Option<Doctor>)
      modifies this
      ensures selectedDoctor == doctor && bookingOpen && treatmentsOpen == old(treatmentsOpen)
      ensures booking.doctor == old(booking.doctor)
    {
      selectedDoctor := doctor;
      bookingOpen := true;
    }

    /**
     * `handleBookingClick` with the intended effect: the doctor it was called for (or none)
     * is selected, the booking modal opens on that doctor, and the treatments flag is kept.
     */
    method HandleBookingClick(doctor: Option<Doctor>)
      modifies this, booking
      ensures selectedDoctor == doctor && bookingOpen && treatmentsOpen == old(treatmentsOpen)
      ensures booking.doctor == doctor && booking.selectedTreatment == ""
      ensures booking.form == old(booking.form)
    {
      selectedDoctor := doctor;
      bookingOpen := true;
      booking.SyncSelectedDoctor(doctor);
    }

    /** `handleTreatmentsClick`: both branches select the given doctor (or none) and open the modal. */
    method HandleTreatmentsClick(doctor: Option<Doctor>)
      modifies this
      ensures selectedDoctor == doctor && treatmentsOpen && bookingOpen == old(bookingOpen)
    {
      if doctor.Some? {
        selectedDoctor := doctor;
        treatmentsOpen := true;
      } else {
        selectedDoctor := None;
        treatmentsOpen := true;
      }
    }

    /** The treatments modal's close callback: only its own flag changes. */
    method CloseTreatments()
      modifies this
      ensures !treatmentsOpen && bookingOpen == old(bookingOpen) && selectedDoctor == old(selectedDoctor)
    {
      treatmentsOpen := false;
    }

    /** The booking modal's close callback: only its own flag changes. */
    method CloseBooking()
      modifies this
      ensures !bookingOpen && treatmentsOpen == old(treatmentsOpen) && selectedDoctor == old(selectedDoctor)
    {
      bookingOpen := false;
    }

    /** A submit from the booking modal; a successful one closes the modal through its callback. */
    method SubmitBooking(postSucceeds: bool) returns (outcome: SubmitOutcome)
      modifies this, booking
      ensures outcome.Submitted? ==> !bookingOpen
      ensures !outcome.Submitted? ==> bookingOpen == old(bookingOpen)
      ensures treatmentsOpen == old(treatmentsOpen) && selectedDoctor == old(selectedDoctor)
      ensures outcome.Submitted? ==> booking.form == EmptyForm && booking.doctor == old(booking.doctor)
      ensures !outcome.Submitted? ==> booking.form == old(booking.form) && booking.doctor == old(booking.doctor)
    {
      outcome := booking.HandleSubmit(postSucceeds);
      if outcome.Submitted? {
        bookingOpen := false;
      }
    }

    /** What the treatments modal renders for the current flag and selection. */
    function TreatmentsShown(): (r: Option<seq<TreatmentsListing.ListedCategory>>)
      reads this
      ensures r.None? <==> !treatmentsOpen
      ensures treatmentsOpen && selectedDoctor.None? ==>
        |r.value| == TreatmentsListing.CategoryCount(branch.doctors)
    {
      TreatmentsListing.TreatmentsToShow(treatmentsOpen, selectedDoctor, branch)
    }
  }

  /**
   * As written, "Book Now" on a doctor's card opens the booking modal with no doctor
   * chosen, so the form cannot be submitted until the doctor is picked again.
   */
  method BookNowAsWritten(d: Doctor) returns (app: App)
    ensures app.bookingOpen && app.selectedDoctor == Some(d)
    ensures app.booking.doctor == None
    ensures forall f :: !IsFormValid(f, app.booking.doctor)
  {
    app := new App(PragathiNagar);
    app.HandleBookingClickAsWritten(Some(d));
  }

  /** With the intended handler, "Book Now" opens the modal on that doctor. */
  method BookNow(d: Doctor) returns (app: App)
    ensures app.bookingOpen && app.selectedDoctor == Some(d)
    ensures app.booking.doctor == Some(d)
    ensures forall f: FormData :: f.patientName != "" && f.phone != "" ==> IsFormValid(f, app.booking.doctor)
  {
    app := new App(PragathiNagar);
    app.HandleBookingClick(Some(d));
  }
}

/**
 * The inventory view (machine booking and adding a sample), the booking card and the
 * bookings-on-a-date list, and the counters the dashboard and the analytics page compute.
 * The program applies the counters to the static seed lists only; they are stated here over
 * any list.
 *
 * Parsing a local date-time, rendering an instant as ISO-8601 text and reading such text
 * back are the environment's: they are the parameters `parseLocal`, `isoOf` and
 * `instantOf`. Instants are whole milliseconds.
 */
module LabInventory {
  import opened Types
  import opened JsString
  import opened Seqs

  // ---------------------------------------------------------------------------------
  // Booking a machine

  /** The durations the booking form offers, in minutes. */
  const DurationChoices: set<nat> := {30, 60, 90, 120, 240}

  /** The sort key of the bookings: the instant the start time denotes. */
  function ByStart(instantOf: string -> int): MachineBooking -> int {
    (b: MachineBooking) => instantOf(b.startTime)
  }

  /** The end instant of a booking: the start plus the duration in minutes. */
  function EndInstant(start: int, minutes: nat): int {
    start + minutes * 60000
  }

  /** The booking handleBookMachine records for the current user. */
  function NewBooking(now: nat, start: int, minutes: nat, purpose: string, isoOf: int -> string): MachineBooking {
    MachineBooking("B-" + NatToString(now), "U-CURRENT", "Dr. Sarah Chen", isoOf(start), isoOf(EndInstant(start, minutes)),
                   Some(purpose))
  }

  /** A booking made with one of the offered durations ends strictly after it starts, by that many minutes. */
  lemma {:induction false} BookingEndsAfterStart(now: nat, start: int, minutes: nat, purpose: string,
                                                 isoOf: int -> string, instantOf: string -> int)
    requires minutes in DurationChoices
    requires instantOf(isoOf(start)) == start
    requires instantOf(isoOf(EndInstant(start, minutes))) == EndInstant(start, minutes)
    ensures var b := NewBooking(now, start, minutes, purpose, isoOf);
      && instantOf(b.endTime) == instantOf(b.startTime) + minutes * 60000
      && instantOf(b.endTime) >= instantOf(b.startTime) + 30 * 60000
  {
  }

  /** The machine with the new booking added and its bookings re-sorted by start. */
  function WithBooking(m: LabMachine, b: MachineBooking, key: MachineBooking -> int): LabMachine {
    m.(bookings := SortedBy(m.bookings + [b], key))
  }

  /** The machine list after booking: every machine with the target id takes the booking. */
  function Booked(ms: seq<LabMachine>, targetId: string, b: MachineBooking, key: MachineBooking -> int)
    : (r: seq<LabMachine>)
    ensures |r| == |ms|
    ensures forall i :: 0 <= i < |ms| ==> r[i] == if ms[i].id == targetId then WithBooking(ms[i], b, key) else ms[i]
  {
    seq(|ms|, i requires 0 <= i < |ms| => if ms[i].id == targetId then WithBooking(ms[i], b, key) else ms[i])
  }

  ghost predicate UniqueMachineIds(ms: seq<LabMachine>) {
    forall i, j :: 0 <= i < j < |ms| ==> ms[i].id != ms[j].id
  }

  /**
   * With unique ids, booking the machine at `k` changes that machine alone, and only its
   * bookings: the list keeps its length and every other machine.
   */
  lemma {:induction false} BookedChangesOneMachine(ms: seq<LabMachine>, k: nat, b: MachineBooking,
                                                   key: MachineBooking -> int)
    requires k < |ms| && UniqueMachineIds(ms)
    ensures var r := Booked(ms, ms[k].id, b, key);
      && |r| == |ms|
      && r[k] == ms[k].(bookings := r[k].bookings)
      && forall i :: 0 <= i < |ms| && i != k ==> r[i] == ms[i]
  {
    forall i | 0 <= i < |ms| && i != k ensures ms[i].id != ms[k].id {
      if i < k {
        assert ms[i].id != ms[k].id;
      } else {
        assert ms[k].id != ms[i].id;
      }
    }
  }

  /** Booking an id that no machine has changes nothing. */
  lemma {:induction false} BookedUnknownMachine(ms: seq<LabMachine>, targetId: string, b: MachineBooking,
                                                key: MachineBooking -> int)
    requires forall i :: 0 <= i < |ms| ==> ms[i].id != targetId
    ensures Booked(ms, targetId, b, key) == ms
  {
  }

  /**
   * The booked machine's new list is its old list plus the new booking, one longer, in
   * order of start.
   */
  lemma {:induction false} WithBookingBookings(m: LabMachine, b: MachineBooking, key: MachineBooking -> int)
    ensures var bs := WithBooking(m, b, key).bookings;
      && |bs| == |m.bookings| + 1
      && multiset(bs) == multiset(m.bookings) + multiset{b}
      && Ascending(bs, key)
  {
    SortedByPermutesAndOrders(m.bookings + [b], key);
  }

  /** Adding to a list already in order of start inserts the booking and moves nothing else. */
  lemma {:induction false} WithBookingInOrder(m: LabMachine, b: MachineBooking, key: MachineBooking -> int)
    requires Ascending(m.bookings, key)
    ensures WithBooking(m, b, key).bookings == Insert(m.bookings, b, key)
  {
    var s := m.bookings + [b];
    assert s[..|s| - 1] == m.bookings;
    SortedByOfAscending(m.bookings, key);
  }

  method SortByStart(bs: seq<MachineBooking>, key: MachineBooking -> int) returns (r: seq<MachineBooking>)
    ensures r == SortedBy(bs, key)
  {
    var a := new MachineBooking[|bs|](j requires 0 <= j < |bs| => bs[j]);
    assert a[..] == bs;
    SortInPlace(a, key);
    r := a[..];
  }

  /** handleBookMachine's map: copy each machine, giving the target its re-sorted bookings. */
  method BookInto(ms: seq<LabMachine>, targetId: string, b: MachineBooking, key: MachineBooking -> int)
    returns (r: seq<LabMachine>)
    ensures r == Booked(ms, targetId, b, key)
  {
    r := [];
    var i := 0;
    while i < |ms|
      invariant 0 <= i <= |ms|
      invariant |r| == i
      invariant forall j :: 0 <= j < i ==> r[j] == Booked(ms, targetId, b, key)[j]
    {
      var m := ms[i];
      if m.id == targetId {
        var sorted := SortByStart(m.bookings + [b], key);
        m := m.(bookings := sorted);
      }
      r := r + [m];
      i := i + 1;
    }
  }

  // ---------------------------------------------------------------------------------
  // The booking card and the bookings of a day

  /** What a machine card lists under "Upcoming Bookings". */
  datatype BookingList = NoUpcoming | Upcoming(shown: seq<MachineBooking>, more: Option<nat>)

  /** The first two bookings, and "+N more" for the others when there are more than two. */
  function BookingCard(bookings: seq<MachineBooking>): (r: BookingList)
    ensures r.NoUpcoming? <==> bookings == []
    ensures r.Upcoming? ==> r.shown == bookings[..if |bookings| < 2 then |bookings| else 2]
    ensures r.Upcoming? ==> (r.more.Some? <==> |bookings| > 2)
  {
    if bookings == [] then NoUpcoming
    else if |bookings| <= 2 then Upcoming(bookings, None)
    else Upcoming(bookings[..2], Some(|bookings| - 2))
  }

  /** The card accounts for every booking: the ones shown plus the N of "+N more". */
  lemma {:induction false} BookingCardAccountsForAll(bookings: seq<MachineBooking>)
    requires bookings != []
    ensures var r := BookingCard(bookings);
      |r.shown| + (if r.more.Some? then r.more.value else 0) == |bookings|
  {
  }

  /** The "+N more" label is never "+0 more". */
  lemma {:induction false} MoreIsPositive(bookings: seq<MachineBooking>)
    requires BookingCard(bookings).Upcoming? && BookingCard(bookings).more.Some?
    ensures BookingCard(bookings).more.value >= 1 && |BookingCard(bookings).shown| == 2
  {
  }

  function StartsOn(date: string): MachineBooking -> bool {
    (b: MachineBooking) => StartsWith(b.startTime, date)
  }

  /** The bookings the booking dialog lists for a date. */
  function BookingsOn(bookings: seq<MachineBooking>, date: string): seq<MachineBooking> {
    Filter(bookings, StartsOn(date))
  }

  /** A booking is listed for the date exactly when it is one of the machine's and its start text begins with the date. */
  lemma {:induction false} BookingsOnExactly(bookings: seq<MachineBooking>, date: string, b: MachineBooking)
    ensures b in BookingsOn(bookings, date) <==> b in bookings && StartsWith(b.startTime, date)
  {
    if b in bookings && StartsWith(b.startTime, date) {
      var k :| 0 <= k < |bookings| && bookings[k] == b;
      assert StartsOn(date)(bookings[k]);
    }
    if b in BookingsOn(bookings, date) {
      var r := BookingsOn(bookings, date);
      var k :| 0 <= k < |r| && r[k] == b;
      assert StartsOn(date)(r[k]);
    }
  }

  /** The bookings of a day come in order of start when the machine's bookings do. */
  lemma {:induction false} BookingsOnInOrder(bookings: seq<MachineBooking>, date: string, key: MachineBooking -> int)
    requires Ascending(bookings, key)
    ensures Ascending(BookingsOn(bookings, date), key)
  {
    FilterAscending(bookings, StartsOn(date), key);
  }

  // ---------------------------------------------------------------------------------
  // Adding a sample

  /** The add-item form; the record's `type` field is `sampleType` here. */
  datatype NewItemForm = NewItemForm(name: string, sampleType: string, location: string, quantity: string,
                                     expiration: string, barcode: string)

  const EmptyItem := NewItemForm([], "Reagent", [], [], [], [])

  /**
   * The sample handleAddItem records. An empty expiration or barcode is replaced by the
   * one-year-ahead date and the random barcode the environment supplies.
   */
  function NewSample(form: NewItemForm, now: nat, defaultExpiration: string, randomBarcode: string): (s: Sample)
    ensures s.id == "SMP-" + NatToString(now)
    ensures s.name == form.name && s.sampleType == form.sampleType
    ensures s.location == form.location && s.quantity == form.quantity
    ensures form.expiration != [] ==> s.expiration == form.expiration
    ensures form.expiration == [] ==> s.expiration == defaultExpiration
    ensures form.barcode != [] ==> s.barcode == form.barcode
    ensures form.barcode == [] ==> s.barcode == randomBarcode
  {
    Sample("SMP-" + NatToString(now), form.name, form.sampleType, form.location, form.quantity,
           if form.expiration != [] then form.expiration else defaultExpiration,
           if form.barcode != [] then form.barcode else randomBarcode)
  }

  // ---------------------------------------------------------------------------------
  // Counters

  function HasStatus(st: ExperimentStatus): Experiment -> bool {
    (e: Experiment) => e.status == st
  }

  /** How many experiments have the status. */
  function StatusCount(exps: seq<Experiment>, st: ExperimentStatus): (n: nat)
    ensures n <= |exps|
  {
    |Filter(exps, HasStatus(st))|
  }

  /** The dashboard's "Active Experiments": those in progress. */
  function ActiveCount(exps: seq<Experiment>): nat {
    StatusCount(exps, InProgress)
  }

  /** The dashboard's "Pending Approvals": those in review. */
  function PendingCount(exps: seq<Experiment>): nat {
    StatusCount(exps, Review)
  }

  /** The low-stock heuristic: a quantity that starts with "0." or mentions "uL". */
  predicate IsLowStock(s: Sample) {
    StartsWith(s.quantity, "0.") || Contains(s.quantity, "uL")
  }

  function LowStock(): Sample -> bool {
    (s: Sample) => IsLowStock(s)
  }

  function LowStockCount(samples: seq<Sample>): (n: nat)
    ensures n <= |samples|
  {
    |Filter(samples, LowStock())|
  }

  function HasType(t: string): Sample -> bool {
    (s: Sample) => s.sampleType == t
  }

  function TypeCount(samples: seq<Sample>, t: string): (n: nat)
    ensures n <= |samples|
  {
    |Filter(samples, HasType(t))|
  }

  /** The counts of the five statuses add up to the number of experiments. */
  lemma {:induction false} StatusCountsPartition(exps: seq<Experiment>)
    ensures StatusCount(exps, Draft) + StatusCount(exps, InProgress) + StatusCount(exps, Review)
            + StatusCount(exps, Completed) + StatusCount(exps, Archived) == |exps|
  {
    if exps != [] {
      var init := exps[..|exps| - 1];
      var last := exps[|exps| - 1];
      assert exps == init + [last];
      StatusCountsPartition(init);
      FilterAppend(init, last, HasStatus(Draft));
      FilterAppend(init, last, HasStatus(InProgress));
      FilterAppend(init, last, HasStatus(Review));
      FilterAppend(init, last, HasStatus(Completed));
      FilterAppend(init, last, HasStatus(Archived));
    }
  }

  /** The analytics page's four status slices cover every experiment that is not archived. */
  lemma {:induction false} StatusSlicesCoverUnarchived(exps: seq<Experiment>)
    ensures StatusCount(exps, Completed) + StatusCount(exps, InProgress) + StatusCount(exps, Review)
            + StatusCount(exps, Draft) == |exps| - StatusCount(exps, Archived)
  {
    StatusCountsPartition(exps);
  }

  /** The three sample-type bars count each sample at most once. */
  lemma {:induction false} TypeCountsBounded(samples: seq<Sample>)
    ensures TypeCount(samples, "Reagent") + TypeCount(samples, "Plasmid") + TypeCount(samples, "Cell Line")
            <= |samples|
  {
    if samples != [] {
      var init := samples[..|samples| - 1];
      var last := samples[|samples| - 1];
      assert samples == init + [last];
      TypeCountsBounded(init);
      FilterAppend(init, last, HasType("Reagent"));
      FilterAppend(init, last, HasType("Plasmid"));
      FilterAppend(init, last, HasType("Cell Line"));
      assert "Reagent" != "Plasmid" && "Plasmid" != "Cell Line" && "Reagent" != "Cell Line" by {
        assert |"Reagent"| == 7 && |"Plasmid"| == 7 && |"Cell Line"| == 9;
        assert "Reagent"[0] != "Plasmid"[0];
      }
    }
  }

  /** A draft in front of a list of experiments changes neither its active nor its pending count. */
  lemma {:induction false} NewDraftKeepsDashboard(e: Experiment, exps: seq<Experiment>)
    requires e.status == Draft
    ensures ActiveCount([e] + exps) == ActiveCount(exps)
    ensures PendingCount([e] + exps) == PendingCount(exps)
  {
    FilterPrepend(e, exps, HasStatus(InProgress));
    FilterPrepend(e, exps, HasStatus(Review));
  }

  // ---------------------------------------------------------------------------------
  // The component's state

  class InventoryView {
    var activeTab: InventoryTab
    var machines: seq<LabMachine>
    var selectedMachine: Option<LabMachine>
    var samples: seq<Sample>
    var isAddItemModalOpen: bool
    var newItem: NewItemForm
    var bookingDate: string
    var bookingStartTime: string
    var bookingDuration: nat
    var bookingPurpose: string

    /**
     * The duration picker only holds one of the offered durations, and the booking dialog is
     * never open for a machine under maintenance (its "Book Now" button is disabled).
     */
    ghost predicate Valid()
      reads this
    {
      && bookingDuration in DurationChoices
      && (selectedMachine.Some? ==> selectedMachine.value.status != Maintenance)
    }

    /** Opens on the tab the navigation asked for, with today's date in the booking form. */
    constructor(initialTab: InventoryTab, seedMachines: seq<LabMachine>, seedSamples: seq<Sample>, today: string)
      ensures Valid()
      ensures activeTab == initialTab && machines == seedMachines && selectedMachine == None
      ensures samples == seedSamples && !isAddItemModalOpen && newItem == EmptyItem
      ensures bookingDate == today && bookingStartTime == "09:00" && bookingDuration == 60 && bookingPurpose == []
    {
      activeTab := initialTab;
      machines := seedMachines;
      selectedMachine := None;
      samples := seedSamples;
      isAddItemModalOpen := false;
      newItem := EmptyItem;
      bookingDate := today;
      bookingStartTime := "09:00";
      bookingDuration := 60;
      bookingPurpose := [];
    }

    /** "Book Now" on a machine card opens the booking dialog for that machine; it is disabled during maintenance. */
    method OpenBooking(m: LabMachine)
      requires Valid()
      requires m.status != Maintenance
      modifies this
      ensures Valid()
      ensures selectedMachine == Some(m)
      ensures activeTab == old(activeTab) && machines == old(machines) && samples == old(samples)
      ensures isAddItemModalOpen == old(isAddItemModalOpen) && newItem == old(newItem)
      ensures bookingDate == old(bookingDate) && bookingStartTime == old(bookingStartTime)
      ensures bookingDuration == old(bookingDuration) && bookingPurpose == old(bookingPurpose)
    {
      selectedMachine := Some(m);
    }

    method ChooseDuration(minutes: nat)
      requires Valid()
      requires minutes in DurationChoices
      modifies this
      ensures Valid() && bookingDuration == minutes
      ensures activeTab == old(activeTab) && machines == old(machines) && samples == old(samples)
      ensures selectedMachine == old(selectedMachine)
      ensures isAddItemModalOpen == old(isAddItemModalOpen) && newItem == old(newItem)
      ensures bookingDate == old(bookingDate) && bookingStartTime == old(bookingStartTime)
      ensures bookingPurpose == old(bookingPurpose)
    {
      bookingDuration := minutes;
    }

    /** The booking a submission now would record. */
    function PendingBooking(now: nat, parseLocal: string -> int, isoOf: int -> string): MachineBooking
      reads this
    {
      NewBooking(now, parseLocal(bookingDate + ['T'] + bookingStartTime), bookingDuration, bookingPurpose, isoOf)
    }

    /**
     * handleBookMachine: with a machine selected, every machine with its id takes the new
     * booking, re-sorted by start; the dialog closes and the purpose and start time reset.
     * Without a selection nothing changes. The machine booked is not under maintenance and,
     * when the ISO text of the two instants reads back, the booking ends the chosen number
     * of minutes, and at least half an hour, after it starts.
     */
    method BookMachine(now: nat, parseLocal: string -> int, isoOf: int -> string, instantOf: string -> int)
      requires Valid()
      modifies this
      ensures Valid()
      ensures old(selectedMachine).None? ==>
        machines == old(machines) && selectedMachine == None
        && bookingPurpose == old(bookingPurpose) && bookingStartTime == old(bookingStartTime)
      ensures old(selectedMachine).Some? ==>
        && machines == Booked(old(machines), old(selectedMachine).value.id, old(PendingBooking(now, parseLocal, isoOf)),
                              ByStart(instantOf))
        && selectedMachine == None && bookingPurpose == [] && bookingStartTime == "09:00"
      ensures old(selectedMachine).Some? ==> old(selectedMachine).value.status != Maintenance
      ensures old(selectedMachine).Some? ==>
        var start := parseLocal(old(bookingDate) + ['T'] + old(bookingStartTime));
        var b := old(PendingBooking(now, parseLocal, isoOf));
        instantOf(isoOf(start)) == start
        && instantOf(isoOf(EndInstant(start, bookingDuration))) == EndInstant(start, bookingDuration) ==>
          && instantOf(b.endTime) == instantOf(b.startTime) + bookingDuration * 60000
          && instantOf(b.endTime) >= instantOf(b.startTime) + 30 * 60000
      ensures activeTab == old(activeTab) && samples == old(samples)
      ensures isAddItemModalOpen == old(isAddItemModalOpen) && newItem == old(newItem)
      ensures bookingDate == old(bookingDate) && bookingDuration == old(bookingDuration)
    {
      if selectedMachine.None? {
        return;
      }
      var b := PendingBooking(now, parseLocal, isoOf);
      var start := parseLocal(bookingDate + ['T'] + bookingStartTime);
      if instantOf(isoOf(start)) == start
         && instantOf(isoOf(EndInstant(start, bookingDuration))) == EndInstant(start, bookingDuration) {
        BookingEndsAfterStart(now, start, bookingDuration, bookingPurpose, isoOf, instantOf);
      }
      var updated := BookInto(machines, selectedMachine.value.id, b, ByStart(instantOf));
      machines := updated;
      selectedMachine := None;
      bookingPurpose := [];
      bookingStartTime := "09:00";
    }

    /** handleAddItem: the new sample goes first, the dialog closes and the form resets. */
    method AddItem(now: nat, defaultExpiration: string, randomBarcode: string)
      requires Valid()
      modifies this
      ensures Valid()
      ensures samples == [NewSample(old(newItem), now, defaultExpiration, randomBarcode)] + old(samples)
      ensures !isAddItemModalOpen && newItem == EmptyItem
      ensures activeTab == old(activeTab) && machines == old(machines) && selectedMachine == old(selectedMachine)
      ensures bookingDate == old(bookingDate) && bookingStartTime == old(bookingStartTime)
      ensures bookingDuration == old(bookingDuration) && bookingPurpose == old(bookingPurpose)
    {
      samples := [NewSample(newItem, now, defaultExpiration, randomBarcode)] + samples;
      isAddItemModalOpen := false;
      newItem := EmptyItem;
    }
  }
}

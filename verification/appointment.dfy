/**
 * The appointment tools (backend/tools/appointment.py): availability of test-drive
 * slots and scheduling. The pseudo-random generator, the clock and date parsing are
 * library internals; they reach the model as oracles that keep the library's promises.
 */
module Appointment {
  import opened Wrappers
  import opened Json
  import Dealership

  // ---------------------------------------------------------------------------
  // Slots
  // ---------------------------------------------------------------------------

  /** The eighteen half-hour slots from 09:00 to 17:30, in table order. */
  const AllPossibleSlots: seq<string> := [
    "09:00", "09:30", "10:00", "10:30", "11:00", "11:30",
    "12:00", "12:30", "13:00", "13:30", "14:00", "14:30",
    "15:00", "15:30", "16:00", "16:30", "17:00", "17:30"
  ]

  const SlotCount := 18

  /** Python's `<` on strings: lexicographic by code point, a proper prefix being smaller. */
  predicate StrLess(a: string, b: string)
  {
    if |b| == 0 then false
    else if |a| == 0 then true
    else if a[0] != b[0] then a[0] < b[0]
    else StrLess(a[1..], b[1..])
  }

  /** Two strings that agree before position i and differ there are ordered by that position. */
  lemma {:induction false} StrLessAt(a: string, b: string, i: nat)
    requires i < |a| && i < |b| && a[..i] == b[..i] && a[i] < b[i]
    ensures StrLess(a, b)
  {
    if i > 0 {
      assert a[0] == a[..i][0] == b[..i][0] == b[0];
      assert a[1..][..i - 1] == a[..i][1..] == b[..i][1..] == b[1..][..i - 1];
      StrLessAt(a[1..], b[1..], i - 1);
    }
  }

  lemma {:induction false} StrLessTransitive(a: string, b: string, c: string)
    requires StrLess(a, b) && StrLess(b, c)
    ensures StrLess(a, c)
  {
    if |a| > 0 && a[0] == b[0] && b[0] == c[0] {
      StrLessTransitive(a[1..], b[1..], c[1..]);
    }
  }

  /** Consecutive table entries are in ascending string order. */
  lemma SlotsStepUp(k: nat)
    requires k + 1 < SlotCount
    ensures StrLess(AllPossibleSlots[k], AllPossibleSlots[k + 1])
  {
    var a, b := AllPossibleSlots[k], AllPossibleSlots[k + 1];
    if k % 2 == 0 {
      // "hh:00" < "hh:30": they first differ at the minutes' tens digit
      assert a[..3] == b[..3];
      StrLessAt(a, b, 3);
    } else if k == 1 {
      StrLessAt(a, b, 0);
    } else {
      // "h1:30" < "h2:00" within the same tens of hours
      assert a[..1] == b[..1];
      StrLessAt(a, b, 1);
    }
  }

  /** The whole table is strictly ascending, so table order is string order. */
  lemma {:induction false} SlotsAscending(i: nat, j: nat)
    requires i < j < SlotCount
    ensures StrLess(AllPossibleSlots[i], AllPossibleSlots[j])
  {
    if j == i + 1 {
      SlotsStepUp(i);
    } else {
      SlotsAscending(i, j - 1);
      SlotsStepUp(j - 1);
      StrLessTransitive(AllPossibleSlots[i], AllPossibleSlots[j - 1], AllPossibleSlots[j]);
    }
  }

  // ---------------------------------------------------------------------------
  // The seed and the generator
  // ---------------------------------------------------------------------------

  /** The sum of the code points of a string. */
  function CodePointSum(s: string): nat
  {
    if s == [] then 0 else CodePointSum(s[..|s| - 1]) + s[|s| - 1] as nat
  }

  lemma {:induction false} CodePointSumConcat(a: string, b: string)
    ensures CodePointSum(a + b) == CodePointSum(a) + CodePointSum(b)
    decreases |b|
  {
    if b != [] {
      assert (a + b)[..|a + b| - 1] == a + b[..|b| - 1];
      CodePointSumConcat(a, b[..|b| - 1]);
    } else {
      assert a + b == a;
    }
  }

  /** The generator's seed: the code points of the id followed by the date, summed. */
  function Seed(dealershipId: string, date: string): nat
  {
    CodePointSum(dealershipId + date)
  }

  /** The seed is the id's code-point sum plus the date's; it does not see where one ends. */
  lemma SeedSplits(dealershipId: string, date: string)
    ensures Seed(dealershipId, date) == CodePointSum(dealershipId) + CodePointSum(date)
  {
    CodePointSumConcat(dealershipId, date);
  }

  predicate Distinct(s: seq<nat>)
  {
    forall i, j :: 0 <= i < j < |s| ==> s[i] != s[j]
  }

  /**
   * What `random.randint(5, 10)` followed by `random.sample(all_possible_slots, n)` can
   * give, written as table positions: between 5 and 10 distinct positions.
   */
  predicate IsSample(s: seq<nat>)
  {
    && 5 <= |s| <= 10
    && (forall i :: 0 <= i < |s| ==> s[i] < SlotCount)
    && Distinct(s)
  }

  type Sample = s: seq<nat> | IsSample(s) witness [0, 1, 2, 3, 4]

  // ---------------------------------------------------------------------------
  // The reference result
  // ---------------------------------------------------------------------------

  /** The drawn positions from k on, in table order. */
  function DrawnPositions(picks: seq<nat>, k: nat): (r: seq<nat>)
    ensures forall i :: 0 <= i < |r| ==> k <= r[i] < SlotCount
    ensures forall i, j :: 0 <= i < j < |r| ==> r[i] < r[j]
    decreases SlotCount - k
  {
    if k >= SlotCount then []
    else if k in picks then [k] + DrawnPositions(picks, k + 1)
    else DrawnPositions(picks, k + 1)
  }

  /** The slots at the given table positions. */
  function SlotsAt(positions: seq<nat>): (r: seq<string>)
    requires forall i :: 0 <= i < |positions| ==> positions[i] < SlotCount
    ensures |r| == |positions|
    ensures forall i :: 0 <= i < |r| ==> r[i] == AllPossibleSlots[positions[i]]
  {
    seq(|positions|, i requires 0 <= i < |positions| => AllPossibleSlots[positions[i]])
  }

  /** The slots the oracle draws for these inputs, in table order. */
  function Availability(dealershipId: string, date: string, draw: nat -> Sample): seq<string>
  {
    SlotsAt(DrawnPositions(draw(Seed(dealershipId, date)), 0))
  }

  /**
   * The availability answer is strictly ascending in string order (so it has no
   * duplicates) and every entry is one of the eighteen table slots.
   */
  lemma AvailabilitySortedSubset(dealershipId: string, date: string, draw: nat -> Sample)
    ensures var r := Availability(dealershipId, date, draw);
            && (forall i, j :: 0 <= i < j < |r| ==> StrLess(r[i], r[j]))
            && (forall i :: 0 <= i < |r| ==> r[i] in AllPossibleSlots)
  {
    var ps := DrawnPositions(draw(Seed(dealershipId, date)), 0);
    var r := SlotsAt(ps);
    forall i, j | 0 <= i < j < |r| ensures StrLess(r[i], r[j]) {
      SlotsAscending(ps[i], ps[j]);
    }
  }

  // ---------------------------------------------------------------------------
  // The imperative check: sample, sort in place, answer
  // ---------------------------------------------------------------------------

  lemma {:induction false} DistinctAtMostOnce(s: seq<nat>)
    requires Distinct(s)
    ensures forall x :: multiset(s)[x] <= 1
    decreases |s|
  {
    if s != [] {
      var init, last := s[..|s| - 1], s[|s| - 1];
      assert s == init + [last];
      DistinctAtMostOnce(init);
      assert last !in init;
    }
  }

  lemma AtMostOnceDistinct(t: seq<nat>)
    requires forall x :: multiset(t)[x] <= 1
    ensures Distinct(t)
  {
    forall i, j | 0 <= i < j < |t| ensures t[i] != t[j] {
      assert t == t[..j] + t[j..];
      assert t[..j][i] == t[i];
      assert t[j..][0] == t[j];
      assert multiset(t)[t[i]] == multiset(t[..j])[t[i]] + multiset(t[j..])[t[i]];
      assert multiset(t[j..])[t[i]] >= (if t[j] == t[i] then 1 else 0);
    }
  }

  /** Exchanges the neighbours at j - 1 and j. */
  method SwapDown(a: array<nat>, j: nat)
    requires 0 < j < a.Length
    modifies a
    ensures a[..] == old(a[..])[j - 1 := old(a[j])][j := old(a[j - 1])]
    ensures multiset(a[..]) == multiset(old(a[..]))
  {
    a[j - 1], a[j] := a[j], a[j - 1];
  }

  /** Insertion sort, in place, by table position. */
  method SortInPlace(a: array<nat>)
    modifies a
    ensures forall p, q :: 0 <= p < q < a.Length ==> a[p] <= a[q]
    ensures multiset(a[..]) == multiset(old(a[..]))
  {
    var i := 0;
    while i < a.Length
      invariant 0 <= i <= a.Length
      invariant forall p, q :: 0 <= p < q < i ==> a[p] <= a[q]
      invariant multiset(a[..]) == multiset(old(a[..]))
    {
      var j := i;
      while j > 0 && a[j - 1] > a[j]
        invariant 0 <= j <= i
        invariant forall p, q :: 0 <= p < q <= i && p != j && q != j ==> a[p] <= a[q]
        invariant forall q :: j < q <= i ==> a[j] <= a[q]
        invariant multiset(a[..]) == multiset(old(a[..]))
      {
        SwapDown(a, j);
        j := j - 1;
      }
      i := i + 1;
    }
  }

  /** Positions that were not drawn contribute nothing: the reference list skips them. */
  lemma {:induction false} SkipUndrawn(picks: seq<nat>, k: nat, m: nat)
    requires k <= m <= SlotCount
    requires forall x :: k <= x < m ==> x !in picks
    ensures DrawnPositions(picks, k) == DrawnPositions(picks, m)
    decreases m - k
  {
    if k < m {
      SkipUndrawn(picks, k + 1, m);
    }
  }

  /** A strictly ascending list that holds exactly the drawn positions from k on is their reference list. */
  lemma {:induction false} AscendingIsDrawn(s: seq<nat>, picks: seq<nat>, k: nat)
    requires k <= SlotCount
    requires forall i, j :: 0 <= i < j < |s| ==> s[i] < s[j]
    requires forall i :: 0 <= i < |s| ==> k <= s[i] < SlotCount
    requires forall x :: k <= x < SlotCount ==> (x in picks <==> x in s)
    ensures DrawnPositions(picks, k) == s
    decreases |s|
  {
    if s == [] {
      SkipUndrawn(picks, k, SlotCount);
    } else {
      var h := s[0];
      SkipUndrawn(picks, k, h);
      assert DrawnPositions(picks, h) == [h] + DrawnPositions(picks, h + 1);
      AscendingIsDrawn(s[1..], picks, h + 1);
      assert s == [h] + s[1..];
    }
  }

  /**
   * `check_appointment_availability`: seed the generator with the inputs' code-point
   * sum, draw the slots, sort them in place. The answer is the reference list for the
   * oracle's draw, so identical inputs give identical answers, and it holds 5 to 10 slots.
   */
  method CheckAvailability(dealershipId: string, date: string, draw: nat -> Sample)
    returns (slots: seq<string>)
    ensures slots == Availability(dealershipId, date, draw)
    ensures 5 <= |slots| <= 10
  {
    var seed := Seed(dealershipId, date);
    var picks := draw(seed);
    var available := new nat[|picks|](i requires 0 <= i < |picks| => picks[i]);
    assert available[..] == picks;
    SortInPlace(available);
    var sorted := available[..];
    DistinctAtMostOnce(picks);
    assert forall x :: multiset(sorted)[x] <= 1;
    AtMostOnceDistinct(sorted);
    forall i | 0 <= i < |sorted| ensures sorted[i] in picks && sorted[i] < SlotCount {
      assert sorted[i] in multiset(sorted);
    }
    forall x | x in picks ensures x in sorted {
      assert x in multiset(picks);
    }
    AscendingIsDrawn(sorted, picks, 0);
    slots := SlotsAt(sorted);
  }

  // ---------------------------------------------------------------------------
  // Scheduling
  // ---------------------------------------------------------------------------

  /**
   * The library calls `schedule_appointment` relies on: `strptime` then `strftime` of
   * the date and of the time (None when `strptime` raises), and the clock's current
   * time in whole seconds.
   */
  datatype Calendar = Calendar(
    formatDate: string -> Option<string>,
    formatTime: string -> Option<string>,
    now: int)

  const FormatError := "Invalid date or time format. Please use YYYY-MM-DD for date and HH:MM for time."
  const DefaultDealershipName := "SuperCar Dealership"
  const Instructions := "Please arrive 15 minutes before your appointment and bring your driver's license."
  const CancellationPolicy := "You can reschedule or cancel your appointment up to 24 hours before the scheduled time."

  /** The scheduler's own copy of the dealership names. */
  const DealershipNames: map<string, string> := map[
    "NYC001" := "SuperCar Manhattan",
    "LA002" := "SuperCar Beverly Hills",
    "CHI003" := "SuperCar Chicago",
    "HOU004" := "SuperCar Houston",
    "MIA005" := "SuperCar Miami"
  ]

  /** The scheduler's name table agrees with the address tool's table, key for key. */
  lemma NameTablesAgree()
    ensures DealershipNames.Keys == Dealership.Dealerships.Keys
    ensures forall id :: id in DealershipNames ==> DealershipNames[id] == Dealership.Dealerships[id].name
  {
  }

  /** The result of scheduling: the error dictionary, or the confirmation. */
  datatype Booking =
    | Rejected(error: string)
    | Confirmed(confirmationCode: string, userId: string, dealershipId: string,
                dealershipName: string, date: string, time: string, carModel: string)

  function DigitChar(d: nat): char
    requires d < 10
  {
    "0123456789"[d]
  }

  /** Python's `str` of a non-negative int. */
  function NatToString(n: nat): (s: string)
    ensures |s| >= 1
    ensures forall i :: 0 <= i < |s| ==> '0' <= s[i] <= '9'
  {
    if n < 10 then [DigitChar(n)] else NatToString(n / 10) + [DigitChar(n % 10)]
  }

  /** The number a string of decimal digits denotes. */
  function DecimalValue(s: string): nat
    requires forall i :: 0 <= i < |s| ==> '0' <= s[i] <= '9'
  {
    if s == [] then 0 else 10 * DecimalValue(s[..|s| - 1]) + (s[|s| - 1] as nat - '0' as nat)
  }

  /** Rendering a number in decimal and reading it back gives the number. */
  lemma {:induction false} DecimalRoundTrip(n: nat)
    ensures DecimalValue(NatToString(n)) == n
  {
    var s := NatToString(n);
    if n < 10 {
      DigitValue(n);
      assert s == [DigitChar(n)];
      assert s[..0] == [];
    } else {
      var front := NatToString(n / 10);
      assert s == front + [DigitChar(n % 10)];
      DecimalRoundTrip(n / 10);
      DigitValue(n % 10);
      assert s[..|s| - 1] == front;
      assert DecimalValue(s) == 10 * DecimalValue(front) + n % 10;
    }
  }

  /** A digit character stands for its own value. */
  lemma DigitValue(d: nat)
    requires d < 10
    ensures DigitChar(d) as nat - '0' as nat == d
  {
  }

  /** Numbers below 10000 take at most four digits. */
  lemma {:induction false} DecimalWidth(n: nat)
    ensures n < 10 ==> |NatToString(n)| == 1
    ensures n < 100 ==> |NatToString(n)| <= 2
    ensures n < 1000 ==> |NatToString(n)| <= 3
    ensures n < 10000 ==> |NatToString(n)| <= 4
  {
    if n >= 10 { DecimalWidth(n / 10); }
  }

  /** `user_id[:4]`: at most the first four characters. */
  function Prefix4(s: string): (r: string)
    ensures |r| == if |s| < 4 then |s| else 4
    ensures r == s[..|r|]
  {
    if |s| < 4 then s else s[..4]
  }

  /** `SC-{dealership_id}-{user_id[:4]}-{timestamp % 10000}`. */
  function ConfirmationCode(userId: string, dealershipId: string, now: int): string
  {
    "SC-" + dealershipId + "-" + Prefix4(userId) + "-" + NatToString((now % 10000) as nat)
  }

  /**
   * The code starts `SC-`, the dealership id, `-`, at most four characters of the user
   * id and `-`, and ends with one to four decimal digits denoting a number below 10000.
   */
  lemma ConfirmationCodeShape(userId: string, dealershipId: string, now: int)
    ensures var code := ConfirmationCode(userId, dealershipId, now);
            var head := "SC-" + dealershipId + "-" + Prefix4(userId) + "-";
            var digits := code[|head|..];
            && code[..|head|] == head
            && 1 <= |digits| <= 4
            && (forall i :: 0 <= i < |digits| ==> '0' <= digits[i] <= '9')
            && DecimalValue(digits) < 10000
  {
    var n := (now % 10000) as nat;
    var head := "SC-" + dealershipId + "-" + Prefix4(userId) + "-";
    var code := ConfirmationCode(userId, dealershipId, now);
    assert code == head + NatToString(n);
    assert code[|head|..] == NatToString(n);
    DecimalWidth(n);
    DecimalRoundTrip(n);
  }

  /**
   * `schedule_appointment`. A date or time the calendar cannot parse gives the error
   * dictionary; otherwise the confirmation echoes the user id, dealership id and car
   * model and names the dealership from the table, or generically when the id is unknown.
   */
  function ScheduleAppointment(userId: string, dealershipId: string, date: string, time: string,
                               carModel: string, cal: Calendar): (r: Booking)
    ensures r.Rejected? <==> cal.formatDate(date).None? || cal.formatTime(time).None?
    ensures r.Rejected? ==> r.error == FormatError
    ensures r.Confirmed? ==>
              && r.userId == userId && r.dealershipId == dealershipId && r.carModel == carModel
              && r.date == cal.formatDate(date).value && r.time == cal.formatTime(time).value
              && r.confirmationCode == ConfirmationCode(userId, dealershipId, cal.now)
    ensures r.Confirmed? && dealershipId in DealershipNames ==> r.dealershipName == DealershipNames[dealershipId]
    ensures r.Confirmed? && dealershipId !in DealershipNames ==> r.dealershipName == DefaultDealershipName
  {
    match (cal.formatDate(date), cal.formatTime(time))
    case (Some(d), Some(t)) =>
      var name := if dealershipId in DealershipNames then DealershipNames[dealershipId] else DefaultDealershipName;
      Confirmed(ConfirmationCode(userId, dealershipId, cal.now), userId, dealershipId, name, d, t, carModel)
    case _ => Rejected(FormatError)
  }

  /** The dictionary the tool returns, members in the source's order. */
  function BookingJson(b: Booking): JValue
  {
    match b
    case Rejected(e) => JObj([("error", JStr(e))])
    case Confirmed(code, user, id, name, d, t, model) =>
      JObj([
        ("confirmation_code", JStr(code)),
        ("user_id", JStr(user)),
        ("dealership", JObj([("id", JStr(id)), ("name", JStr(name))])),
        ("appointment", JObj([("date", JStr(d)), ("time", JStr(t)), ("car_model", JStr(model))])),
        ("instructions", JStr(Instructions)),
        ("cancellation_policy", JStr(CancellationPolicy))
      ])
  }

  /** The error dictionary has the single key `error`; a confirmation never has that key. */
  lemma BookingKeys(b: Booking)
    ensures b.Rejected? ==> Keys(BookingJson(b).members) == ["error"]
    ensures b.Confirmed? ==> "error" !in Keys(BookingJson(b).members)
  {
  }
}

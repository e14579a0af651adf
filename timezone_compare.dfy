/** The time-zone comparison page: the hour arithmetic between two zones whose UTC offsets are
    given in whole minutes, the 24-hour work timeline of zone A with zone B's working hours
    converted onto it, the zone labels, the difference text and the swap of the two zones. */
module TimeZoneCompare {

  /* ---------------- JavaScript arithmetic ---------------- */

  lemma {:induction false} MulAtLeast(b: int, k: int)
    requires b > 0 && k >= 1
    ensures b * k >= b
    decreases k
  {
    if k > 1 {
      MulAtLeast(b, k - 1);
      assert b * k == b * (k - 1) + b;
    }
  }

  /** Euclidean division is unique: a remainder in 0..b-1 of any decomposition is a % b. */
  lemma ModUnique(a: int, b: int, q: int, m: int)
    requires b > 0 && 0 <= m < b && a == b * q + m
    ensures a % b == m
  {
    var q0, m0 := a / b, a % b;
    assert a == b * q0 + m0;
    if q > q0 {
      MulAtLeast(b, q - q0);
    } else if q < q0 {
      MulAtLeast(b, q0 - q);
    }
  }

  /** The remainder of JavaScript's `%` on integers: it truncates toward zero, so it takes the
      sign of the dividend. */
  function JsRem(a: int, b: int): (r: int)
    requires b > 0
    ensures -b < r < b
    ensures a >= 0 ==> r == a % b
    ensures a < 0 ==> r <= 0
    ensures (a - r) % b == 0
  {
    if a >= 0 then
      ModUnique(a - a % b, b, a / b, 0);
      a % b
    else
      ModUnique(a + (-a) % b, b, -((-a) / b), 0);
      -((-a) % b)
  }

  /** Math.round: the nearest integer, halves rounded toward positive infinity. */
  function JsRound(x: real): (n: int)
    ensures x - 0.5 < n as real <= x + 0.5
  {
    (x + 0.5).Floor
  }

  /** For a whole number of minutes d, rounding d / 60 hours is floor((d + 30) / 60). */
  lemma RoundedHours(d: int)
    ensures JsRound(d as real / 60.0) == (d + 30) / 60
  {
    var q := (d + 30) / 60;
    var m := (d + 30) % 60;
    assert d + 30 == 60 * q + m && 0 <= m < 60;
    assert d as real / 60.0 + 0.5 == q as real + m as real / 60.0;
    assert q as real <= d as real / 60.0 + 0.5 < q as real + 1.0;
  }

  /* ---------------- hours ---------------- */

  /** Whole days do not change the hour of the day. */
  lemma AddDays(x: int, k: int)
    ensures (x + 24 * k) % 24 == x % 24
  {
  }

  /** hourInRange, the end excluded. */
  predicate HourInRange(hour: int, start: int, end: int)
  {
    hour >= start && hour < end
  }

  /** The hour shift from a zone at fromOff minutes to one at toOff minutes. */
  function HourShift(fromOff: int, toOff: int): (s: int)
    ensures s == (toOff - fromOff + 30) / 60
  {
    RoundedHours(toOff - fromOff);
    JsRound((toOff - fromOff) as real / 60.0)
  }

  /** convertHourBetweenTZ with the two offsets it reads: the hour shifted, then brought into
      0..23 by the truncating remainder taken twice. */
  function ConvertHour(hour: int, fromOff: int, toOff: int): (r: int)
    ensures 0 <= r < 24
    ensures r == (hour + HourShift(fromOff, toOff)) % 24
  {
    var converted := hour + HourShift(fromOff, toOff);
    var once := JsRem(converted, 24);
    assert (once + 24) % 24 == converted % 24 by {
      if converted < 0 {
        var q := (-converted) / 24;
        assert -converted == 24 * q + (-converted) % 24;
        assert converted == (once + 24) + 24 * (-q - 1);
        AddDays(once + 24, -q - 1);
      } else {
        AddDays(once, 1);
      }
    }
    JsRem(once + 24, 24)
  }

  lemma WholeHourShift(offA: int, offB: int, k: int)
    requires offB - offA == 60 * k
    ensures HourShift(offA, offB) == k && HourShift(offB, offA) == -k
  {
    assert (60 * k + 30) / 60 == k;
    assert (-60 * k + 30) / 60 == -k;
  }

  lemma ShiftBack(hour: int, k: int)
    requires 0 <= hour < 24
    ensures ((hour + k) % 24 - k) % 24 == hour
  {
    var q := (hour + k) / 24;
    assert hour + k == 24 * q + (hour + k) % 24;
    AddDays(hour, -q);
  }

  /** Converting there and back returns the hour, for offsets a whole number of hours apart. */
  lemma ConvertRoundTrip(hour: int, offA: int, offB: int)
    requires 0 <= hour < 24 && (offB - offA) % 60 == 0
    ensures ConvertHour(ConvertHour(hour, offA, offB), offB, offA) == hour
  {
    var k := (offB - offA) / 60;
    WholeHourShift(offA, offB, k);
    ShiftBack(hour, k);
  }

  /** The default pair, India (+330 minutes) and New York (-240), is half an hour off a whole-hour
      difference: Math.round(-9.5) is -9 but Math.round(9.5) is 10, so converting there and back
      moves the hour on by one. */
  lemma DefaultPairRoundTrip(hour: int)
    requires 0 <= hour < 24
    ensures HourShift(330, -240) == -9 && HourShift(-240, 330) == 10
    ensures ConvertHour(ConvertHour(hour, 330, -240), -240, 330) == (hour + 1) % 24
  {
    var q := (hour - 9) / 24;
    assert hour - 9 == 24 * q + (hour - 9) % 24;
    AddDays(hour + 1, -q);
  }

  /* ---------------- the timeline ---------------- */

  /** Whether hour h of A's day lies in B's working hours converted onto A; a range whose start
      is not before its end wraps around midnight. */
  predicate BWork(h: int, bStart: int, bEnd: int)
  {
    if bStart < bEnd then HourInRange(h, bStart, bEnd)
    else HourInRange(h, bStart, 24) || HourInRange(h, 0, bEnd)
  }

  /** Equal converted endpoints mark the whole day as B's working time. */
  lemma EqualEndpointsMarkAll(h: int, b: int)
    requires 0 <= h < 24 && 0 <= b < 24
    ensures BWork(h, b, b)
  {
  }

  /** A timeline cell: o (both work), a (only A), b (only B), or no class. */
  datatype Cell = Overlap | OnlyA | OnlyB | Neither

  /** The class of a cell, from whether A and B work that hour. */
  function Label(aWork: bool, bWork: bool): (c: Cell)
    ensures c == Overlap <==> aWork && bWork
    ensures c == OnlyA <==> aWork && !bWork
    ensures c == OnlyB <==> !aWork && bWork
    ensures c == Neither <==> !aWork && !bWork
  {
    if aWork && bWork then Overlap
    else if aWork then OnlyA
    else if bWork then OnlyB
    else Neither
  }

  /** The number of hours below n in B's working range. */
  function BCount(n: nat, bStart: int, bEnd: int): nat
  {
    if n == 0 then 0 else BCount(n - 1, bStart, bEnd) + (if BWork(n - 1, bStart, bEnd) then 1 else 0)
  }

  /** The number of hours below n in [s, e), for 0 <= s <= e. */
  function Clip(n: nat, s: nat, e: nat): nat
    requires s <= e
  {
    if n <= s then 0 else if n <= e then n - s else e - s
  }

  lemma {:induction false} BCountClosed(n: nat, bStart: nat, bEnd: nat)
    requires bStart < 24 && bEnd < 24 && n <= 24
    ensures BCount(n, bStart, bEnd) ==
            if bStart < bEnd then Clip(n, bStart, bEnd) else Clip(n, bStart, 24) + Clip(n, 0, bEnd)
  {
    if n > 0 {
      BCountClosed(n - 1, bStart, bEnd);
    }
  }

  /** B works end - start hours of A's day, counted around midnight when the range wraps; 24
      when the ends are equal. */
  lemma BWorkHours(bStart: nat, bEnd: nat)
    requires bStart < 24 && bEnd < 24
    ensures BCount(24, bStart, bEnd) == if bStart < bEnd then bEnd - bStart else 24 - bStart + bEnd
  {
    BCountClosed(24, bStart, bEnd);
  }

  /** The cell of hour h for A working startHour..endHour at offA minutes and B, working the same
      local hours at offB minutes. */
  function TimelineCell(h: int, startHour: int, endHour: int, offA: int, offB: int): Cell
  {
    Label(HourInRange(h, startHour, endHour),
          BWork(h, ConvertHour(startHour, offB, offA), ConvertHour(endHour, offB, offA)))
  }

  /** When both zones are the same distance from UTC, an hour with both working is an overlap
      exactly when it lies in the working hours. */
  lemma SameZoneTimeline(h: int, startHour: int, endHour: int, off: int)
    requires 0 <= h < 24 && 0 <= startHour < endHour < 24
    ensures TimelineCell(h, startHour, endHour, off, off) ==
            if HourInRange(h, startHour, endHour) then Overlap else Neither
  {
    assert HourShift(off, off) == 0;
    assert ConvertHour(startHour, off, off) == startHour;
    assert ConvertHour(endHour, off, off) == endHour;
  }

  /** buildTimeline: one cell per hour of A's day, appended in order. */
  method BuildTimeline(startHour: int, endHour: int, offA: int, offB: int) returns (cells: seq<Cell>)
    ensures |cells| == 24
    ensures forall h :: 0 <= h < 24 ==> cells[h] == TimelineCell(h, startHour, endHour, offA, offB)
  {
    cells := [];
    var h := 0;
    while h < 24
      invariant 0 <= h <= 24 && |cells| == h
      invariant forall k :: 0 <= k < h ==> cells[k] == TimelineCell(k, startHour, endHour, offA, offB)
    {
      var aWork := HourInRange(h, startHour, endHour);
      var bStartOnA := ConvertHour(startHour, offB, offA);
      var bEndOnA := ConvertHour(endHour, offB, offA);
      var bWork := false;
      if bStartOnA < bEndOnA {
        bWork := HourInRange(h, bStartOnA, bEndOnA);
      } else {
        bWork := HourInRange(h, bStartOnA, 24) || HourInRange(h, 0, bEndOnA);
      }
      var cell := Neither;
      if aWork && bWork {
        cell := Overlap;
      } else if aWork {
        cell := OnlyA;
      } else if bWork {
        cell := OnlyB;
      }
      cells := cells + [cell];
      h := h + 1;
    }
  }

  /* ---------------- zones and labels ---------------- */

  datatype Zone = Zone(name: string, tz: string)

  /** ZONES. */
  const Zones: seq<Zone> := [
    Zone("India (IST) - Asia/Kolkata", "Asia/Kolkata"),
    Zone("Dubai (GST) - Asia/Dubai", "Asia/Dubai"),
    Zone("London (GMT) - Europe/London", "Europe/London"),
    Zone("Paris (CET) - Europe/Paris", "Europe/Paris"),
    Zone("New York (ET) - America/New_York", "America/New_York"),
    Zone("Chicago (CT) - America/Chicago", "America/Chicago"),
    Zone("Los Angeles (PT) - America/Los_Angeles", "America/Los_Angeles"),
    Zone("Tokyo (JST) - Asia/Tokyo", "Asia/Tokyo"),
    Zone("Singapore (SGT) - Asia/Singapore", "Asia/Singapore"),
    Zone("Sydney (AEST) - Australia/Sydney", "Australia/Sydney")
  ]

  /** Whether the separator " - " starts at position i of s. */
  predicate SeparatorAt(s: string, i: int)
  {
    0 <= i && i + 3 <= |s| && s[i] == ' ' && s[i + 1] == '-' && s[i + 2] == ' '
  }

  /** The first piece of s.split(" - "): the text before the first separator, or all of s. */
  function BeforeSeparator(s: string): (r: string)
    ensures |r| <= |s| && r == s[..|r|]
    ensures forall i :: 0 <= i < |r| ==> !SeparatorAt(s, i)
    ensures |r| < |s| ==> SeparatorAt(s, |r|)
    decreases |s|
  {
    if |s| < 3 then s
    else if SeparatorAt(s, 0) then ""
    else
      var rest := BeforeSeparator(s[1..]);
      assert forall i :: 1 <= i < |s| ==> (SeparatorAt(s, i) <==> SeparatorAt(s[1..], i - 1));
      [s[0]] + rest
  }

  /** The piece before the first separator, when that separator is at k. */
  lemma BeforeFirstSeparator(s: string, k: int)
    requires SeparatorAt(s, k) && forall i :: 0 <= i < k ==> !SeparatorAt(s, i)
    ensures BeforeSeparator(s) == s[..k]
  {
  }

  /** The position of the first zone with this identifier, or |zones| when there is none. */
  function FindZone(zones: seq<Zone>, tz: string): (i: nat)
    ensures i <= |zones|
    ensures i < |zones| ==> zones[i].tz == tz
    ensures forall k :: 0 <= k < i ==> zones[k].tz != tz
  {
    if zones == [] then 0
    else if zones[0].tz == tz then 0
    else 1 + FindZone(zones[1..], tz)
  }

  /** The label of tz in a zone table: the name's part before " - " for the first zone with that
      identifier, the identifier itself when no zone has it. */
  function ZoneLabel(zones: seq<Zone>, tz: string): (l: string)
    ensures (forall k :: 0 <= k < |zones| ==> zones[k].tz != tz) ==> l == tz
    ensures forall i :: 0 <= i < |zones| && zones[i].tz == tz && (forall k :: 0 <= k < i ==> zones[k].tz != tz) ==>
              l == BeforeSeparator(zones[i].name)
  {
    var i := FindZone(zones, tz);
    if i < |zones| then BeforeSeparator(zones[i].name) else tz
  }

  /** getZoneLabel, over ZONES. */
  function GetZoneLabel(tz: string): string
  {
    ZoneLabel(Zones, tz)
  }

  /** The label of the default zone A. */
  lemma IndiaLabel()
    ensures GetZoneLabel("Asia/Kolkata") == "India (IST)"
  {
    var india := "India (IST) - Asia/Kolkata";
    assert india[..11] == "India (IST)";
    assert Zones[0] == Zone(india, "Asia/Kolkata");
    assert forall i :: 0 <= i < 11 ==> !SeparatorAt(india, i);
    BeforeFirstSeparator(india, 11);
  }

  lemma NewYorkName()
    ensures BeforeSeparator("New York (ET) - America/New_York") == "New York (ET)"
  {
    var york := "New York (ET) - America/New_York";
    assert york[..13] == "New York (ET)";
    assert forall i :: 0 <= i < 13 ==> !SeparatorAt(york, i);
    BeforeFirstSeparator(york, 13);
  }

  lemma NewYorkIndex()
    ensures FindZone(Zones, "America/New_York") == 4
  {
    assert Zones[4].tz == "America/New_York";
    assert forall k :: 0 <= k < 4 ==> Zones[k].tz != "America/New_York" by {
      assert forall k :: 0 <= k < 4 ==> |Zones[k].tz| != 16;
    }
  }

  /** The label of the default zone B. */
  lemma NewYorkLabel()
    ensures GetZoneLabel("America/New_York") == "New York (ET)"
  {
    NewYorkIndex();
    NewYorkName();
    assert Zones[4].name == "New York (ET) - America/New_York";
  }

  /* ---------------- the difference ---------------- */

  /** calculateDifference with the two offsets it reads: hours from A to B, possibly
      fractional. */
  function Difference(offA: int, offB: int): (diff: real)
    ensures diff * 60.0 == (offB - offA) as real
  {
    (offB - offA) as real / 60.0
  }

  /** The three sentences of the difference text, with the number each shows. */
  datatype DiffText = SameZone | Ahead(hours: real) | Behind(hours: real)

  /** The difference-text branch of render. */
  function DiffTextOf(diff: real): (t: DiffText)
    ensures t == SameZone <==> diff == 0.0
    ensures t.Ahead? <==> diff > 0.0
    ensures t.Behind? <==> diff < 0.0
    ensures !t.SameZone? ==> t.hours > 0.0 && (t.hours == diff || t.hours == -diff)
  {
    if diff == 0.0 then SameZone
    else if diff > 0.0 then Ahead(diff)
    else Behind(if diff < 0.0 then -diff else diff)
  }

  /** Swapping the zones turns "ahead" into "behind" by the same number of hours. */
  lemma DiffTextSwapped(offA: int, offB: int)
    ensures var t := DiffTextOf(Difference(offA, offB));
            var u := DiffTextOf(Difference(offB, offA));
            match t
            case SameZone => u == SameZone
            case Ahead(x) => u == Behind(x)
            case Behind(x) => u == Ahead(x)
  {
    assert Difference(offB, offA) == -Difference(offA, offB);
  }

  /* ---------------- the two selections ---------------- */

  /** The two zone selectors. */
  class Selection {
    var zoneA: string
    var zoneB: string

    /** fillZones: the default selection. */
    constructor ()
      ensures zoneA == "Asia/Kolkata" && zoneB == "America/New_York"
    {
      zoneA, zoneB := "Asia/Kolkata", "America/New_York";
    }

    /** The swap button's handler: the two selected zones change places. */
    method Swap()
      modifies this
      ensures zoneA == old(zoneB) && zoneB == old(zoneA)
    {
      var temp := zoneA;
      zoneA := zoneB;
      zoneB := temp;
    }
  }
}

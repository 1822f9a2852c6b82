/**
 * The location and schedule seeds, and the join that attaches to each
 * schedule its doctor and its location.
 */
module ScheduleData {
  import opened Wrappers
  import opened Seqs
  import opened Entities
  import Doctors
  import Availability

  const SeedLocations: seq<Location> := [
    Location("loc-001", "Hospital Central", "Av. Principal 123", "+1234567800", "Ciudad Principal", true,
      Some(TimeRange("07:00", "12:00")), Some(TimeRange("14:00", "19:00"))),
    Location("loc-002", "Clínica Norte", "Calle Norte 456", "+1234567801", "Ciudad Norte", true,
      Some(TimeRange("08:00", "13:00")), Some(TimeRange("15:00", "18:00"))),
    Location("loc-003", "Centro Médico Sur", "Av. Sur 789", "+1234567802", "Ciudad Sur", true,
      Some(TimeRange("09:00", "12:30")), Some(TimeRange("14:30", "17:30"))),
    Location("loc-004", "Hospital Especializado", "Plaza Central 321", "+1234567803", "Ciudad Principal", true,
      Some(TimeRange("06:00", "12:00")), Some(TimeRange("13:00", "20:00")))
  ]

  const SeedSchedules: seq<Schedule> := [
    Schedule("sch-001", "dr-001", "loc-001", 1, "08:00", "16:00", true,
      Some(TimeRange("12:00", "13:00")), Some(20)),
    Schedule("sch-002", "dr-001", "loc-001", 3, "09:00", "17:00", true,
      Some(TimeRange("13:00", "14:00")), Some(18)),
    Schedule("sch-003", "dr-001", "loc-002", 5, "10:00", "15:00", true,
      Some(TimeRange("12:30", "13:30")), Some(15)),
    Schedule("sch-004", "dr-002", "loc-001", 2, "07:00", "15:00", true,
      Some(TimeRange("11:00", "12:00")), Some(16)),
    Schedule("sch-005", "dr-002", "loc-004", 4, "08:00", "16:00", true,
      Some(TimeRange("12:00", "13:00")), Some(20)),
    Schedule("sch-006", "dr-003", "loc-002", 1, "09:00", "17:00", true,
      Some(TimeRange("13:00", "14:00")), Some(25)),
    Schedule("sch-007", "dr-003", "loc-003", 3, "10:00", "16:00", true,
      Some(TimeRange("12:30", "13:30")), Some(20)),
    Schedule("sch-008", "dr-004", "loc-001", 2, "08:00", "14:00", true,
      Some(TimeRange("11:00", "12:00")), Some(12)),
    Schedule("sch-009", "dr-004", "loc-004", 5, "09:00", "15:00", true,
      Some(TimeRange("12:00", "13:00")), Some(14)),
    Schedule("sch-010", "dr-005", "loc-003", 1, "08:00", "16:00", true,
      Some(TimeRange("12:00", "13:00")), Some(18)),
    Schedule("sch-011", "dr-005", "loc-002", 4, "09:00", "17:00", true,
      Some(TimeRange("13:00", "14:00")), Some(20))
  ]

  function LocationWithId(id: string): Location -> bool
  {
    (l: Location) => l.id == id
  }

  function WorkedBy(doctorId: string): Schedule -> bool
  {
    (s: Schedule) => s.doctorId == doctorId
  }

  /**
   * Every schedule names a doctor and a location that exist: what the
   * non-null assertions on the two `find` calls take for granted.
   */
  ghost predicate Resolves(schedules: seq<Schedule>, doctors: seq<Doctor>, locations: seq<Location>)
  {
    forall i :: 0 <= i < |schedules| ==>
      HasDoctor(doctors, schedules[i].doctorId) && HasLocation(locations, schedules[i].locationId)
  }

  ghost predicate HasDoctor(doctors: seq<Doctor>, id: string)
  {
    exists j :: 0 <= j < |doctors| && doctors[j].id == id
  }

  ghost predicate HasLocation(locations: seq<Location>, id: string)
  {
    exists j :: 0 <= j < |locations| && locations[j].id == id
  }

  /** One joined entry: the schedule with the first doctor and location carrying its ids. */
  function Attach(s: Schedule, doctors: seq<Doctor>, locations: seq<Location>): (d: Detailed)
    requires HasDoctor(doctors, s.doctorId) && HasLocation(locations, s.locationId)
    ensures d.schedule == s && d.doctor.id == s.doctorId && d.location.id == s.locationId
    ensures Some(d.doctor) == Find(doctors, Doctors.HasId(s.doctorId))
    ensures Some(d.location) == Find(locations, LocationWithId(s.locationId))
  {
    var doctor := Find(doctors, Doctors.HasId(s.doctorId));
    var location := Find(locations, LocationWithId(s.locationId));
    Detailed(s, doctor.value, location.value)
  }

  /** The map behind `getScheduleWithDetails`, over the lists it reads. */
  function Join(schedules: seq<Schedule>, doctors: seq<Doctor>, locations: seq<Location>): (r: seq<Detailed>)
    requires Resolves(schedules, doctors, locations)
    ensures |r| == |schedules|
    ensures forall i :: 0 <= i < |r| ==> r[i] == Attach(schedules[i], doctors, locations)
  {
    if schedules == [] then []
    else [Attach(schedules[0], doctors, locations)] + Join(schedules[1..], doctors, locations)
  }

  /** Resolves, from a table saying where each schedule's doctor and location sit. */
  lemma ResolvesAt(schedules: seq<Schedule>, doctors: seq<Doctor>, locations: seq<Location>, doctorAt: seq<int>, locationAt: seq<int>)
    requires |doctorAt| == |schedules| == |locationAt|
    requires forall i :: 0 <= i < |schedules| ==>
               0 <= doctorAt[i] < |doctors| && doctors[doctorAt[i]].id == schedules[i].doctorId
    requires forall i :: 0 <= i < |schedules| ==>
               0 <= locationAt[i] < |locations| && locations[locationAt[i]].id == schedules[i].locationId
    ensures Resolves(schedules, doctors, locations)
  {
    forall i | 0 <= i < |schedules|
      ensures HasDoctor(doctors, schedules[i].doctorId) && HasLocation(locations, schedules[i].locationId)
    {
      var d, l := doctorAt[i], locationAt[i];
      assert doctors[d].id == schedules[i].doctorId;
      assert locations[l].id == schedules[i].locationId;
    }
  }

  /** Every seed schedule names a seed doctor and a seed location. */
  lemma SeedsResolve()
    ensures Resolves(SeedSchedules, Doctors.DoctorsSeed, SeedLocations)
  {
    ResolvesAt(SeedSchedules, Doctors.DoctorsSeed, SeedLocations,
      [0, 0, 0, 1, 1, 2, 2, 3, 3, 4, 4], [0, 0, 1, 0, 3, 1, 2, 0, 3, 2, 1]);
  }

  /**
   * `getScheduleWithDetails`: the schedules in order, each with its doctor
   * and its location. The application joins `SeedSchedules` with
   * `DoctorsSeed` and `SeedLocations`, which SeedsResolve shows to qualify.
   */
  function GetScheduleWithDetails(schedules: seq<Schedule>, doctors: seq<Doctor>, locations: seq<Location>): (r: seq<Detailed>)
    requires Resolves(schedules, doctors, locations)
    ensures |r| == |schedules|
    ensures forall i :: 0 <= i < |r| ==>
              r[i].schedule == schedules[i] &&
              r[i].doctor.id == schedules[i].doctorId &&
              r[i].location.id == schedules[i].locationId
  {
    Join(schedules, doctors, locations)
  }

  /** `getDoctorSchedules`: the joined entries of that doctor, in order. */
  function GetDoctorSchedules(schedules: seq<Schedule>, doctors: seq<Doctor>, locations: seq<Location>, doctorId: string): (r: seq<Detailed>)
    requires Resolves(schedules, doctors, locations)
    ensures KeepsExactly(r, GetScheduleWithDetails(schedules, doctors, locations), Availability.OfDoctor(doctorId))
  {
    var joined := GetScheduleWithDetails(schedules, doctors, locations);
    FilterKeepsExactly(joined, Availability.OfDoctor(doctorId));
    Filter(joined, Availability.OfDoctor(doctorId))
  }

  /** `getLocationSchedules`: the joined entries at that location, in order. */
  function GetLocationSchedules(schedules: seq<Schedule>, doctors: seq<Doctor>, locations: seq<Location>, locationId: string): (r: seq<Detailed>)
    requires Resolves(schedules, doctors, locations)
    ensures KeepsExactly(r, GetScheduleWithDetails(schedules, doctors, locations), Availability.AtLocation(locationId))
  {
    var joined := GetScheduleWithDetails(schedules, doctors, locations);
    FilterKeepsExactly(joined, Availability.AtLocation(locationId));
    Filter(joined, Availability.AtLocation(locationId))
  }

  /**
   * Every entry of a doctor's list carries that doctor — the first one in
   * the doctor list with the id — and no schedule of the doctor is missing.
   */
  lemma DoctorSchedulesCarryDoctor(schedules: seq<Schedule>, doctors: seq<Doctor>, locations: seq<Location>, doctorId: string)
    requires Resolves(schedules, doctors, locations)
    ensures var r := GetDoctorSchedules(schedules, doctors, locations, doctorId);
            && (forall k :: 0 <= k < |r| ==>
                  r[k].doctor.id == doctorId && Some(r[k].doctor) == Find(doctors, Doctors.HasId(doctorId)))
            && |r| == Count(schedules, WorkedBy(doctorId))
  {
    var joined := GetScheduleWithDetails(schedules, doctors, locations);
    var r := GetDoctorSchedules(schedules, doctors, locations, doctorId);
    forall k | 0 <= k < |r|
      ensures r[k].doctor.id == doctorId && Some(r[k].doctor) == Find(doctors, Doctors.HasId(doctorId))
    {
      var i :| 0 <= i < |joined| && joined[i] == r[k];
      assert joined[i] == Attach(schedules[i], doctors, locations);
    }
    CountJoined(schedules, doctors, locations, doctorId);
  }

  lemma {:induction false} CountJoined(schedules: seq<Schedule>, doctors: seq<Doctor>, locations: seq<Location>, doctorId: string)
    requires Resolves(schedules, doctors, locations)
    ensures Count(Join(schedules, doctors, locations), Availability.OfDoctor(doctorId))
         == Count(schedules, WorkedBy(doctorId))
  {
    if schedules != [] {
      assert Resolves(schedules[1..], doctors, locations) by {
        forall i | 0 <= i < |schedules[1..]|
          ensures HasDoctor(doctors, schedules[1..][i].doctorId) && HasLocation(locations, schedules[1..][i].locationId)
        {
          assert schedules[1..][i] == schedules[i + 1];
        }
      }
      CountJoined(schedules[1..], doctors, locations, doctorId);
      var j := Join(schedules, doctors, locations);
      assert j[1..] == Join(schedules[1..], doctors, locations);
    }
  }
}

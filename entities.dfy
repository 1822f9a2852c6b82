// The clinic's records: doctors, locations and weekly schedules, with the
// joined schedule that carries its doctor and location.

module Entities {
  import opened Wrappers

  /**
   * A doctor. Contact details, avatar, rating, review count,
   * qualifications, languages and timestamps are not modelled.
   */
  datatype Doctor = Doctor(
    id: string,
    name: string,
    specialization: string,
    isActive: bool,
    yearsOfExperience: Option<int>,
    consultationPrice: Option<int>,
    bio: Option<string>)

  /** An "HH:MM"–"HH:MM" range as written in the records. */
  datatype TimeRange = TimeRange(start: string, end: string)

  /** A place where doctors see patients, with optional working hours. */
  datatype Location = Location(
    id: string,
    name: string,
    address: string,
    phone: string,
    city: string,
    isActive: bool,
    morning: Option<TimeRange>,
    afternoon: Option<TimeRange>)

  /**
   * A weekly slot: on `dayOfWeek` the doctor works at the location from
   * `startTime` to `endTime`. Timestamps are not modelled.
   */
  datatype Schedule = Schedule(
    id: string,
    doctorId: string,
    locationId: string,
    dayOfWeek: int,
    startTime: string,
    endTime: string,
    isActive: bool,
    breakTime: Option<TimeRange>,
    maxPatients: Option<int>)

  /** A schedule spread together with the doctor and location it names. */
  datatype Detailed = Detailed(schedule: Schedule, doctor: Doctor, location: Location)
}

/**
 * The doctor seed and the queries over it: active and inactive doctors,
 * specializations, lookup by id, search, the experience and price orders,
 * and the integer counts of the statistics.
 *
 * Each query reads the list it is given; the application passes
 * `DoctorsSeed`.
 */
module Doctors {
  import opened Wrappers
  import opened Seqs
  import opened JsStrings
  import opened Entities

  const DoctorsSeed: seq<Doctor> := [
    Doctor("dr-001", "Dr. María González", "Oftalmología", true, Some(15), Some(150),
      Some("Especialista en cirugía refractiva y tratamiento de cataratas con más de 15 años de experiencia.")),
    Doctor("dr-002", "Dr. Carlos Rodríguez", "Cardiología", true, Some(12), Some(180),
      Some("Cardiólogo intervencionista especializado en procedimientos mínimamente invasivos.")),
    Doctor("dr-003", "Dra. Ana Martínez", "Pediatría", true, Some(8), Some(120),
      Some("Pediatra especializada en desarrollo infantil y medicina preventiva.")),
    Doctor("dr-004", "Dr. Luis Fernando Pérez", "Neurología", false, Some(20), Some(200),
      Some("Neurólogo con amplia experiencia en trastornos neurológicos complejos.")),
    Doctor("dr-005", "Dra. Carmen Silva", "Dermatología", true, Some(10), Some(140),
      Some("Dermatóloga especializada en dermatología estética y oncología cutánea.")),
    Doctor("dr-006", "Dr. Roberto Vásquez", "Traumatología", true, Some(18), Some(170),
      Some("Traumatólogo especializado en cirugía de columna y artroscopia.")),
    Doctor("dr-007", "Dra. Patricia Morales", "Ginecología", true, Some(14), Some(160),
      Some("Ginecóloga obstetra especializada en medicina materno-fetal.")),
    Doctor("dr-008", "Dr. Andrés Castillo", "Psiquiatría", true, Some(11), Some(180),
      Some("Psiquiatra especializado en trastornos del estado de ánimo y ansiedad.")),
    Doctor("dr-009", "Dra. Isabel Herrera", "Endocrinología", true, Some(9), Some(155),
      Some("Endocrinóloga especializada en diabetes y trastornos hormonales.")),
    Doctor("dr-010", "Dr. Miguel Ángel Torres", "Medicina General", false, Some(6), Some(100),
      Some("Médico general con enfoque en medicina preventiva y atención primaria."))
  ]

  function IsActive(): Doctor -> bool
  {
    (d: Doctor) => d.isActive
  }

  function IsInactive(): Doctor -> bool
  {
    (d: Doctor) => !d.isActive
  }

  // ---------------------------------------------------------------------------
  // Active and inactive doctors

  /** `getActiveDoctors`. */
  function GetActiveDoctors(doctors: seq<Doctor>): (r: seq<Doctor>)
    ensures KeepsExactly(r, doctors, IsActive())
  {
    FilterKeepsExactly(doctors, IsActive());
    Filter(doctors, IsActive())
  }

  /** `getInactiveDoctors`. */
  function GetInactiveDoctors(doctors: seq<Doctor>): (r: seq<Doctor>)
    ensures KeepsExactly(r, doctors, IsInactive())
  {
    FilterKeepsExactly(doctors, IsInactive());
    Filter(doctors, IsInactive())
  }

  /** `getActiveDocatorsCount`: the number of active doctors. */
  function GetActiveDoctorsCount(doctors: seq<Doctor>): (n: nat)
    ensures n == Count(doctors, IsActive())
    ensures n == |GetActiveDoctors(doctors)|
  {
    FilterKeepsExactly(doctors, IsActive());
    |Filter(doctors, IsActive())|
  }

  /** Active and inactive doctors split the list between them. */
  lemma ActiveInactivePartition(doctors: seq<Doctor>)
    ensures multiset(GetActiveDoctors(doctors)) + multiset(GetInactiveDoctors(doctors)) == multiset(doctors)
    ensures |GetActiveDoctors(doctors)| + |GetInactiveDoctors(doctors)| == |doctors|
  {
    FilterComplement(doctors, IsActive(), IsInactive());
  }

  // ---------------------------------------------------------------------------
  // Specializations

  /**
   * `getSpecializations`: the distinct specializations (a Set keeps first
   * occurrences) sorted by the default string order.
   */
  function GetSpecializations(doctors: seq<Doctor>): (r: seq<string>)
    ensures NoDuplicates(r)
    ensures SortedBy(r, CodeUnitLe)
    ensures forall x :: x in r <==> exists i :: 0 <= i < |doctors| && doctors[i].specialization == x
  {
    var distinct := Dedup(Map(doctors, SpecializationOf()));
    SortedSetFacts(distinct);
    assert forall x :: x in distinct <==> exists i :: 0 <= i < |doctors| && doctors[i].specialization == x;
    SortBy(distinct, CodeUnitLe)
  }

  function SpecializationOf(): Doctor -> string
  {
    (d: Doctor) => d.specialization
  }

  /** `Array.from(set).sort()` keeps a duplicate-free list's elements and sorts them. */
  lemma SortedSetFacts(distinct: seq<string>)
    requires NoDuplicates(distinct)
    ensures NoDuplicates(SortBy(distinct, CodeUnitLe))
    ensures SortedBy(SortBy(distinct, CodeUnitLe), CodeUnitLe)
    ensures forall x :: x in SortBy(distinct, CodeUnitLe) <==> x in distinct
  {
    SortByPermutes(distinct, CodeUnitLe);
    CodeUnitLeTotalPreorder();
    SortBySorted(distinct, CodeUnitLe);
    NoDuplicatesPermutation(distinct, SortBy(distinct, CodeUnitLe));
    assert forall x :: x in SortBy(distinct, CodeUnitLe) <==> x in multiset(distinct);
  }

  function ActiveIn(specialization: string): Doctor -> bool
  {
    (d: Doctor) => d.specialization == specialization && d.isActive
  }

  /** `getDoctorsBySpecialization`: the active doctors of that specialization, in order. */
  function GetDoctorsBySpecialization(doctors: seq<Doctor>, specialization: string): (r: seq<Doctor>)
    ensures KeepsExactly(r, doctors, ActiveIn(specialization))
  {
    FilterKeepsExactly(doctors, ActiveIn(specialization));
    Filter(doctors, ActiveIn(specialization))
  }

  // ---------------------------------------------------------------------------
  // Lookup and search

  function HasId(id: string): Doctor -> bool
  {
    (d: Doctor) => d.id == id
  }

  /** `getDoctorById`: the first doctor with that id, or none. */
  function GetDoctorById(doctors: seq<Doctor>, id: string): (r: Option<Doctor>)
    ensures r.None? <==> forall i :: 0 <= i < |doctors| ==> doctors[i].id != id
    ensures r.Some? ==> exists i :: 0 <= i < |doctors| && doctors[i] == r.value && r.value.id == id
                                   && forall j :: 0 <= j < i ==> doctors[j].id != id
  {
    Find(doctors, HasId(id))
  }

  /** An active doctor whose name, specialization or bio contains `term`, all lowercased. */
  function MatchesTerm(term: string): Doctor -> bool
  {
    (d: Doctor) =>
      d.isActive &&
      (Includes(ToLowerCase(d.name), term) ||
       Includes(ToLowerCase(d.specialization), term) ||
       (d.bio.Some? && Includes(ToLowerCase(d.bio.value), term)))
  }

  /** The search term: the query lowercased, then trimmed. */
  function SearchTerm(query: string): string
  {
    Trim(ToLowerCase(query))
  }

  /** `searchDoctors`. */
  function SearchDoctors(doctors: seq<Doctor>, query: string): (r: seq<Doctor>)
    ensures SearchTerm(query) == "" ==> KeepsExactly(r, doctors, IsActive())
    ensures SearchTerm(query) != "" ==> KeepsExactly(r, doctors, MatchesTerm(SearchTerm(query)))
  {
    var searchTerm := SearchTerm(query);
    if searchTerm == "" then GetActiveDoctors(doctors)
    else
      FilterKeepsExactly(doctors, MatchesTerm(searchTerm));
      Filter(doctors, MatchesTerm(searchTerm))
  }

  /** Search only ever returns active doctors, and never more of them than there are. */
  lemma SearchFindsActiveDoctors(doctors: seq<Doctor>, query: string)
    ensures forall k :: 0 <= k < |SearchDoctors(doctors, query)| ==> SearchDoctors(doctors, query)[k].isActive
    ensures |SearchDoctors(doctors, query)| <= |GetActiveDoctors(doctors)|
  {
    var r := SearchDoctors(doctors, query);
    var term := SearchTerm(query);
    if term != "" {
      var f := MatchesTerm(term);
      assert forall k :: 0 <= k < |r| ==> f(r[k]);
      FilterFilter(doctors, IsActive(), f, f);
      assert r == Filter(GetActiveDoctors(doctors), f);
    }
  }

  // ---------------------------------------------------------------------------
  // Orders. `le(a, b)` stands for `compare(a, b) <= 0`; a missing number
  // counts as 0 because of `|| 0`.

  function Years(d: Doctor): int
  {
    if d.yearsOfExperience.Some? then d.yearsOfExperience.value else 0
  }

  function Price(d: Doctor): int
  {
    if d.consultationPrice.Some? then d.consultationPrice.value else 0
  }

  /** `(b.years || 0) - (a.years || 0) <= 0`. */
  function MoreExperienced(): (Doctor, Doctor) -> bool
  {
    (a: Doctor, b: Doctor) => Years(b) - Years(a) <= 0
  }

  /** `(a.price || 0) - (b.price || 0) <= 0`. */
  function Cheaper(): (Doctor, Doctor) -> bool
  {
    (a: Doctor, b: Doctor) => Price(a) - Price(b) <= 0
  }

  lemma OrdersAreTotalPreorders()
    ensures TotalPreorder(MoreExperienced()) && TotalPreorder(Cheaper())
  {
    var e := MoreExperienced();
    var c := Cheaper();
    forall a, b ensures e(a, b) || e(b, a) {
    }
    forall a, b, x | e(a, b) && e(b, x) ensures e(a, x) {
    }
    forall a, b ensures c(a, b) || c(b, a) {
    }
    forall a, b, x | c(a, b) && c(b, x) ensures c(a, x) {
    }
  }

  /** `getDoctorsByExperience`: the active doctors, most experienced first. */
  function GetDoctorsByExperience(doctors: seq<Doctor>): (r: seq<Doctor>)
    ensures multiset(r) == multiset(GetActiveDoctors(doctors))
    ensures forall i, j :: 0 <= i < j < |r| ==> Years(r[i]) >= Years(r[j])
    // Doctors of equal experience keep their seed order.
    ensures forall d :: Filter(r, Tied(MoreExperienced(), d)) == Filter(GetActiveDoctors(doctors), Tied(MoreExperienced(), d))
  {
    var active := GetActiveDoctors(doctors);
    SortByPermutes(active, MoreExperienced());
    OrdersAreTotalPreorders();
    SortBySorted(active, MoreExperienced());
    forall d ensures Filter(SortBy(active, MoreExperienced()), Tied(MoreExperienced(), d)) == Filter(active, Tied(MoreExperienced(), d)) {
      SortByStable(active, MoreExperienced(), d);
    }
    var r := SortBy(active, MoreExperienced());
    assert forall i, j :: 0 <= i < j < |r| ==> MoreExperienced()(r[i], r[j]);
    r
  }

  /** `getDoctorsByPrice`: the active doctors, cheapest first. */
  function GetDoctorsByPrice(doctors: seq<Doctor>): (r: seq<Doctor>)
    ensures multiset(r) == multiset(GetActiveDoctors(doctors))
    ensures forall i, j :: 0 <= i < j < |r| ==> Price(r[i]) <= Price(r[j])
    // Doctors of equal price keep their seed order.
    ensures forall d :: Filter(r, Tied(Cheaper(), d)) == Filter(GetActiveDoctors(doctors), Tied(Cheaper(), d))
  {
    var active := GetActiveDoctors(doctors);
    SortByPermutes(active, Cheaper());
    OrdersAreTotalPreorders();
    SortBySorted(active, Cheaper());
    forall d ensures Filter(SortBy(active, Cheaper()), Tied(Cheaper(), d)) == Filter(active, Tied(Cheaper(), d)) {
      SortByStable(active, Cheaper(), d);
    }
    var r := SortBy(active, Cheaper());
    assert forall i, j :: 0 <= i < j < |r| ==> Cheaper()(r[i], r[j]);
    r
  }

  // ---------------------------------------------------------------------------
  // Statistics

  datatype SpecializationCount = SpecializationCount(specialization: string, count: nat)

  datatype DoctorsStats = DoctorsStats(
    totalDoctors: nat,
    activeDoctors: nat,
    inactiveDoctors: nat,
    specializations: nat,
    specializationCounts: seq<SpecializationCount>)

  function CountsFor(doctors: seq<Doctor>, names: seq<string>): (r: seq<SpecializationCount>)
    ensures |r| == |names|
    ensures forall k :: 0 <= k < |names| ==>
              r[k].specialization == names[k] && r[k].count == |GetDoctorsBySpecialization(doctors, names[k])|
  {
    if names == [] then []
    else [SpecializationCount(names[0], |GetDoctorsBySpecialization(doctors, names[0])|)] + CountsFor(doctors, names[1..])
  }

  /** The integer fields of `getDoctorsStats`. */
  function GetDoctorsStats(doctors: seq<Doctor>): (st: DoctorsStats)
    ensures st.totalDoctors == |doctors|
    ensures st.activeDoctors + st.inactiveDoctors == st.totalDoctors
    ensures st.activeDoctors == Count(doctors, IsActive())
    ensures st.specializations == |GetSpecializations(doctors)| == |st.specializationCounts|
    ensures forall k :: 0 <= k < |st.specializationCounts| ==>
              st.specializationCounts[k].specialization == GetSpecializations(doctors)[k] &&
              st.specializationCounts[k].count == Count(doctors, ActiveIn(GetSpecializations(doctors)[k]))
  {
    ActiveInactivePartition(doctors);
    var names := GetSpecializations(doctors);
    DoctorsStats(
      |doctors|,
      |GetActiveDoctors(doctors)|,
      |GetInactiveDoctors(doctors)|,
      |names|,
      CountsFor(doctors, names))
  }
}

/** The patients page: a fixed list of patients, a search over name, phone and address, the
    statistic cards, and the health-status badge's text and colour. */
module PatientsManagement {
  import opened Seqs
  import Text

  datatype PatientHealth = Good | Fair | Poor
  {
    /** The status as the source spells it. */
    function Name(): string
    {
      match this
      case Good => "good" case Fair => "fair" case Poor => "poor"
    }
  }

  datatype Gender = Male | Female

  datatype Patient = Patient(
    id: string, name: string, age: int, gender: Gender, phone: string, address: string,
    lastVisit: string, healthStatus: PatientHealth, familyMembers: int)

  /** The page's patients; no setter is bound to them, so they are a constant. */
  const SeedPatients: seq<Patient> := [
    Patient("1", "राम कुमार", 45, Male, "9876543210", "दुर्ग, छत्तीसगढ़", "2025-07-10", Fair, 4),
    Patient("2", "सुनीता देवी", 38, Female, "8765432109", "बिलासपुर, छत्तीसगढ़", "2025-07-12", Good, 3),
    Patient("3", "मोहन लाल", 62, Male, "7654321098", "रायपुर, छत्तीसगढ़", "2025-07-08", Poor, 2),
    Patient("4", "प्रिया गुप्ता", 29, Female, "6543210987", "कोरबा, छत्तीसगढ़", "2025-07-14", Good, 5)
  ]

  // ---------------------------------------------------------------- search

  /** The lowercased name or address includes the lowercased term, or the phone includes the
      term as typed. */
  predicate PatientMatches(p: Patient, term: string, lower: Text.CaseMap)
  {
    Text.Contains(lower(p.name), lower(term)) || Text.Contains(p.phone, term)
    || Text.Contains(lower(p.address), lower(term))
  }

  function FilteredPatients(patients: seq<Patient>, term: string, lower: Text.CaseMap): (r: seq<Patient>)
    ensures IsSubsequence(r, patients)
    ensures forall p :: p in r ==> PatientMatches(p, term, lower)
    ensures forall i :: 0 <= i < |patients| && PatientMatches(patients[i], term, lower) ==> patients[i] in r
    ensures forall i {:trigger multiset(r)[patients[i]]} :: 0 <= i < |patients| ==>
      multiset(r)[patients[i]] == if PatientMatches(patients[i], term, lower) then multiset(patients)[patients[i]] else 0
  {
    Filter(patients, (p: Patient) => PatientMatches(p, term, lower))
  }

  /** An empty search lists every patient (lowercasing keeps "" empty). */
  lemma EmptySearchKeepsAll(patients: seq<Patient>, lower: Text.CaseMap)
    requires lower("") == ""
    ensures FilteredPatients(patients, "", lower) == patients
  {
    forall p | p in patients
      ensures PatientMatches(p, "", lower)
    {
      Text.ContainsEmpty(lower(p.name));
    }
    FilterAll(patients, (p: Patient) => PatientMatches(p, "", lower));
  }

  /** A phone number typed in full finds its patient, whatever the lowercasing does. */
  lemma PhoneFindsPatient(patients: seq<Patient>, i: nat, lower: Text.CaseMap)
    requires i < |patients|
    ensures patients[i] in FilteredPatients(patients, patients[i].phone, lower)
  {
    Text.ContainsSelf(patients[i].phone);
  }

  // ---------------------------------------------------------------- cards

  /** The healthy card: patients whose status is `good`. */
  function HealthyCount(patients: seq<Patient>): (n: nat)
    ensures n <= |patients|
  {
    |Filter(patients, (p: Patient) => p.healthStatus == Good)|
  }

  /** Healthy patients and the rest split the list. */
  lemma HealthyPartition(patients: seq<Patient>)
    ensures HealthyCount(patients) + |Filter(patients, (p: Patient) => p.healthStatus != Good)| == |patients|
  {
    FilterPartition(patients, (p: Patient) => p.healthStatus == Good, (p: Patient) => p.healthStatus != Good);
  }

  function FamilyMembersOf(p: Patient): int
  {
    p.familyMembers
  }

  /** The family-members card: `reduce((sum, p) => sum + p.familyMembers, 0)`. */
  function FamilyMemberTotal(patients: seq<Patient>): (r: int)
    ensures patients == [] ==> r == 0
    ensures patients != [] ==> r == Sum(patients[..|patients| - 1], FamilyMembersOf) + patients[|patients| - 1].familyMembers
  {
    if patients == [] then Sum(patients, FamilyMembersOf)
    else
      SumSnoc(patients, FamilyMembersOf);
      Sum(patients, FamilyMembersOf)
  }

  /** With non-negative family sizes the total bounds every single family. */
  lemma {:induction false} FamilyMemberTotalBounds(patients: seq<Patient>, i: nat)
    requires i < |patients|
    requires forall k :: 0 <= k < |patients| ==> patients[k].familyMembers >= 0
    ensures 0 <= patients[i].familyMembers <= FamilyMemberTotal(patients)
  {
    if i > 0 {
      FamilyMemberTotalBounds(patients[1..], i - 1);
      assert patients[1..][i - 1] == patients[i];
    } else {
      NonNegativeTotal(patients[1..]);
    }
  }

  lemma {:induction false} NonNegativeTotal(patients: seq<Patient>)
    requires forall k :: 0 <= k < |patients| ==> patients[k].familyMembers >= 0
    ensures FamilyMemberTotal(patients) >= 0
  {
    if patients != [] {
      NonNegativeTotal(patients[1..]);
    }
  }

  /** The seed's cards: 4 patients, 2 healthy, 14 family members. */
  lemma SeedCards()
    ensures |SeedPatients| == 4 && HealthyCount(SeedPatients) == 2 && FamilyMemberTotal(SeedPatients) == 14
  {
    var ps := SeedPatients;
    SumOfFour(ps, FamilyMembersOf);
    assert ps[1..][1..][1..][1..] == [];
  }

  // ---------------------------------------------------------------- status badge

  const DefaultColor := "bg-gray-100 text-gray-800"
  const DefaultText := "अज्ञात"

  /** `getHealthStatusColor`: fixed classes for the three statuses, grey for anything else. */
  function StatusColor(status: string): (c: string)
    ensures status == "good" ==> c == "bg-green-100 text-green-800"
    ensures status == "fair" ==> c == "bg-yellow-100 text-yellow-800"
    ensures status == "poor" ==> c == "bg-red-100 text-red-800"
    ensures c == DefaultColor <==> status !in {"good", "fair", "poor"}
  {
    match status
    case "good" => "bg-green-100 text-green-800"
    case "fair" => "bg-yellow-100 text-yellow-800"
    case "poor" => "bg-red-100 text-red-800"
    case _ => DefaultColor
  }

  /** `getHealthStatusText`: the Hindi label for the three statuses, "unknown" for anything else. */
  function StatusText(status: string): (t: string)
    ensures status == "good" ==> t == "अच्छी"
    ensures status == "fair" ==> t == "सामान्य"
    ensures status == "poor" ==> t == "खराब"
    ensures t == DefaultText <==> status !in {"good", "fair", "poor"}
  {
    match status
    case "good" => "अच्छी"
    case "fair" => "सामान्य"
    case "poor" => "खराब"
    case _ => DefaultText
  }

  /** A patient's own status never falls back to the defaults, and distinct statuses get
      distinct badges. */
  lemma PatientBadgesDistinct(a: PatientHealth, b: PatientHealth)
    ensures StatusText(a.Name()) != DefaultText && StatusColor(a.Name()) != DefaultColor
    ensures a != b ==> StatusText(a.Name()) != StatusText(b.Name())
    ensures a != b ==> StatusColor(a.Name()) != StatusColor(b.Name())
  {
  }

  // ---------------------------------------------------------------- page state

  class PatientsPage {
    var searchTerm: string
    var showAddPatient: bool
    const patients: seq<Patient>
    const lower: Text.CaseMap

    constructor (lower: Text.CaseMap)
      ensures searchTerm == "" && !showAddPatient && patients == SeedPatients && this.lower == lower
    {
      searchTerm := "";
      showAddPatient := false;
      patients := SeedPatients;
      this.lower := lower;
    }

    /** The patients listed. */
    function Listed(): (r: seq<Patient>)
      reads this
      ensures IsSubsequence(r, patients)
    {
      FilteredPatients(patients, searchTerm, lower)
    }

    method SetSearchTerm(term: string)
      modifies this
      ensures searchTerm == term && showAddPatient == old(showAddPatient)
    {
      searchTerm := term;
    }

    /** The add button opens the (empty) add form; its close button hides it. */
    method SetShowAddPatient(show: bool)
      modifies this
      ensures showAddPatient == show && searchTerm == old(searchTerm)
    {
      showAddPatient := show;
    }
  }
}

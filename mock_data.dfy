/** The seed collections every page starts from, and the query helpers over them: status and
    owner filters, first-match lookups by id, and the generic field search. */
module MockData {
  import opened Wrappers
  import opened Seqs
  import Text
  import opened JsNumber
  import opened JsValue

  datatype User = User(
    id: string, name: string, email: string, phone: string, role: string, avatar: string,
    employeeId: string, department: string, joiningDate: string)

  datatype Doctor = Doctor(
    id: string, name: string, specialty: string, phone: string, email: string, avatar: string,
    experience: IntOrNaN, qualification: string, assignedCamps: seq<string>)

  datatype Camp = Camp(
    id: string, location: string, date: string, time: string, doctors: seq<string>,
    status: string, beneficiaries: int, expectedBeneficiaries: int, address: string,
    coordinator: string)

  /** A checkup; `bmi` is a floating-point value and is not part of this model. */
  datatype HealthRecord = HealthRecord(
    id: string, userId: string, date: string, systolic: int, diastolic: int, sugarLevel: int,
    weight: int, height: int, notes: string, campId: Option<string>)

  datatype SchemeStatus = Pending | Approved | Rejected

  datatype Scheme = Scheme(
    id: string, applicantName: string, employeeId: string, schemeName: string,
    appliedDate: string, status: SchemeStatus, documents: seq<string>, amount: int,
    reviewedBy: Option<string>, reviewDate: Option<string>, remarks: Option<string>)

  const User1: User :=
    User("1", "राम कुमार", "ram.kumar@company.com", "9876543210", "employee",
      "https://images.unsplash.com/photo-1472099645785-5658abf4ff4e?w=100&h=100&fit=crop&crop=face",
      "EMP001", "IT", "2022-01-15")
  const User2: User :=
    User("2", "सुनीता देवी", "sunita.devi@company.com", "8765432109", "employee",
      "https://images.unsplash.com/photo-1494790108755-2616b612b786?w=100&h=100&fit=crop&crop=face",
      "EMP002", "HR", "2021-06-10")
  const User3: User :=
    User("3", "अमित शर्मा", "amit.sharma@company.com", "7654321098", "admin",
      "https://images.unsplash.com/photo-1507003211169-0a1dd7228f2d?w=100&h=100&fit=crop&crop=face",
      "EMP003", "Admin", "2020-03-20")
  const User4: User :=
    User("4", "प्रिया गुप्ता", "priya.gupta@company.com", "6543210987", "employee",
      "https://images.unsplash.com/photo-1438761681033-6461ffad8d80?w=100&h=100&fit=crop&crop=face",
      "EMP004", "Finance", "2023-02-05")
  const MockUsers: seq<User> := [User1, User2, User3, User4]

  const Doctor1: Doctor :=
    Doctor("1", "डॉ. राजेश वर्मा", "General Medicine", "9876543210", "dr.rajesh@hospital.com",
      "https://images.unsplash.com/photo-1612349317150-e413f6a5b16d?w=100&h=100&fit=crop&crop=face",
      Int(15), "MBBS, MD", ["1", "3"])
  const Doctor2: Doctor :=
    Doctor("2", "डॉ. सुनीता सिंह", "Cardiology", "8765432109", "dr.sunita@hospital.com",
      "https://images.unsplash.com/photo-1559839734-2b71ea197ec2?w=100&h=100&fit=crop&crop=face",
      Int(12), "MBBS, DM (Cardiology)", ["2", "4"])
  const Doctor3: Doctor :=
    Doctor("3", "डॉ. अनिल कुमार", "Orthopedics", "7654321098", "dr.anil@hospital.com",
      "https://images.unsplash.com/photo-1582750433449-648ed127bb54?w=100&h=100&fit=crop&crop=face",
      Int(18), "MBBS, MS (Ortho)", ["1", "2"])
  const Doctor4: Doctor :=
    Doctor("4", "डॉ. मीना पटेल", "Gynecology", "6543210987", "dr.meena@hospital.com",
      "https://images.unsplash.com/photo-1594824804732-ca58f6520cd4?w=100&h=100&fit=crop&crop=face",
      Int(10), "MBBS, MS (Gynec)", ["3", "4"])
  const MockDoctors: seq<Doctor> := [Doctor1, Doctor2, Doctor3, Doctor4]

  const Camp1: Camp :=
    Camp("1", "रायपुर कार्यालय", "2025-07-18", "09:00 AM - 05:00 PM", ["1", "3"], "scheduled",
      0, 150, "सेक्टर 24, नया रायपुर, छत्तीसगढ़", "अमित शर्मा")
  const Camp2: Camp :=
    Camp("2", "भिलाई शाखा", "2025-07-20", "10:00 AM - 04:00 PM", ["2", "3"], "scheduled",
      0, 120, "सेक्टर 7, भिलाई, छत्तीसगढ़", "सुनीता देवी")
  const Camp3: Camp :=
    Camp("3", "दुर्ग केंद्र", "2025-07-15", "08:30 AM - 03:30 PM", ["1", "4"], "completed",
      95, 100, "सिविल लाइन्स, दुर्ग, छत्तीसगढ़", "राम कुमार")
  const Camp4: Camp :=
    Camp("4", "बिलासपुर कार्यालय", "2025-07-22", "09:30 AM - 04:30 PM", ["2", "4"], "scheduled",
      0, 180, "लिंक रोड, बिलासपुर, छत्तीसगढ़", "प्रिया गुप्ता")
  const MockCamps: seq<Camp> := [Camp1, Camp2, Camp3, Camp4]

  const Record1: HealthRecord :=
    HealthRecord("1", "1", "2025-07-10", 120, 80, 110, 70, 175, "सामान्य स्वास्थ्य", Some("3"))
  const Record2: HealthRecord :=
    HealthRecord("2", "2", "2025-07-10", 130, 85, 140, 65, 160, "हल्का मधुमेह", Some("3"))
  const Record3: HealthRecord :=
    HealthRecord("3", "1", "2025-06-15", 115, 75, 105, 69, 175, "अच्छा स्वास्थ्य", None)
  const Record4: HealthRecord :=
    HealthRecord("4", "4", "2025-07-12", 125, 82, 98, 55, 155, "उत्कृष्ट स्वास्थ्य", None)
  const MockHealthRecords: seq<HealthRecord> := [Record1, Record2, Record3, Record4]

  const Scheme1: Scheme :=
    Scheme("1", "राम कुमार", "EMP001", "आयुष्मान भारत योजना", "2025-07-01", Pending,
      ["आधार कार्ड", "वेतन प्रमाण पत्र", "चिकित्सा रिपोर्ट"], 50000,
      None, None, Some("दस्तावेज़ सत्यापन के लिए भेजा गया"))
  const Scheme2: Scheme :=
    Scheme("2", "सुनीता देवी", "EMP002", "मातृत्व लाभ योजना", "2025-06-25", Approved,
      ["आधार कार्ड", "प्रसव प्रमाण पत्र", "बैंक पासबुक"], 25000,
      Some("अमित शर्मा"), Some("2025-07-05"), Some("सभी दस्तावेज़ सत्यापित"))
  const Scheme3: Scheme :=
    Scheme("3", "प्रिया गुप्ता", "EMP004", "स्वास्थ्य बीमा योजना", "2025-06-30", Rejected,
      ["आधार कार्ड", "वेतन प्रमाण पत्र"], 75000,
      Some("अमित शर्मा"), Some("2025-07-08"), Some("अपूर्ण दस्तावेज़"))
  const Scheme4: Scheme :=
    Scheme("4", "राम कुमार", "EMP001", "दुर्घटना बीमा योजना", "2025-07-05", Pending,
      ["आधार कार्ड", "चिकित्सा रिपोर्ट", "FIR कॉपी"], 100000,
      None, None, Some("चिकित्सा जांच के लिए भेजा गया"))
  const MockSchemes: seq<Scheme> := [Scheme1, Scheme2, Scheme3, Scheme4]

  /** The test `getSchemesByStatus` filters with. */
  function StatusIs(status: SchemeStatus): Scheme -> bool
  {
    (s: Scheme) => s.status == status
  }

  /** The seed schemes with the given status, in seed order. */
  function GetSchemesByStatus(status: SchemeStatus): (r: seq<Scheme>)
    ensures IsSubsequence(r, MockSchemes)
    ensures forall s :: s in r ==> s.status == status
    ensures forall i :: 0 <= i < |MockSchemes| && MockSchemes[i].status == status ==> MockSchemes[i] in r
  {
    Filter(MockSchemes, StatusIs(status))
  }

  /** The seed health records of one user, in seed order. */
  function GetUserHealthRecords(userId: string): (r: seq<HealthRecord>)
    ensures IsSubsequence(r, MockHealthRecords)
    ensures forall rec :: rec in r ==> rec.userId == userId
    ensures forall i :: 0 <= i < |MockHealthRecords| && MockHealthRecords[i].userId == userId ==> MockHealthRecords[i] in r
  {
    Filter(MockHealthRecords, (rec: HealthRecord) => rec.userId == userId)
  }

  /** The first seed doctor with the given id, or nothing when no doctor has it. */
  function GetDoctorById(id: string): (r: Option<Doctor>)
    ensures r.None? <==> forall d :: d in MockDoctors ==> d.id != id
    ensures r.Some? ==> r.value.id == id && exists i :: 0 <= i < |MockDoctors| && MockDoctors[i] == r.value && forall j :: 0 <= j < i ==> MockDoctors[j].id != id
  {
    Find(MockDoctors, (d: Doctor) => d.id == id)
  }

  /** The first seed camp with the given id, or nothing when no camp has it. */
  function GetCampById(id: string): (r: Option<Camp>)
    ensures r.None? <==> forall c :: c in MockCamps ==> c.id != id
    ensures r.Some? ==> r.value.id == id && exists i :: 0 <= i < |MockCamps| && MockCamps[i] == r.value && forall j :: 0 <= j < i ==> MockCamps[j].id != id
  {
    Find(MockCamps, (c: Camp) => c.id == id)
  }

  /** One field value matches when it is a string (`typeof value === 'string'`) whose lowercase
      form includes the lowercased term; any other value never matches, it is not coerced. */
  predicate FieldMatches(v: Value, term: string, lower: Text.CaseMap)
  {
    v.Str? && Text.Contains(lower(v.s), lower(term))
  }

  /** `fields.some(...)`: some listed field of `item` matches. */
  predicate ItemMatches<T, F>(item: T, term: string, fields: seq<F>, get: (T, F) -> Value, lower: Text.CaseMap)
  {
    exists k :: 0 <= k < |fields| && FieldMatches(get(item, fields[k]), term, lower)
  }

  /** `searchData`: an empty term returns the data as it is; otherwise the items that some
      listed field matches, in their original order. */
  function SearchData<T(==), F>(data: seq<T>, term: string, fields: seq<F>, get: (T, F) -> Value, lower: Text.CaseMap): (r: seq<T>)
    ensures term == "" ==> r == data
    ensures IsSubsequence(r, data)
    ensures term != "" ==> forall x :: x in r ==> ItemMatches(x, term, fields, get, lower)
    ensures term != "" ==> forall i :: 0 <= i < |data| && ItemMatches(data[i], term, fields, get, lower) ==> data[i] in r
    ensures term != "" ==> forall i {:trigger multiset(r)[data[i]]} :: 0 <= i < |data| ==>
      multiset(r)[data[i]] == if ItemMatches(data[i], term, fields, get, lower) then multiset(data)[data[i]] else 0
  {
    SubsequenceOfSelf(data);
    if term == "" then data
    else Filter(data, (item: T) => ItemMatches(item, term, fields, get, lower))
  }

  /** Searching the result of a search again with the same arguments changes nothing. */
  lemma SearchDataIdempotent<T, F>(data: seq<T>, term: string, fields: seq<F>, get: (T, F) -> Value, lower: Text.CaseMap)
    ensures SearchData(SearchData(data, term, fields, get, lower), term, fields, get, lower)
         == SearchData(data, term, fields, get, lower)
  {
    if term != "" {
      var r := SearchData(data, term, fields, get, lower);
      FilterAll(r, (item: T) => ItemMatches(item, term, fields, get, lower));
    }
  }

  /** An item none of whose listed fields holds a string is never found by a non-empty term. */
  lemma NonStringFieldsNeverMatch<T, F>(data: seq<T>, term: string, fields: seq<F>, get: (T, F) -> Value, lower: Text.CaseMap, x: T)
    requires term != ""
    requires forall k :: 0 <= k < |fields| ==> !get(x, fields[k]).Str?
    ensures x !in SearchData(data, term, fields, get, lower)
  {
  }

  datatype DoctorField = Id | Name | Specialty | Phone | Email | Avatar | Experience | Qualification | AssignedCamps

  /** `doctor[field]`. */
  function DoctorValue(d: Doctor, f: DoctorField): Value
  {
    match f
    case Id => Str(d.id)
    case Name => Str(d.name)
    case Specialty => Str(d.specialty)
    case Phone => Str(d.phone)
    case Email => Str(d.email)
    case Avatar => Str(d.avatar)
    case Experience => Num(d.experience)
    case Qualification => Str(d.qualification)
    case AssignedCamps => Arr(seq(|d.assignedCamps|, i requires 0 <= i < |d.assignedCamps| => Str(d.assignedCamps[i])))
  }

  /** Searching a single field amounts to matching that field. */
  lemma SingleFieldMatches<T, F>(item: T, term: string, f: F, get: (T, F) -> Value, lower: Text.CaseMap)
    ensures ItemMatches(item, term, [f], get, lower) <==> FieldMatches(get(item, f), term, lower)
  {
    if FieldMatches(get(item, f), term, lower) {
      assert [f][0] == f;
    }
  }

  /** The search term "cardio" is already lowercase. The four lemmas after it show that, once
      lowercased, only the cardiologist's specialty contains it. */
  lemma LowerCardio()
    ensures Text.AsciiLower("cardio") == "cardio"
  {
  }

  lemma GeneralMedicineLacksCardio()
    ensures !Text.Contains(Text.AsciiLower("General Medicine"), "cardio")
  {
    Text.AsciiLowerMissing("General Medicine", 'o');
    Text.MissingCharNotContained(Text.AsciiLower("General Medicine"), "cardio", 'o');
  }

  lemma CardiologyHasCardio()
    ensures Text.Contains(Text.AsciiLower("Cardiology"), "cardio")
  {
    var s := Text.AsciiLower("Cardiology");
    assert s[0] == 'c' && s[1] == 'a' && s[2] == 'r' && s[3] == 'd' && s[4] == 'i' && s[5] == 'o';
    assert s[..6] == "cardio";
    assert Text.StartsWith(s, "cardio");
  }

  lemma OrthopedicsLacksCardio()
    ensures !Text.Contains(Text.AsciiLower("Orthopedics"), "cardio")
  {
    Text.AsciiLowerMissing("Orthopedics", 'a');
    Text.MissingCharNotContained(Text.AsciiLower("Orthopedics"), "cardio", 'a');
  }

  lemma GynecologyLacksCardio()
    ensures !Text.Contains(Text.AsciiLower("Gynecology"), "cardio")
  {
    Text.AsciiLowerMissing("Gynecology", 'a');
    Text.MissingCharNotContained(Text.AsciiLower("Gynecology"), "cardio", 'a');
  }

  /** Searching the specialty field alone is `includes` on the lowercased specialty. */
  lemma SpecialtyMatch(d: Doctor, term: string)
    ensures ItemMatches(d, term, [Specialty], DoctorValue, Text.AsciiLower) <==>
      Text.Contains(Text.AsciiLower(d.specialty), Text.AsciiLower(term))
  {
    SingleFieldMatches(d, term, Specialty, DoctorValue, Text.AsciiLower);
  }

  lemma CardioMatchDoctor0()
    ensures !ItemMatches(MockDoctors[0], "cardio", [Specialty], DoctorValue, Text.AsciiLower)
  {
    SpecialtyMatch(Doctor1, "cardio");
    LowerCardio();
    GeneralMedicineLacksCardio();
  }

  lemma CardioMatchDoctor1()
    ensures ItemMatches(MockDoctors[1], "cardio", [Specialty], DoctorValue, Text.AsciiLower)
  {
    SpecialtyMatch(Doctor2, "cardio");
    LowerCardio();
    CardiologyHasCardio();
  }

  lemma CardioMatchDoctor2()
    ensures !ItemMatches(MockDoctors[2], "cardio", [Specialty], DoctorValue, Text.AsciiLower)
  {
    SpecialtyMatch(Doctor3, "cardio");
    LowerCardio();
    OrthopedicsLacksCardio();
  }

  lemma CardioMatchDoctor3()
    ensures !ItemMatches(MockDoctors[3], "cardio", [Specialty], DoctorValue, Text.AsciiLower)
  {
    SpecialtyMatch(Doctor4, "cardio");
    LowerCardio();
    GynecologyLacksCardio();
  }

  /** Searching the seed doctors' specialty for "cardio" finds exactly the cardiologist. */
  lemma SearchCardioScenario()
    ensures SearchData(MockDoctors, "cardio", [Specialty], DoctorValue, Text.AsciiLower) == [MockDoctors[1]]
  {
    CardioMatchDoctor0();
    CardioMatchDoctor1();
    CardioMatchDoctor2();
    CardioMatchDoctor3();
    var p := (item: Doctor) => ItemMatches(item, "cardio", [Specialty], DoctorValue, Text.AsciiLower);
    var ds := MockDoctors;
    assert Filter(ds[3..], p) == [] by {
      assert ds[3..][1..] == [];
    }
    assert Filter(ds[2..], p) == [] by {
      assert ds[2..][1..] == ds[3..];
    }
    assert Filter(ds[1..], p) == [ds[1]] by {
      assert ds[1..][1..] == ds[2..];
    }
    assert ds[1..] == ds[0..][1..];
  }

  /** Lookups by id on the seed: a present id finds its doctor or camp. */
  lemma LookupScenario()
    ensures GetDoctorById("2") == Some(MockDoctors[1])
    ensures GetCampById("3") == Some(MockCamps[2])
  {
    assert MockDoctors[0].id == "1" && MockDoctors[1].id == "2";
    assert MockCamps[0].id == "1" && MockCamps[1].id == "2" && MockCamps[2].id == "3";
  }

  /** An id that no seed doctor has finds nothing. */
  lemma AbsentDoctorScenario()
    ensures GetDoctorById("9") == None
  {
    assert forall d :: d in MockDoctors ==> d.id in {"1", "2", "3", "4"};
  }
}

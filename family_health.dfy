/** The family health page: the seed families, the search plus health-status filter, adding a
    member to a family (with its comma-separated list fields), the statistic cards, and the
    per-family health-status counts. */
module FamilyHealth {
  import opened Wrappers
  import opened Seqs
  import Text
  import JsNumber

  datatype HealthStatus = Excellent | Good | Fair | Poor | Critical
  {
    /** The status as the source spells it. */
    function Name(): string
    {
      match this
      case Excellent => "excellent" case Good => "good" case Fair => "fair"
      case Poor => "poor" case Critical => "critical"
    }

    /** Excellent and good members are healthy; the rest need attention. */
    predicate Healthy()
    {
      this == Excellent || this == Good
    }
  }

  datatype Relation = Spouse | Child | Parent | Sibling | Other

  datatype Gender = Male | Female

  datatype Member = Member(
    id: string, name: string, relation: Relation, age: int, gender: Gender,
    healthStatus: HealthStatus, lastCheckup: string, conditions: seq<string>,
    medications: seq<string>, nextAppointment: Option<string>, bloodGroup: Option<string>,
    allergies: seq<string>)

  datatype Family = Family(
    id: string, headName: string, phone: string, address: string, registrationDate: string,
    totalMembers: int, members: seq<Member>, emergencyContact: string,
    insuranceDetails: Option<string>)

  const M001: Member :=
    Member("M001", "राम कुमार", Spouse, 45, Male, Good, "2025-07-10",
      ["मधुमेह"], ["मेटफॉर्मिन 500mg"], Some("2025-08-10"), Some("B+"), [])
  const M002: Member :=
    Member("M002", "सुनीता कुमार", Spouse, 40, Female, Excellent, "2025-07-12",
      [], [], None, Some("O+"), ["पेनिसिलिन"])
  const M003: Member :=
    Member("M003", "आर्यन कुमार", Child, 15, Male, Good, "2025-06-20",
      ["अस्थमा"], ["इन्हेलर"], None, Some("B+"), ["धूल"])
  const M004: Member :=
    Member("M004", "प्रिया कुमार", Child, 12, Female, Excellent, "2025-07-05",
      [], [], None, Some("O+"), [])

  const M005: Member :=
    Member("M005", "मोहन लाल", Spouse, 62, Male, Fair, "2025-07-08",
      ["उच्च रक्तचाप", "गठिया"], ["एम्लोडिपाइन 5mg", "डिक्लोफेनाक"], Some("2025-07-22"), Some("A+"), [])
  const M006: Member :=
    Member("M006", "गीता देवी", Spouse, 58, Female, Good, "2025-07-01",
      ["मधुमेह"], ["मेटफॉर्मिन 850mg"], None, Some("A+"), ["सल्फा ड्रग्स"])
  const M007: Member :=
    Member("M007", "राहुल लाल", Child, 28, Male, Excellent, "2025-06-15",
      [], [], None, Some("A+"), [])

  const M008: Member :=
    Member("M008", "सुनीता देवी", Spouse, 35, Female, Good, "2025-07-14",
      [], [], Some("2025-08-14"), Some("AB+"), [])
  const M009: Member :=
    Member("M009", "विकास गुप्ता", Spouse, 38, Male, Fair, "2025-07-11",
      ["उच्च रक्तचाप"], ["लोसार्टन 50mg"], None, Some("AB+"), ["आयोडीन"])
  const M010: Member :=
    Member("M010", "अनिका गुप्ता", Child, 10, Female, Excellent, "2025-07-13",
      [], [], None, Some("AB+"), [])
  const M011: Member :=
    Member("M011", "आदित्य गुप्ता", Child, 7, Male, Good, "2025-07-13",
      ["एलर्जिक राइनाइटिस"], ["सेटिरिजिन"], None, Some("AB+"), ["पराग"])
  const M012: Member :=
    Member("M012", "कमला देवी", Parent, 68, Female, Poor, "2025-07-09",
      ["मधुमेह", "गठिया", "कमजोर दृष्टि"], ["मेटफॉर्मिन 1000mg", "डिक्लोफेनाक", "आई ड्रॉप्स"], Some("2025-07-20"), Some("O-"), ["पेनिसिलिन"])

  const M013: Member :=
    Member("M013", "अजय सिंह", Spouse, 42, Male, Critical, "2025-07-15",
      ["हृदय रोग", "मधुमेह", "उच्च रक्तचाप"], ["एटोरवास्टेटिन", "मेटोप्रोलोल", "इंसुलिन"], Some("2025-07-18"), Some("B-"), [])
  const M014: Member :=
    Member("M014", "प्रिया सिंह", Spouse, 38, Female, Good, "2025-07-12",
      ["एनीमिया"], ["आयरन टैबलेट"], None, Some("B+"), [])
  const M015: Member :=
    Member("M015", "रोहित सिंह", Child, 16, Male, Excellent, "2025-06-28",
      [], [], None, Some("B+"), ["मूंगफली"])

  const F001: Family :=
    Family("F001", "राम कुमार", "9876543210", "दुर्ग, छत्तीसगढ़", "2025-01-15", 4,
      [M001, M002, M003, M004], "9876543211", Some("CGHS - 123456789"))

  const F002: Family :=
    Family("F002", "मोहन लाल", "8765432109", "रायपुर, छत्तीसगढ़", "2025-02-20", 3,
      [M005, M006, M007], "8765432108", None)

  const F003: Family :=
    Family("F003", "सुनीता देवी", "7654321098", "बिलासपुर, छत्तीसगढ़", "2025-03-10", 5,
      [M008, M009, M010, M011, M012], "7654321097", Some("ESI - 987654321"))

  const F004: Family :=
    Family("F004", "अजय सिंह", "6543210987", "कोरबा, छत्तीसगढ़", "2025-04-25", 3,
      [M013, M014, M015], "6543210986", None)

  /** The four seed families. */
  const SeedFamilies: seq<Family> := [F001, F002, F003, F004]

  /** Every family's `totalMembers` counts its member records. */
  predicate Consistent(families: seq<Family>)
  {
    forall i :: 0 <= i < |families| ==> families[i].totalMembers == |families[i].members|
  }

  lemma SeedConsistent()
    ensures Consistent(SeedFamilies)
  {
    assert F001.totalMembers == |F001.members| == 4;
    assert F002.totalMembers == |F002.members| == 3;
    assert F003.totalMembers == |F003.members| == 5;
    assert F004.totalMembers == |F004.members| == 3;
  }

  // ---------------------------------------------------------------- search and status filter

  /** The search: the lowercased head name or address includes the lowercased term, or the
      phone includes the term as typed. */
  predicate MatchesSearch(f: Family, term: string, lower: Text.CaseMap)
  {
    Text.Contains(lower(f.headName), lower(term)) || Text.Contains(f.phone, term)
    || Text.Contains(lower(f.address), lower(term))
  }

  /** A member counts for the status filter: `needs-attention` takes fair, poor and critical
      members; any other value takes the members whose status has exactly that name. */
  predicate MemberHasStatus(m: Member, statusFilter: string)
  {
    if statusFilter == "needs-attention" then !m.healthStatus.Healthy()
    else m.healthStatus.Name() == statusFilter
  }

  predicate HasStatusMember(f: Family, statusFilter: string)
  {
    exists k :: 0 <= k < |f.members| && MemberHasStatus(f.members[k], statusFilter)
  }

  /** `filteredFamilies`' predicate: with `all` only the search applies. */
  predicate FamilyKept(f: Family, term: string, statusFilter: string, lower: Text.CaseMap)
  {
    if statusFilter == "all" then MatchesSearch(f, term, lower)
    else MatchesSearch(f, term, lower) && HasStatusMember(f, statusFilter)
  }

  function FilteredFamilies(families: seq<Family>, term: string, statusFilter: string, lower: Text.CaseMap): (r: seq<Family>)
    ensures IsSubsequence(r, families)
    ensures forall f :: f in r ==> FamilyKept(f, term, statusFilter, lower)
    ensures forall i :: 0 <= i < |families| && FamilyKept(families[i], term, statusFilter, lower) ==> families[i] in r
    ensures forall i {:trigger multiset(r)[families[i]]} :: 0 <= i < |families| ==>
      multiset(r)[families[i]] == if FamilyKept(families[i], term, statusFilter, lower) then multiset(families)[families[i]] else 0
  {
    Filter(families, (f: Family) => FamilyKept(f, term, statusFilter, lower))
  }

  /** With `all` and an empty search every family is listed (lowercasing keeps "" empty). */
  lemma AllAndEmptySearchKeepsAll(families: seq<Family>, lower: Text.CaseMap)
    requires lower("") == ""
    ensures FilteredFamilies(families, "", "all", lower) == families
  {
    forall f | f in families
      ensures FamilyKept(f, "", "all", lower)
    {
      Text.ContainsEmpty(lower(f.headName));
    }
    FilterAll(families, (f: Family) => FamilyKept(f, "", "all", lower));
  }

  /** With `needs-attention`, a family is kept iff it matches the search and has a fair, poor or
      critical member. */
  lemma NeedsAttentionIff(f: Family, term: string, lower: Text.CaseMap)
    ensures FamilyKept(f, term, "needs-attention", lower) <==>
      MatchesSearch(f, term, lower) &&
      exists k :: 0 <= k < |f.members| && f.members[k].healthStatus in {Fair, Poor, Critical}
  {
    if FamilyKept(f, term, "needs-attention", lower) {
      var k :| 0 <= k < |f.members| && MemberHasStatus(f.members[k], "needs-attention");
      assert f.members[k].healthStatus in {Fair, Poor, Critical};
    }
    if MatchesSearch(f, term, lower) &&
      exists k :: 0 <= k < |f.members| && f.members[k].healthStatus in {Fair, Poor, Critical} {
      var k :| 0 <= k < |f.members| && f.members[k].healthStatus in {Fair, Poor, Critical};
      assert MemberHasStatus(f.members[k], "needs-attention");
    }
  }

  /** A status filter value that names no status (and is neither `all` nor `needs-attention`)
      lists no family. */
  lemma UnknownStatusKeepsNone(families: seq<Family>, term: string, statusFilter: string, lower: Text.CaseMap)
    requires statusFilter !in {"all", "needs-attention", "excellent", "good", "fair", "poor", "critical"}
    ensures FilteredFamilies(families, term, statusFilter, lower) == []
  {
    assert forall f :: f in families ==> !FamilyKept(f, term, statusFilter, lower);
    FilterNone(families, (f: Family) => FamilyKept(f, term, statusFilter, lower));
  }

  // ---------------------------------------------------------------- adding a member

  /** The add-member form, as typed. */
  datatype MemberForm = MemberForm(
    name: string, relation: Relation, age: string, gender: Gender, bloodGroup: string,
    conditions: string, medications: string, allergies: string)

  const EmptyMemberForm := MemberForm("", Child, "", Male, "", "", "", "")

  /** A comma-list field: nothing for an empty string, otherwise the comma-separated pieces,
      trimmed. */
  function ParseList(s: string): (r: seq<string>)
    ensures s == "" ==> r == []
    ensures s != "" ==> |r| == Text.CountChar(s, ',') + 1
    ensures forall k :: 0 <= k < |r| ==> ',' !in r[k]
    ensures s != "" ==> forall k :: 0 <= k < |r| ==> r[k] == Text.Trim(Text.Split(s, ',')[k])
  {
    if s == "" then []
    else
      var pieces := Text.Split(s, ',');
      var r := seq(|pieces|, k requires 0 <= k < |pieces| => Text.Trim(pieces[k]));
      assert forall k :: 0 <= k < |r| ==> ',' !in r[k] by {
        forall k | 0 <= k < |r| {
          Text.TrimKeepsAbsent(pieces[k], ',');
        }
      }
      r
  }

  /** Items with no comma and no surrounding whitespace, joined with commas, parse back. */
  lemma ParseListJoin(items: seq<string>)
    requires items != [] && items != [""]
    requires forall k :: 0 <= k < |items| ==> ',' !in items[k] && Text.Trim(items[k]) == items[k]
    ensures ParseList(Text.Join(items, ',')) == items
  {
    var s := Text.Join(items, ',');
    Text.SplitJoin(items, ',');
  }

  /** The member `handleAddMember` builds: `memberId` stands for `M` followed by `Date.now()`,
      `today` for the ISO date, and `age` for `Number(newMember.age)`. */
  function NewMember(form: MemberForm, memberId: string, today: string, age: int): (m: Member)
    ensures m.id == memberId && m.name == form.name && m.relation == form.relation
    ensures m.age == age && m.gender == form.gender && m.healthStatus == Good
    ensures m.lastCheckup == today && m.nextAppointment.None? && m.bloodGroup == Some(form.bloodGroup)
    ensures m.conditions == ParseList(form.conditions) && m.medications == ParseList(form.medications)
    ensures m.allergies == ParseList(form.allergies)
  {
    Member(memberId, form.name, form.relation, age, form.gender, Good, today,
      ParseList(form.conditions), ParseList(form.medications), None, Some(form.bloodGroup),
      ParseList(form.allergies))
  }

  /** `M${String(Date.now())}`: an `M` followed by the clock's decimal digits. */
  function MemberIdAt(now: nat): (id: string)
    ensures |id| >= 2 && id[0] == 'M'
    ensures forall i :: 1 <= i < |id| ==> '0' <= id[i] <= '9'
  {
    "M" + JsNumber.NatToString(now)
  }

  /** The digits after the `M` read back, through `parseInt`, as the clock value. */
  lemma MemberIdReadsBack(now: nat)
    ensures JsNumber.ParseInt(MemberIdAt(now)[1..]) == JsNumber.Int(now)
  {
    assert MemberIdAt(now)[1..] == JsNumber.NatToString(now);
    JsNumber.ParseNumeral(now);
  }

  /** Different clock values give different member ids. */
  lemma MemberIdsDistinct(a: nat, b: nat)
    requires a != b
    ensures MemberIdAt(a) != MemberIdAt(b)
  {
    MemberIdReadsBack(a);
    MemberIdReadsBack(b);
  }

  /** One family with a member appended. */
  function WithMember(f: Family, m: Member): (g: Family)
    ensures g.members == f.members + [m] && g.totalMembers == f.totalMembers + 1
    ensures g.id == f.id && g.headName == f.headName && g.phone == f.phone && g.address == f.address
    ensures g.registrationDate == f.registrationDate && g.emergencyContact == f.emergencyContact
    ensures g.insuranceDetails == f.insuranceDetails
  {
    f.(members := f.members + [m], totalMembers := f.totalMembers + 1)
  }

  /** `prev.map(...)`: the families with that id get the member; the rest stay. */
  function AddMember(families: seq<Family>, familyId: string, m: Member): (r: seq<Family>)
    ensures |r| == |families|
    ensures forall i :: 0 <= i < |r| && families[i].id != familyId ==> r[i] == families[i]
    ensures forall i :: 0 <= i < |r| && families[i].id == familyId ==> r[i] == WithMember(families[i], m)
  {
    seq(|families|, i requires 0 <= i < |families| =>
      if families[i].id == familyId then WithMember(families[i], m) else families[i])
  }

  /** Adding a member keeps every family's count equal to its member records. */
  lemma AddMemberPreservesConsistent(families: seq<Family>, familyId: string, m: Member)
    requires Consistent(families)
    ensures Consistent(AddMember(families, familyId, m))
  {
  }

  // ---------------------------------------------------------------- statistics

  function MemberCount(f: Family): int
  {
    |f.members|
  }

  function TotalMembersOf(f: Family): int
  {
    f.totalMembers
  }

  function HealthyCount(f: Family): int
  {
    |Filter(f.members, (m: Member) => m.healthStatus.Healthy())|
  }

  function AttentionCount(f: Family): int
  {
    |Filter(f.members, (m: Member) => !m.healthStatus.Healthy())|
  }

  datatype Statistics = Statistics(totalFamilies: nat, totalMembers: int, healthyMembers: int, needsAttention: int)

  /** The four cards: families, the sum of `totalMembers`, healthy and needs-attention members. */
  function StatisticsOf(families: seq<Family>): (s: Statistics)
    ensures s.totalFamilies == |families|
  {
    Statistics(|families|, Sum(families, TotalMembersOf), Sum(families, HealthyCount),
      Sum(families, AttentionCount))
  }

  /** Healthy and needs-attention members together are all the member records. */
  lemma {:induction false} HealthyPlusAttention(families: seq<Family>)
    ensures StatisticsOf(families).healthyMembers + StatisticsOf(families).needsAttention
         == Sum(families, MemberCount)
  {
    if families != [] {
      var f := families[0];
      FilterPartition(f.members, (m: Member) => m.healthStatus.Healthy(), (m: Member) => !m.healthStatus.Healthy());
      HealthyPlusAttention(families[1..]);
    }
  }

  /** On consistent families the members card equals the member records. */
  lemma {:induction false} TotalMembersCountsRecords(families: seq<Family>)
    requires Consistent(families)
    ensures StatisticsOf(families).totalMembers == Sum(families, MemberCount)
  {
    if families != [] {
      assert Consistent(families[1..]) by {
        forall i | 0 <= i < |families[1..]|
          ensures families[1..][i].totalMembers == |families[1..][i].members|
        {
          assert families[1..][i] == families[i + 1];
        }
      }
      TotalMembersCountsRecords(families[1..]);
    }
  }

  /** Adding a member raises the members card by one for each family with that id. */
  lemma {:induction false} AddMemberRaisesTotal(families: seq<Family>, familyId: string, m: Member)
    ensures StatisticsOf(AddMember(families, familyId, m)).totalMembers
         == StatisticsOf(families).totalMembers + |Filter(families, (f: Family) => f.id == familyId)|
  {
    if families != [] {
      var r := AddMember(families, familyId, m);
      assert r[1..] == AddMember(families[1..], familyId, m);
      AddMemberRaisesTotal(families[1..], familyId, m);
    }
  }

  /** The cards count members through their statuses alone. */
  lemma {:induction false} CountsByStatuses(members: seq<Member>, sts: seq<HealthStatus>)
    requires |sts| == |members|
    requires forall k :: 0 <= k < |members| ==> members[k].healthStatus == sts[k]
    ensures |Filter(members, (m: Member) => m.healthStatus.Healthy())| == |Filter(sts, (st: HealthStatus) => st.Healthy())|
    ensures |Filter(members, (m: Member) => !m.healthStatus.Healthy())| == |Filter(sts, (st: HealthStatus) => !st.Healthy())|
  {
    if members != [] {
      CountsByStatuses(members[1..], sts[1..]);
    }
  }

  lemma SeedCounts0()
    ensures HealthyCount(F001) == 4 && AttentionCount(F001) == 0
  {
    var ms := F001.members;
    CountsByStatuses(ms, [Good, Excellent, Good, Excellent]);
  }

  lemma SeedCounts1()
    ensures HealthyCount(F002) == 2 && AttentionCount(F002) == 1
  {
    var ms := F002.members;
    CountsByStatuses(ms, [Fair, Good, Excellent]);
  }

  lemma SeedCounts2()
    ensures HealthyCount(F003) == 3 && AttentionCount(F003) == 2
  {
    var ms := F003.members;
    assert |ms| == 5;
    assert ms[0].healthStatus == Good && ms[1].healthStatus == Fair && ms[2].healthStatus == Excellent;
    assert ms[3].healthStatus == Good && ms[4].healthStatus == Poor;
    CountsByStatuses(ms, [Good, Fair, Excellent, Good, Poor]);
    SeedStatuses2();
  }

  lemma SeedStatuses2()
    ensures |Filter([Good, Fair, Excellent, Good, Poor], (st: HealthStatus) => st.Healthy())| == 3
    ensures |Filter([Good, Fair, Excellent, Good, Poor], (st: HealthStatus) => !st.Healthy())| == 2
  {
    SeedHealthy2();
    SeedAttention2();
  }

  lemma SeedHealthy2()
    ensures |Filter([Good, Fair, Excellent, Good, Poor], (st: HealthStatus) => st.Healthy())| == 3
  {
    var p := (st: HealthStatus) => st.Healthy();
    assert [Good, Fair, Excellent, Good, Poor] == [Good, Fair, Excellent] + [Good, Poor];
    FilterAppend([Good, Fair, Excellent], [Good, Poor], p);
    assert |Filter([Good, Fair, Excellent], p)| == 2;
    assert |Filter([Good, Poor], p)| == 1;
  }

  lemma SeedAttention2()
    ensures |Filter([Good, Fair, Excellent, Good, Poor], (st: HealthStatus) => !st.Healthy())| == 2
  {
    var p := (st: HealthStatus) => !st.Healthy();
    assert [Good, Fair, Excellent, Good, Poor] == [Good, Fair, Excellent] + [Good, Poor];
    FilterAppend([Good, Fair, Excellent], [Good, Poor], p);
    assert |Filter([Good, Fair, Excellent], p)| == 1;
    assert |Filter([Good, Poor], p)| == 1;
  }

  lemma SeedCounts3()
    ensures HealthyCount(F004) == 2 && AttentionCount(F004) == 1
  {
    var ms := F004.members;
    CountsByStatuses(ms, [Critical, Good, Excellent]);
  }

  /** The seed's cards: 4 families, 15 members, 11 healthy, 4 needing attention. */
  lemma SeedStatistics()
    ensures StatisticsOf(SeedFamilies) == Statistics(4, 15, 11, 4)
  {
    var fs := SeedFamilies;
    SeedCounts0();
    SeedCounts1();
    SeedCounts2();
    SeedCounts3();
    SumOfFour(fs, TotalMembersOf);
    SumOfFour(fs, HealthyCount);
    SumOfFour(fs, AttentionCount);
  }

  // ---------------------------------------------------------------- per-family counts

  function StatusCount(members: seq<Member>, st: HealthStatus): nat
  {
    |Filter(members, (m: Member) => m.healthStatus == st)|
  }

  /** `acc[status] || 0` for a status without an entry. */
  function CountOrZero(counts: map<HealthStatus, nat>, st: HealthStatus): nat
  {
    if st in counts then counts[st] else 0
  }

  /** The five status counts add up to the members. */
  lemma {:induction false} StatusCountsSum(members: seq<Member>)
    ensures StatusCount(members, Excellent) + StatusCount(members, Good) + StatusCount(members, Fair)
          + StatusCount(members, Poor) + StatusCount(members, Critical) == |members|
  {
    if members != [] {
      StatusCountsSum(members[1..]);
    }
  }

  /** `healthCounts`: one entry per status present among the members, holding how many have it.
      The accumulator is updated in place, one member at a time. */
  method HealthCounts(members: seq<Member>) returns (counts: map<HealthStatus, nat>)
    ensures forall st :: st in counts <==> StatusCount(members, st) > 0
    ensures forall st :: CountOrZero(counts, st) == StatusCount(members, st)
  {
    counts := map[];
    var i := 0;
    while i < |members|
      invariant 0 <= i <= |members|
      invariant forall st :: st in counts <==> StatusCount(members[..i], st) > 0
      invariant forall st :: CountOrZero(counts, st) == StatusCount(members[..i], st)
    {
      var member := members[i];
      assert members[..i + 1] == members[..i] + [member];
      forall st | true
        ensures StatusCount(members[..i + 1], st) == StatusCount(members[..i], st) + (if member.healthStatus == st then 1 else 0)
      {
        FilterAppend(members[..i], [member], (m: Member) => m.healthStatus == st);
        assert [member][1..] == [];
      }
      counts := counts[member.healthStatus := CountOrZero(counts, member.healthStatus) + 1];
      i := i + 1;
    }
    assert members[..i] == members;
  }

  /** The per-family counts add up to the family's members. */
  method HealthCountsTotal(f: Family) returns (total: nat)
    ensures total == |f.members|
  {
    var counts := HealthCounts(f.members);
    total := CountOrZero(counts, Excellent) + CountOrZero(counts, Good) + CountOrZero(counts, Fair)
           + CountOrZero(counts, Poor) + CountOrZero(counts, Critical);
    StatusCountsSum(f.members);
  }

  // ---------------------------------------------------------------- page state

  class FamilyHealthPage {
    var searchTerm: string
    var statusFilter: string
    var selectedFamily: Option<Family>
    var showAddMember: bool
    var families: seq<Family>
    var newMember: MemberForm
    const lower: Text.CaseMap

    ghost predicate Valid()
      reads this
    {
      Consistent(families)
    }

    constructor (lower: Text.CaseMap)
      ensures Valid()
      ensures searchTerm == "" && statusFilter == "all" && selectedFamily.None? && !showAddMember
      ensures families == SeedFamilies && newMember == EmptyMemberForm && this.lower == lower
    {
      searchTerm := "";
      statusFilter := "all";
      selectedFamily := None;
      showAddMember := false;
      families := SeedFamilies;
      newMember := EmptyMemberForm;
      this.lower := lower;
      SeedConsistent();
    }

    /** The families listed. */
    function Listed(): seq<Family>
      reads this
    {
      FilteredFamilies(families, searchTerm, statusFilter, lower)
    }

    /** The details modal is shown while a family is selected and the add form is closed. */
    predicate DetailsShown()
      reads this
    {
      selectedFamily.Some? && !showAddMember
    }

    /** `handleAddMember`: with a family selected, append the new member to every family with
        its id, close the form and clear it. The selected family is left as it was. */
    method HandleAddMember(now: nat, today: string, age: int)
      requires Valid()
      modifies this
      ensures Valid()
      ensures old(selectedFamily).None? ==> families == old(families) && newMember == old(newMember) && showAddMember == old(showAddMember)
      ensures old(selectedFamily).Some? ==>
        families == AddMember(old(families), old(selectedFamily).value.id, NewMember(old(newMember), MemberIdAt(now), today, age))
        && !showAddMember && newMember == EmptyMemberForm
      ensures selectedFamily == old(selectedFamily)
      ensures searchTerm == old(searchTerm) && statusFilter == old(statusFilter)
    {
      if selectedFamily.None? {
        return;
      }
      var member := NewMember(newMember, MemberIdAt(now), today, age);
      AddMemberPreservesConsistent(families, selectedFamily.value.id, member);
      families := AddMember(families, selectedFamily.value.id, member);
      showAddMember := false;
      newMember := EmptyMemberForm;
    }

    /** The add handler as evidently intended: the selected family is refreshed as well, so the
        details modal that reopens shows the new member. */
    method HandleAddMemberAndRefresh(now: nat, today: string, age: int)
      requires Valid()
      modifies this
      ensures Valid()
      ensures old(selectedFamily).None? ==>
        families == old(families) && selectedFamily.None?
        && newMember == old(newMember) && showAddMember == old(showAddMember)
      ensures old(selectedFamily).Some? ==>
        var m := NewMember(old(newMember), MemberIdAt(now), today, age);
        families == AddMember(old(families), old(selectedFamily).value.id, m)
        && selectedFamily == Some(WithMember(old(selectedFamily).value, m))
        && !showAddMember && newMember == EmptyMemberForm
      ensures searchTerm == old(searchTerm) && statusFilter == old(statusFilter)
    {
      if selectedFamily.None? {
        return;
      }
      var member := NewMember(newMember, MemberIdAt(now), today, age);
      HandleAddMember(now, today, age);
      selectedFamily := Some(WithMember(selectedFamily.value, member));
    }

    /** A card's "view members" button. */
    method ViewFamily(f: Family)
      modifies this
      ensures selectedFamily == Some(f)
      ensures families == old(families) && showAddMember == old(showAddMember) && newMember == old(newMember)
      ensures searchTerm == old(searchTerm) && statusFilter == old(statusFilter)
    {
      selectedFamily := Some(f);
    }

    /** A card's "add member" button. */
    method OpenAddMember(f: Family)
      modifies this
      ensures selectedFamily == Some(f) && showAddMember
      ensures families == old(families) && newMember == old(newMember)
      ensures searchTerm == old(searchTerm) && statusFilter == old(statusFilter)
    {
      selectedFamily := Some(f);
      showAddMember := true;
    }

    /** The details modal's "add member" button. */
    method OpenAddFromDetails()
      modifies this
      ensures showAddMember
      ensures selectedFamily == old(selectedFamily) && families == old(families) && newMember == old(newMember)
      ensures searchTerm == old(searchTerm) && statusFilter == old(statusFilter)
    {
      showAddMember := true;
    }

    /** The details modal's close buttons. */
    method CloseDetails()
      modifies this
      ensures selectedFamily.None?
      ensures families == old(families) && showAddMember == old(showAddMember) && newMember == old(newMember)
      ensures searchTerm == old(searchTerm) && statusFilter == old(statusFilter)
    {
      selectedFamily := None;
    }

    /** The add form's cancel and close buttons. */
    method CancelAddMember()
      modifies this
      ensures !showAddMember
      ensures selectedFamily == old(selectedFamily) && families == old(families) && newMember == old(newMember)
      ensures searchTerm == old(searchTerm) && statusFilter == old(statusFilter)
    {
      showAddMember := false;
    }

    method SetSearchTerm(term: string)
      modifies this
      ensures searchTerm == term
      ensures selectedFamily == old(selectedFamily) && families == old(families) && newMember == old(newMember)
      ensures showAddMember == old(showAddMember) && statusFilter == old(statusFilter)
    {
      searchTerm := term;
    }

    /** The status select; its options are `all`, `excellent`, `good` and `needs-attention`. */
    method SetStatusFilter(value: string)
      requires value in {"all", "excellent", "good", "needs-attention"}
      modifies this
      ensures statusFilter == value
      ensures selectedFamily == old(selectedFamily) && families == old(families) && newMember == old(newMember)
      ensures showAddMember == old(showAddMember) && searchTerm == old(searchTerm)
    {
      statusFilter := value;
    }

    /** A form input's `onChange`: `prev => ({...prev, field: value})`, given as the new form. */
    method SetNewMember(form: MemberForm)
      modifies this
      ensures newMember == form
      ensures selectedFamily == old(selectedFamily) && families == old(families)
      ensures showAddMember == old(showAddMember) && searchTerm == old(searchTerm) && statusFilter == old(statusFilter)
    {
      newMember := form;
    }
  }

  /** After adding a member from a family's card, the details modal opens on the family as it
      was: it lists four members while the family now has five. */
  method AddShowsStaleDetails(lower: Text.CaseMap) returns (shown: int, live: int)
    ensures shown == 4 && live == 5
  {
    var page := new FamilyHealthPage(lower);
    var f := page.families[0];
    page.OpenAddMember(f);
    page.HandleAddMember(0, "2025-07-20", 30);
    assert page.DetailsShown();
    shown := |page.selectedFamily.value.members|;
    live := |page.families[0].members|;
  }

  /** With the intended handler the same steps show the family with its new member. */
  method AddAndRefreshShowsNewMember(lower: Text.CaseMap) returns (shown: int, live: int)
    ensures shown == live == 5
  {
    var page := new FamilyHealthPage(lower);
    var f := page.families[0];
    page.OpenAddMember(f);
    page.HandleAddMemberAndRefresh(0, "2025-07-20", 30);
    assert page.DetailsShown();
    shown := |page.selectedFamily.value.members|;
    live := |page.families[0].members|;
  }
}

/** The doctors page: add, edit and delete over the doctor list, the add/edit form with its
    camp checkboxes, the delete confirmation, and the statistic cards. */
module Doctors {
  import opened Wrappers
  import opened Seqs
  import opened JsNumber
  import opened MockData

  /** The form's fields; experience is kept as the text typed into the number input. */
  datatype DoctorForm = DoctorForm(
    name: string, specialty: string, phone: string, email: string, experience: string,
    qualification: string, assignedCamps: seq<string>)

  /** `resetForm`'s value. */
  const EmptyForm := DoctorForm("", "", "", "", "", "", [])

  const AvatarA := "https://images.unsplash.com/photo-1612349317150-e413f6a5b16d?w=100&h=100&fit=crop&crop=face"
  const AvatarB := "https://images.unsplash.com/photo-1559839734-2b71ea197ec2?w=100&h=100&fit=crop&crop=face"

  /** The doctor `handleAddDoctor` builds from the form. `id` stands for `Date.now().toString()`
      and `coin` for `Math.random() > 0.5`. */
  function NewDoctor(form: DoctorForm, id: string, coin: bool): (d: Doctor)
    ensures d.id == id && d.avatar in {AvatarA, AvatarB}
    ensures d.name == form.name && d.specialty == form.specialty && d.phone == form.phone
    ensures d.email == form.email && d.qualification == form.qualification
    ensures d.assignedCamps == form.assignedCamps
    ensures d.experience == ParseInt(form.experience)
  {
    Doctor(id, form.name, form.specialty, form.phone, form.email,
      if coin then AvatarA else AvatarB, ParseInt(form.experience), form.qualification,
      form.assignedCamps)
  }

  /** `openEditModal`'s form: the doctor's fields, experience written with `toString()`. */
  function FormOf(d: Doctor): (f: DoctorForm)
    ensures f.name == d.name && f.specialty == d.specialty && f.phone == d.phone && f.email == d.email
    ensures f.qualification == d.qualification && f.assignedCamps == d.assignedCamps
  {
    DoctorForm(d.name, d.specialty, d.phone, d.email, ToString(d.experience), d.qualification,
      d.assignedCamps)
  }

  /** The doctor after an edit: the form's fields over the old record, id and avatar kept. */
  function Edited(d: Doctor, form: DoctorForm): (e: Doctor)
    ensures e.id == d.id && e.avatar == d.avatar
    ensures e == NewDoctor(form, d.id, true).(avatar := d.avatar)
  {
    d.(name := form.name, specialty := form.specialty, phone := form.phone, email := form.email,
       experience := ParseInt(form.experience), qualification := form.qualification,
       assignedCamps := form.assignedCamps)
  }

  /** The form's experience text parses back to the doctor's experience. */
  lemma FormOfExperience(d: Doctor)
    ensures ParseInt(FormOf(d).experience) == d.experience
  {
    ParseIntToString(d.experience);
  }

  /** Opening a doctor in the form and saving it unchanged gives the same doctor back. */
  lemma EditUnchangedIsIdentity(d: Doctor)
    ensures Edited(d, FormOf(d)) == d
  {
    FormOfExperience(d);
  }

  /** `doctors.map(...)`: every doctor with the edited id gets the form's fields; the rest stay. */
  function EditDoctors(doctors: seq<Doctor>, id: string, form: DoctorForm): (r: seq<Doctor>)
    ensures |r| == |doctors|
    ensures forall i :: 0 <= i < |r| ==> r[i].id == doctors[i].id && r[i].avatar == doctors[i].avatar
    ensures forall i :: 0 <= i < |r| && doctors[i].id != id ==> r[i] == doctors[i]
    ensures forall i :: 0 <= i < |r| && doctors[i].id == id ==> r[i] == Edited(doctors[i], form)
  {
    seq(|doctors|, i requires 0 <= i < |doctors| =>
      if doctors[i].id == id then Edited(doctors[i], form) else doctors[i])
  }

  /** Doctor ids are unique. */
  predicate UniqueIds(doctors: seq<Doctor>)
  {
    forall i, j :: 0 <= i < |doctors| && 0 <= j < |doctors| && doctors[i].id == doctors[j].id ==> i == j
  }

  /** Saving the form `openEditModal` filled in, unchanged, leaves the list as it was. */
  lemma {:induction false} EditUnchangedIsNoOp(doctors: seq<Doctor>, k: nat)
    requires k < |doctors| && UniqueIds(doctors)
    ensures EditDoctors(doctors, doctors[k].id, FormOf(doctors[k])) == doctors
  {
    var r := EditDoctors(doctors, doctors[k].id, FormOf(doctors[k]));
    forall i | 0 <= i < |doctors|
      ensures r[i] == doctors[i]
    {
      if doctors[i].id == doctors[k].id {
        assert i == k;
        EditUnchangedIsIdentity(doctors[k]);
      }
    }
  }

  /** An edit of an id no doctor has changes nothing. */
  lemma EditAbsentIsNoOp(doctors: seq<Doctor>, id: string, form: DoctorForm)
    requires forall d :: d in doctors ==> d.id != id
    ensures EditDoctors(doctors, id, form) == doctors
  {
    var r := EditDoctors(doctors, id, form);
    assert forall i :: 0 <= i < |doctors| ==> doctors[i] in doctors;
  }

  /** `doctors.filter(doctor => doctor.id !== id)`. */
  function WithoutDoctor(doctors: seq<Doctor>, id: string): (r: seq<Doctor>)
    ensures IsSubsequence(r, doctors)
    ensures forall d :: d in r ==> d.id != id
    ensures forall i :: 0 <= i < |doctors| && doctors[i].id != id ==> doctors[i] in r
    ensures |r| + |Filter(doctors, (d: Doctor) => d.id == id)| == |doctors|
  {
    FilterPartition(doctors, (d: Doctor) => d.id != id, (d: Doctor) => d.id == id);
    Filter(doctors, (d: Doctor) => d.id != id)
  }

  /** Deleting an id no doctor has changes nothing. */
  lemma DeleteAbsentIsNoOp(doctors: seq<Doctor>, id: string)
    requires forall d :: d in doctors ==> d.id != id
    ensures WithoutDoctor(doctors, id) == doctors
  {
    FilterAll(doctors, (d: Doctor) => d.id != id);
  }

  /** Deleting an id held by one doctor in the middle of a list drops just that doctor. */
  lemma DeleteOne(pre: seq<Doctor>, d: Doctor, post: seq<Doctor>)
    requires forall x :: x in pre ==> x.id != d.id
    requires forall x :: x in post ==> x.id != d.id
    ensures WithoutDoctor(pre + [d] + post, d.id) == pre + post
  {
    FilterDropsOne(pre, d, post, (x: Doctor) => x.id != d.id);
  }

  /** On the seed: deleting doctor "2" leaves doctors 1, 3 and 4 in order. */
  lemma DeleteScenario()
    ensures WithoutDoctor(MockDoctors, "2") == [MockDoctors[0], MockDoctors[2], MockDoctors[3]]
  {
    var ds := MockDoctors;
    assert ds[0].id == "1" && ds[1].id == "2" && ds[2].id == "3" && ds[3].id == "4";
    assert ds == [ds[0]] + [ds[1]] + [ds[2], ds[3]];
    DeleteOne([ds[0]], ds[1], [ds[2], ds[3]]);
  }

  // ---------------------------------------------------------------- camp checkboxes

  predicate IsScheduled(c: Camp)
  {
    c.status == "scheduled"
  }

  /** The camps offered as checkboxes: those whose status is `scheduled`. */
  function OfferedCamps(): (r: seq<Camp>)
    ensures IsSubsequence(r, MockCamps)
    ensures forall c :: c in r ==> c.status == "scheduled"
    ensures forall i :: 0 <= i < |MockCamps| && MockCamps[i].status == "scheduled" ==> MockCamps[i] in r
  {
    Filter(MockCamps, IsScheduled)
  }

  /** The ids of the offered camps on the seed. */
  const ScheduledCampIds: seq<string> := ["1", "2", "4"]

  /** Of four camps where only the third is not scheduled, the filter keeps the other three. */
  lemma KeepsScheduled(a: Camp, b: Camp, c: Camp, d: Camp)
    requires IsScheduled(a) && IsScheduled(b) && !IsScheduled(c) && IsScheduled(d)
    ensures Filter([a, b, c, d], IsScheduled) == [a, b, d]
  {
    FilterOfFour([a, b, c, d], IsScheduled);
  }

  /** On the seed, camps 1, 2 and 4 are scheduled and camp 3 is completed. */
  lemma SeedOfferedCamps()
    ensures OfferedCamps() == [MockCamps[0], MockCamps[1], MockCamps[3]]
  {
    KeepsScheduled(Camp1, Camp2, Camp3, Camp4);
  }

  lemma ScheduledCampIdsAreOffered()
    ensures OfferedCamps() == [MockCamps[0], MockCamps[1], MockCamps[3]]
    ensures forall k :: 0 <= k < |ScheduledCampIds| ==> ScheduledCampIds[k] == OfferedCamps()[k].id
  {
    SeedOfferedCamps();
    assert Camp1.id == "1" && Camp2.id == "2" && Camp4.id == "4";
  }

  /** Checking a camp appends its id. */
  function WithCamp(camps: seq<string>, id: string): (r: seq<string>)
    ensures r == camps + [id] && id in r
  {
    camps + [id]
  }

  /** Unchecking a camp removes every occurrence of its id. */
  function WithoutCamp(camps: seq<string>, id: string): (r: seq<string>)
    ensures id !in r
    ensures IsSubsequence(r, camps)
    ensures forall i :: 0 <= i < |camps| && camps[i] != id ==> camps[i] in r
    ensures forall i {:trigger multiset(r)[camps[i]]} :: 0 <= i < |camps| ==>
      multiset(r)[camps[i]] == if camps[i] != id then multiset(camps)[camps[i]] else 0
  {
    Filter(camps, (c: string) => c != id)
  }

  /** Checking and then unchecking a camp that was not assigned restores the list. */
  lemma CheckThenUncheck(camps: seq<string>, id: string)
    requires id !in camps
    ensures WithoutCamp(WithCamp(camps, id), id) == camps
  {
    var p := (c: string) => c != id;
    FilterAppend(camps, [id], p);
    FilterAll(camps, p);
  }

  /** The checkbox reflects `includes`; a click flips it, appending or removing the id. */
  function ClickCamp(camps: seq<string>, id: string): (r: seq<string>)
    ensures id in r <==> id !in camps
  {
    if id in camps then WithoutCamp(camps, id) else WithCamp(camps, id)
  }

  /** Two clicks on a camp that was not assigned restore the list. */
  lemma ClickCampTwice(camps: seq<string>, id: string)
    requires id !in camps
    ensures ClickCamp(ClickCamp(camps, id), id) == camps
  {
    CheckThenUncheck(camps, id);
  }

  // ---------------------------------------------------------------- statistic cards

  function SpecialtyOf(d: Doctor): string
  {
    d.specialty
  }

  /** The "Specialties" card: the number of distinct specialty strings. */
  function SpecialtyCount(doctors: seq<Doctor>): (n: nat)
    ensures n <= |doctors|
    ensures doctors != [] ==> n >= 1
  {
    DistinctCount(doctors, SpecialtyOf)
  }

  /** The "Available" card: the doctors assigned to at least one camp. */
  function AvailableCount(doctors: seq<Doctor>): (n: nat)
    ensures n <= |doctors|
    ensures n == |doctors| - |Filter(doctors, (d: Doctor) => d.assignedCamps == [])|
  {
    FilterPartition(doctors, (d: Doctor) => |d.assignedCamps| > 0, (d: Doctor) => d.assignedCamps == []);
    |Filter(doctors, (d: Doctor) => |d.assignedCamps| > 0)|
  }

  /** Adding a doctor raises the "Total Doctors" card by one and the "Available" card by one
      exactly when the new doctor has a camp. */
  lemma AddMovesCards(doctors: seq<Doctor>, d: Doctor)
    ensures |doctors + [d]| == |doctors| + 1
    ensures AvailableCount(doctors + [d]) == AvailableCount(doctors) + (if |d.assignedCamps| > 0 then 1 else 0)
  {
    FilterAppend(doctors, [d], (x: Doctor) => |x.assignedCamps| > 0);
  }

  /** The form field an input's `onChange` writes. */
  datatype FormField = NameField | SpecialtyField | PhoneField | EmailField | ExperienceField | QualificationField

  /** The text input that `field` names, read from the form. */
  function FieldValue(form: DoctorForm, field: FormField): string
  {
    match field
    case NameField => form.name
    case SpecialtyField => form.specialty
    case PhoneField => form.phone
    case EmailField => form.email
    case ExperienceField => form.experience
    case QualificationField => form.qualification
  }

  /** `{...formData, field: value}`: the named input holds `value`, every other input and the
      camp list keep what they held. */
  function WithField(form: DoctorForm, field: FormField, value: string): (r: DoctorForm)
    ensures FieldValue(r, field) == value
    ensures forall g :: g != field ==> FieldValue(r, g) == FieldValue(form, g)
    ensures r.assignedCamps == form.assignedCamps
  {
    match field
    case NameField => form.(name := value)
    case SpecialtyField => form.(specialty := value)
    case PhoneField => form.(phone := value)
    case EmailField => form.(email := value)
    case ExperienceField => form.(experience := value)
    case QualificationField => form.(qualification := value)
  }

  /** The six inputs and the camp list make up the whole form, so `WithField`'s contract fixes its result. */
  lemma FormByFields(a: DoctorForm, b: DoctorForm)
    requires forall g :: FieldValue(a, g) == FieldValue(b, g)
    requires a.assignedCamps == b.assignedCamps
    ensures a == b
  {
    assert FieldValue(a, NameField) == FieldValue(b, NameField);
    assert FieldValue(a, SpecialtyField) == FieldValue(b, SpecialtyField);
    assert FieldValue(a, PhoneField) == FieldValue(b, PhoneField);
    assert FieldValue(a, EmailField) == FieldValue(b, EmailField);
    assert FieldValue(a, ExperienceField) == FieldValue(b, ExperienceField);
    assert FieldValue(a, QualificationField) == FieldValue(b, QualificationField);
  }

  // ---------------------------------------------------------------- page state

  class DoctorsPage {
    var doctors: seq<Doctor>
    var showAddModal: bool
    var editingDoctor: Option<Doctor>
    var deletingDoctor: Option<Doctor>
    var showConfirmDialog: bool
    var formData: DoctorForm

    constructor ()
      ensures doctors == MockDoctors && !showAddModal && editingDoctor.None? && deletingDoctor.None?
      ensures !showConfirmDialog && formData == EmptyForm
    {
      doctors := MockDoctors;
      showAddModal := false;
      editingDoctor := None;
      deletingDoctor := None;
      showConfirmDialog := false;
      formData := EmptyForm;
    }

    /** `resetForm`. */
    method ResetForm()
      modifies this
      ensures formData == EmptyForm
      ensures doctors == old(doctors) && showAddModal == old(showAddModal)
      ensures editingDoctor == old(editingDoctor) && deletingDoctor == old(deletingDoctor)
      ensures showConfirmDialog == old(showConfirmDialog)
    {
      formData := EmptyForm;
    }

    /** `handleAddDoctor`: append the new doctor, close the modal, clear the form. */
    method HandleAddDoctor(newId: string, coin: bool)
      modifies this
      ensures doctors == old(doctors) + [NewDoctor(old(formData), newId, coin)]
      ensures !showAddModal && formData == EmptyForm
      ensures editingDoctor == old(editingDoctor) && deletingDoctor == old(deletingDoctor)
      ensures showConfirmDialog == old(showConfirmDialog)
    {
      var newDoctor := NewDoctor(formData, newId, coin);
      doctors := doctors + [newDoctor];
      showAddModal := false;
      ResetForm();
    }

    /** `handleEditDoctor`: with a doctor being edited, write the form over every doctor with its
        id, forget the edited doctor and clear the form. The modal's flag is left as it was. */
    method HandleEditDoctor()
      modifies this
      ensures old(editingDoctor).None? ==> doctors == old(doctors) && formData == old(formData) && editingDoctor.None?
      ensures old(editingDoctor).Some? ==>
        doctors == EditDoctors(old(doctors), old(editingDoctor).value.id, old(formData))
        && editingDoctor.None? && formData == EmptyForm
      ensures showAddModal == old(showAddModal)
      ensures deletingDoctor == old(deletingDoctor) && showConfirmDialog == old(showConfirmDialog)
    {
      if editingDoctor.None? {
        return;
      }
      var updatedDoctors := EditDoctors(doctors, editingDoctor.value.id, formData);
      doctors := updatedDoctors;
      editingDoctor := None;
      ResetForm();
    }

    /** The edit handler as evidently intended: like adding, it also closes the modal. */
    method HandleEditDoctorAndClose()
      modifies this
      ensures old(editingDoctor).None? ==> doctors == old(doctors) && formData == old(formData)
      ensures old(editingDoctor).Some? ==>
        doctors == EditDoctors(old(doctors), old(editingDoctor).value.id, old(formData))
        && formData == EmptyForm
      ensures old(editingDoctor).Some? ==> !showAddModal
      ensures old(editingDoctor).None? ==> showAddModal == old(showAddModal)
      ensures editingDoctor.None?
      ensures deletingDoctor == old(deletingDoctor) && showConfirmDialog == old(showConfirmDialog)
    {
      if editingDoctor.None? {
        return;
      }
      HandleEditDoctor();
      showAddModal := false;
    }

    /** `handleDeleteDoctor`: with a doctor chosen for deletion, drop every doctor with its id. */
    method HandleDeleteDoctor()
      modifies this
      ensures old(deletingDoctor).None? ==> doctors == old(doctors)
      ensures old(deletingDoctor).Some? ==> doctors == WithoutDoctor(old(doctors), old(deletingDoctor).value.id)
      ensures deletingDoctor.None?
      ensures showAddModal == old(showAddModal) && editingDoctor == old(editingDoctor)
      ensures formData == old(formData) && showConfirmDialog == old(showConfirmDialog)
    {
      if deletingDoctor.None? {
        return;
      }
      doctors := WithoutDoctor(doctors, deletingDoctor.value.id);
      deletingDoctor := None;
    }

    /** `openEditModal`: remember the doctor, fill the form from it, show the modal. */
    method OpenEditModal(d: Doctor)
      modifies this
      ensures editingDoctor == Some(d) && formData == FormOf(d) && showAddModal
      ensures doctors == old(doctors) && deletingDoctor == old(deletingDoctor)
      ensures showConfirmDialog == old(showConfirmDialog)
    {
      editingDoctor := Some(d);
      formData := FormOf(d);
      showAddModal := true;
    }

    /** The header's "Add New Doctor" button. */
    method OpenAddModal()
      modifies this
      ensures showAddModal && editingDoctor.None? && formData == EmptyForm
      ensures doctors == old(doctors) && deletingDoctor == old(deletingDoctor)
      ensures showConfirmDialog == old(showConfirmDialog)
    {
      showAddModal := true;
      editingDoctor := None;
      ResetForm();
    }

    /** The modal's Cancel button. */
    method CancelModal()
      modifies this
      ensures !showAddModal && editingDoctor.None? && formData == EmptyForm
      ensures doctors == old(doctors) && deletingDoctor == old(deletingDoctor)
      ensures showConfirmDialog == old(showConfirmDialog)
    {
      showAddModal := false;
      editingDoctor := None;
      ResetForm();
    }

    /** The modal's save button: update when a doctor is being edited, add otherwise. */
    method Save(newId: string, coin: bool)
      modifies this
      ensures old(editingDoctor).Some? ==>
        doctors == EditDoctors(old(doctors), old(editingDoctor).value.id, old(formData))
        && showAddModal == old(showAddModal)
      ensures old(editingDoctor).None? ==>
        doctors == old(doctors) + [NewDoctor(old(formData), newId, coin)] && !showAddModal
      ensures editingDoctor.None? && formData == EmptyForm
      ensures deletingDoctor == old(deletingDoctor) && showConfirmDialog == old(showConfirmDialog)
    {
      if editingDoctor.Some? {
        HandleEditDoctor();
      } else {
        HandleAddDoctor(newId, coin);
      }
    }

    /** A row's delete button: remember the doctor and open the confirmation dialog. */
    method RequestDelete(d: Doctor)
      modifies this
      ensures deletingDoctor == Some(d) && showConfirmDialog
      ensures doctors == old(doctors) && showAddModal == old(showAddModal)
      ensures editingDoctor == old(editingDoctor) && formData == old(formData)
    {
      deletingDoctor := Some(d);
      showConfirmDialog := true;
    }

    /** The confirmation dialog's `onClose`. */
    method CloseConfirmDialog()
      modifies this
      ensures !showConfirmDialog
      ensures doctors == old(doctors) && showAddModal == old(showAddModal)
      ensures editingDoctor == old(editingDoctor) && deletingDoctor == old(deletingDoctor)
      ensures formData == old(formData)
    {
      showConfirmDialog := false;
    }

    /** An input's `onChange`: `{...formData, field: value}`. */
    method SetField(field: FormField, value: string)
      modifies this
      ensures formData == WithField(old(formData), field, value)
      ensures doctors == old(doctors) && showAddModal == old(showAddModal)
      ensures editingDoctor == old(editingDoctor) && deletingDoctor == old(deletingDoctor)
      ensures showConfirmDialog == old(showConfirmDialog)
    {
      formData := WithField(formData, field, value);
    }

    /** A click on the checkbox of an offered camp. */
    method ToggleCamp(campId: string)
      requires campId in ScheduledCampIds
      modifies this
      ensures formData == old(formData).(assignedCamps := ClickCamp(old(formData).assignedCamps, campId))
      ensures campId in formData.assignedCamps <==> campId !in old(formData).assignedCamps
      ensures doctors == old(doctors) && showAddModal == old(showAddModal)
      ensures editingDoctor == old(editingDoctor) && deletingDoctor == old(deletingDoctor)
      ensures showConfirmDialog == old(showConfirmDialog)
    {
      if campId in formData.assignedCamps {
        formData := formData.(assignedCamps := WithoutCamp(formData.assignedCamps, campId));
      } else {
        formData := formData.(assignedCamps := WithCamp(formData.assignedCamps, campId));
      }
    }
  }

  /** Saving an edit leaves the modal open, now titled "Add New Doctor" over an empty form. */
  method EditLeavesAddModalOpen() returns (stillOpen: bool, addMode: bool)
    ensures stillOpen && addMode
  {
    var page := new DoctorsPage();
    page.OpenEditModal(MockDoctors[0]);
    page.Save("0", true);
    stillOpen := page.showAddModal;
    addMode := page.editingDoctor.None? && page.formData == EmptyForm;
  }

  /** With the intended handler the same steps close the modal. */
  method EditAndCloseClosesModal() returns (stillOpen: bool)
    ensures !stillOpen
  {
    var page := new DoctorsPage();
    page.OpenEditModal(MockDoctors[0]);
    page.HandleEditDoctorAndClose();
    stillOpen := page.showAddModal;
  }
}

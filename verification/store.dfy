/**
 * The profile helpers of src/lib/supabase.ts over an in-memory database:
 * one map per table, keyed by the user id. The constraints are those of the
 * tables the scripts create: `profiles.id` is the primary key and
 * `profiles.email` is unique; `students.id` and `parents.id` are primary keys
 * that reference `profiles.id`. A request that the service refuses for any
 * other reason (network, row-level security) is a `fails` flag passed in.
 */
module Store {
  import opened Wrappers
  import opened Schema

  datatype StoreError = DuplicateId | DuplicateEmail | NoMatchingRow | RequestFailed

  datatype Profile = Profile(id: string, email: string, fullName: string, role: Role, createdAt: string, updatedAt: string)

  /** A `students` row. `gpa` is kept in hundredths (`DECIMAL(3,2)`). */
  datatype StudentRow = StudentRow(
    id: string,
    graduationYear: int,
    gpa: Option<int>,
    satScore: Option<int>,
    actScore: Option<int>,
    targetCountries: seq<string>,
    intendedMajors: seq<string>,
    highSchool: Option<string>,
    counselorName: Option<string>,
    counselorEmail: Option<string>,
    createdAt: string,
    updatedAt: string)

  datatype ParentRow = ParentRow(id: string, phone: Option<string>, occupation: Option<string>, createdAt: string, updatedAt: string)

  /** The argument of `profiles.create`; absent optional fields are `None`. */
  datatype NewProfileData = NewProfileData(fullName: string, email: string, role: AccountRole, graduationYear: Option<int>, phone: Option<string>)

  /** `Partial<...>` arguments of the three `update` helpers; an absent field is `None`. */
  datatype ProfileUpdates = ProfileUpdates(fullName: Option<string>, phone: Option<string>, graduationYear: Option<int>)

  datatype StudentUpdates = StudentUpdates(
    graduationYear: Option<int>,
    gpa: Option<int>,
    satScore: Option<int>,
    actScore: Option<int>,
    targetCountries: Option<seq<string>>,
    intendedMajors: Option<seq<string>>,
    highSchool: Option<string>,
    counselorName: Option<string>,
    counselorEmail: Option<string>)

  datatype ParentUpdates = ParentUpdates(phone: Option<string>, occupation: Option<string>)

  /** A students row is created only for a student with a truthy (present and non-zero) graduation year. */
  predicate WantsStudentRow(data: NewProfileData) {
    data.role == Student && data.graduationYear.Some? && data.graduationYear.value != 0
  }

  predicate WantsParentRow(data: NewProfileData) {
    data.role == Parent
  }

  /** One call never asks for both extension rows. */
  lemma NeverBothExtensionRows(data: NewProfileData)
    ensures !(WantsStudentRow(data) && WantsParentRow(data))
  {
  }

  /** The students row `create` inserts: the graduation year, no countries, no majors, nothing else set. */
  function NewStudentRow(userId: string, graduationYear: int, now: string): (row: StudentRow)
    ensures row.id == userId && row.graduationYear == graduationYear
    ensures row.targetCountries == [] && row.intendedMajors == []
    ensures row.gpa == None && row.satScore == None && row.actScore == None
    ensures row.highSchool == None && row.counselorName == None && row.counselorEmail == None
    ensures row.createdAt == now && row.updatedAt == now
  {
    StudentRow(userId, graduationYear, None, None, None, [], [], None, None, None, now, now)
  }

  /** `phone: profileData.phone || null`: an empty phone number is stored as no phone number. */
  function NewParentRow(userId: string, phone: Option<string>, now: string): (row: ParentRow)
    ensures row.id == userId && row.occupation == None && row.createdAt == now && row.updatedAt == now
    ensures row.phone.Some? <==> phone.Some? && phone.value != ""
    ensures row.phone.Some? ==> row.phone == phone
  {
    ParentRow(userId, if phone.Some? && phone.value != "" then phone else None, None, now, now)
  }

  /** `{...updates, updated_at}`: each supplied field overwrites the stored one; the key and creation time stay. */
  function ApplyStudentUpdates(row: StudentRow, u: StudentUpdates, now: string): (r: StudentRow)
    ensures r.id == row.id && r.createdAt == row.createdAt && r.updatedAt == now
    ensures r.graduationYear == u.graduationYear.GetOr(row.graduationYear)
    ensures r.gpa == (if u.gpa.Some? then u.gpa else row.gpa)
    ensures r.satScore == (if u.satScore.Some? then u.satScore else row.satScore)
    ensures r.actScore == (if u.actScore.Some? then u.actScore else row.actScore)
    ensures r.targetCountries == u.targetCountries.GetOr(row.targetCountries)
    ensures r.intendedMajors == u.intendedMajors.GetOr(row.intendedMajors)
    ensures r.highSchool == (if u.highSchool.Some? then u.highSchool else row.highSchool)
    ensures r.counselorName == (if u.counselorName.Some? then u.counselorName else row.counselorName)
    ensures r.counselorEmail == (if u.counselorEmail.Some? then u.counselorEmail else row.counselorEmail)
  {
    StudentRow(
      row.id,
      u.graduationYear.GetOr(row.graduationYear),
      if u.gpa.Some? then u.gpa else row.gpa,
      if u.satScore.Some? then u.satScore else row.satScore,
      if u.actScore.Some? then u.actScore else row.actScore,
      u.targetCountries.GetOr(row.targetCountries),
      u.intendedMajors.GetOr(row.intendedMajors),
      if u.highSchool.Some? then u.highSchool else row.highSchool,
      if u.counselorName.Some? then u.counselorName else row.counselorName,
      if u.counselorEmail.Some? then u.counselorEmail else row.counselorEmail,
      row.createdAt,
      now)
  }

  function ApplyParentUpdates(row: ParentRow, u: ParentUpdates, now: string): (r: ParentRow)
    ensures r.id == row.id && r.createdAt == row.createdAt && r.updatedAt == now
    ensures r.phone == (if u.phone.Some? then u.phone else row.phone)
    ensures r.occupation == (if u.occupation.Some? then u.occupation else row.occupation)
  {
    ParentRow(row.id, if u.phone.Some? then u.phone else row.phone,
              if u.occupation.Some? then u.occupation else row.occupation, row.createdAt, now)
  }

  /** Only `full_name` and `updated_at` are sent; an absent name leaves the stored one, and phone and year are dropped. */
  function ApplyProfileUpdates(row: Profile, u: ProfileUpdates, now: string): (r: Profile)
    ensures r.id == row.id && r.email == row.email && r.role == row.role && r.createdAt == row.createdAt
    ensures r.fullName == (if u.fullName.Some? then u.fullName.value else row.fullName)
    ensures r.updatedAt == now
  {
    row.(fullName := u.fullName.GetOr(row.fullName), updatedAt := now)
  }

  /** Sending the same update twice leaves the same row as sending it once. */
  lemma UpdatesIdempotent(s: StudentRow, su: StudentUpdates, p: ParentRow, pu: ParentUpdates,
                          q: Profile, qu: ProfileUpdates, now: string)
    ensures ApplyStudentUpdates(ApplyStudentUpdates(s, su, now), su, now) == ApplyStudentUpdates(s, su, now)
    ensures ApplyParentUpdates(ApplyParentUpdates(p, pu, now), pu, now) == ApplyParentUpdates(p, pu, now)
    ensures ApplyProfileUpdates(ApplyProfileUpdates(q, qu, now), qu, now) == ApplyProfileUpdates(q, qu, now)
  {
  }

  /** The phone number and the graduation year passed to `profiles.update` have no effect on the row. */
  lemma ProfileUpdateIgnoresPhoneAndYear(q: Profile, name: Option<string>, phone: Option<string>, year: Option<int>, now: string)
    ensures ApplyProfileUpdates(q, ProfileUpdates(name, phone, year), now) == ApplyProfileUpdates(q, ProfileUpdates(name, None, None), now)
  {
  }

  function Emails(profiles: map<string, Profile>): set<string> {
    set id | id in profiles :: profiles[id].email
  }

  /** The three tables. */
  class Database {
    var profiles: map<string, Profile>
    var students: map<string, StudentRow>
    var parents: map<string, ParentRow>

    /** Rows sit under their own id, e-mails are unique, and every extension row belongs to a profile. */
    predicate Valid()
      reads this
    {
      && (forall id :: id in profiles ==> profiles[id].id == id)
      && (forall id1, id2 :: id1 in profiles && id2 in profiles && id1 != id2 ==> profiles[id1].email != profiles[id2].email)
      && (forall id :: id in students ==> id in profiles && students[id].id == id)
      && (forall id :: id in parents ==> id in profiles && parents[id].id == id)
    }

    constructor()
      ensures Valid() && profiles == map[] && students == map[] && parents == map[]
    {
      profiles := map[];
      students := map[];
      parents := map[];
    }

    /**
     * An insert into `profiles`: refused, with no change, when the request
     * fails, the id is taken or the e-mail is taken; otherwise the row is
     * stored under its id.
     */
    method InsertProfile(row: Profile, fails: bool) returns (result: Result<Profile, StoreError>)
      requires Valid()
      modifies this
      ensures Valid()
      ensures students == old(students) && parents == old(parents)
      ensures var refused := fails || row.id in old(profiles) || row.email in Emails(old(profiles));
        && (refused <==> result.Err?)
        && (refused ==> profiles == old(profiles))
        && (!refused ==> result == Ok(row) && profiles == old(profiles)[row.id := row])
    {
      if fails {
        return Err(RequestFailed);
      }
      if row.id in profiles {
        return Err(DuplicateId);
      }
      if row.email in Emails(profiles) {
        return Err(DuplicateEmail);
      }
      profiles := profiles[row.id := row];
      return Ok(row);
    }

    /**
     * `profiles.create`. If the profile insert is refused (taken id, taken
     * e-mail, or a failed request) the error comes back and no table
     * changes. Otherwise the profile is stored, a students row is added for
     * a student with a truthy graduation year and a parents row for a
     * parent, unless that second insert fails; either way the call returns
     * the profile without an error.
     */
    method Create(userId: string, data: NewProfileData, now: string,
                  profileFails: bool, studentFails: bool, parentFails: bool)
      returns (result: Result<Profile, StoreError>)
      requires Valid()
      modifies this
      ensures Valid()
      ensures var refused := profileFails || userId in old(profiles) || data.email in Emails(old(profiles));
        && (refused <==> result.Err?)
        && (refused ==> profiles == old(profiles) && students == old(students) && parents == old(parents))
      ensures result.Ok? ==>
        && result.value == Profile(userId, data.email, data.fullName, data.role, now, now)
        && profiles == old(profiles)[userId := result.value]
        && students == (if WantsStudentRow(data) && !studentFails
                        then old(students)[userId := NewStudentRow(userId, data.graduationYear.value, now)]
                        else old(students))
        && parents == (if WantsParentRow(data) && !parentFails
                       then old(parents)[userId := NewParentRow(userId, data.phone, now)]
                       else old(parents))
      ensures !(students != old(students) && parents != old(parents))
    {
      result := InsertProfile(Profile(userId, data.email, data.fullName, data.role, now, now), profileFails);
      if result.Err? {
        return;
      }

      if data.role == Student && data.graduationYear.Some? && data.graduationYear.value != 0 {
        if !studentFails {
          students := students[userId := NewStudentRow(userId, data.graduationYear.value, now)];
        }
      }
      if data.role == Parent {
        if !parentFails {
          parents := parents[userId := NewParentRow(userId, data.phone, now)];
        }
      }
    }

    /** `profiles.update`: rewrites the name and the update time of the one matching row, and no other row. */
    method UpdateProfile(userId: string, updates: ProfileUpdates, now: string, fails: bool)
      returns (result: Result<Profile, StoreError>)
      requires Valid()
      modifies this
      ensures Valid()
      ensures students == old(students) && parents == old(parents)
      ensures (fails || userId !in old(profiles)) ==> result.Err? && profiles == old(profiles)
      ensures !fails && userId in old(profiles) ==>
        && result == Ok(ApplyProfileUpdates(old(profiles)[userId], updates, now))
        && profiles == old(profiles)[userId := result.value]
    {
      if fails {
        return Err(RequestFailed);
      }
      if userId !in profiles {
        return Err(NoMatchingRow);
      }
      var row := ApplyProfileUpdates(profiles[userId], updates, now);
      profiles := profiles[userId := row];
      return Ok(row);
    }

    /** `students.update`: overwrites the supplied fields of the one matching row, and no other row. */
    method UpdateStudent(userId: string, updates: StudentUpdates, now: string, fails: bool)
      returns (result: Result<StudentRow, StoreError>)
      requires Valid()
      modifies this
      ensures Valid()
      ensures profiles == old(profiles) && parents == old(parents)
      ensures (fails || userId !in old(students)) ==> result.Err? && students == old(students)
      ensures !fails && userId in old(students) ==>
        && result == Ok(ApplyStudentUpdates(old(students)[userId], updates, now))
        && students == old(students)[userId := result.value]
    {
      if fails {
        return Err(RequestFailed);
      }
      if userId !in students {
        return Err(NoMatchingRow);
      }
      var row := ApplyStudentUpdates(students[userId], updates, now);
      students := students[userId := row];
      return Ok(row);
    }

    /** `parents.update`: overwrites the supplied fields of the one matching row, and no other row. */
    method UpdateParent(userId: string, updates: ParentUpdates, now: string, fails: bool)
      returns (result: Result<ParentRow, StoreError>)
      requires Valid()
      modifies this
      ensures Valid()
      ensures profiles == old(profiles) && students == old(students)
      ensures (fails || userId !in old(parents)) ==> result.Err? && parents == old(parents)
      ensures !fails && userId in old(parents) ==>
        && result == Ok(ApplyParentUpdates(old(parents)[userId], updates, now))
        && parents == old(parents)[userId := result.value]
    {
      if fails {
        return Err(RequestFailed);
      }
      if userId !in parents {
        return Err(NoMatchingRow);
      }
      var row := ApplyParentUpdates(parents[userId], updates, now);
      parents := parents[userId := row];
      return Ok(row);
    }
  }
}

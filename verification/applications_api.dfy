/**
 * The applications endpoint (src/app/api/applications/route.ts) over an
 * in-memory `applications` table and `activity_log` table. Store failures
 * are outcomes passed in; the id and the creation time of a new row are
 * chosen by the store and passed in too.
 */
module ApplicationsApi {
  import opened Wrappers
  import opened Seqs
  import opened Sorting

  /** An `applications` row. Fields the request did not supply are `None`. */
  datatype Application = Application(
    id: string,
    studentId: Option<string>,
    universityId: Option<string>,
    applicationType: Option<string>,
    status: string,
    priority: Option<int>,
    deadline: Option<string>,
    notes: Option<string>,
    applicationUrl: Option<string>,
    createdAt: int)

  datatype ActivityEntry = ActivityEntry(
    userId: Option<string>,
    studentId: Option<string>,
    applicationId: string,
    action: string,
    universityName: Option<string>,
    applicationType: Option<string>)

  /** The parsed JSON body of a POST; absent fields are `None`. */
  datatype PostBody = PostBody(
    studentId: Option<string>,
    universityId: Option<string>,
    universityName: Option<string>,
    applicationType: Option<string>,
    status: Option<string>,
    priority: Option<int>,
    deadline: Option<string>,
    notes: Option<string>,
    applicationUrl: Option<string>)

  datatype ResponseBody =
    | ErrorBody(message: string)
    | ApplicationsBody(applications: seq<Application>)
    | ApplicationBody(application: Application)

  datatype Response = Response(status: int, body: ResponseBody)

  const MissingStudentId := Response(400, ErrorBody("Student ID is required"))
  const InternalError := Response(500, ErrorBody("Internal server error"))

  function BelongsTo(studentId: string): Application -> bool {
    (a: Application) => a.studentId == Some(studentId)
  }

  /** Sorting by this key in ascending order puts the newest row first. */
  function NewestFirst(): Application -> int {
    (a: Application) => -a.createdAt
  }

  /** `body.status || 'not_started'`: the body's status when it is a non-empty string, else "not_started"; never empty. */
  function InitialStatus(status: Option<string>): (s: string)
    ensures s != ""
    ensures status.Some? && status.value != "" ==> s == status.value
    ensures status.None? || status.value == "" ==> s == "not_started"
  {
    if status.Some? && status.value != "" then status.value else "not_started"
  }

  class ApplicationsTable {
    var applications: seq<Application>
    var activityLog: seq<ActivityEntry>

    /** Row ids are unique, and every log entry names an existing application. */
    predicate Valid()
      reads this
    {
      && (forall i, j :: 0 <= i < j < |applications| ==> applications[i].id != applications[j].id)
      && (forall k :: 0 <= k < |activityLog| ==> activityLog[k].applicationId in Ids())
    }

    function Ids(): set<string>
      reads this
    {
      set i | 0 <= i < |applications| :: applications[i].id
    }

    constructor()
      ensures Valid() && applications == [] && activityLog == []
    {
      applications := [];
      activityLog := [];
    }

    /**
     * `GET ?student_id=...`: a missing or empty id is refused before the
     * store is queried; a store error becomes a 500 carrying its message;
     * otherwise the student's rows, newest first.
     */
    method Get(studentId: Option<string>, storeError: Option<string>) returns (resp: Response)
      ensures studentId.None? || studentId.value == "" ==> resp == MissingStudentId
      ensures studentId.Some? && studentId.value != "" && storeError.Some? ==>
        resp == Response(500, ErrorBody(storeError.value))
      ensures studentId.Some? && studentId.value != "" && storeError.None? ==>
        && resp.status == 200
        && resp.body.ApplicationsBody?
        && multiset(resp.body.applications) == multiset(Filter(applications, BelongsTo(studentId.value)))
        && (forall i :: 0 <= i < |resp.body.applications| ==> resp.body.applications[i].studentId == studentId)
        && SortedBy(resp.body.applications, NewestFirst())
    {
      if studentId.None? || studentId.value == "" {
        return MissingStudentId;
      }
      if storeError.Some? {
        return Response(500, ErrorBody(storeError.value));
      }
      var rows := Filter(applications, BelongsTo(studentId.value));
      var a := new Application[|rows|](i requires 0 <= i < |rows| => rows[i]);
      assert a[..] == rows;
      SortByKey(a, NewestFirst());
      forall i | 0 <= i < a.Length
        ensures a[i].studentId == studentId
      {
        assert a[i] in multiset(a[..]);
        assert a[i] in rows;
      }
      return Response(200, ApplicationsBody(a[..]));
    }

    /**
     * `POST`: a body that is not JSON gives a 500. The row is inserted
     * without checking any field, with the default status when none is
     * given; an insert error gives a 400 and logs nothing. After a
     * successful insert one `created_application` entry is logged, unless
     * that insert fails, which the response does not reflect.
     */
    method Post(body: Option<PostBody>, insertError: Option<string>, logFails: bool, newId: string, createdAt: int)
      returns (resp: Response)
      requires Valid()
      requires newId !in Ids()
      modifies this
      ensures Valid()
      ensures body.None? ==> resp == InternalError && applications == old(applications) && activityLog == old(activityLog)
      ensures body.Some? && insertError.Some? ==>
        resp == Response(400, ErrorBody(insertError.value))
        && applications == old(applications) && activityLog == old(activityLog)
      ensures body.Some? && insertError.None? ==>
        var b := body.value;
        var row := Application(newId, b.studentId, b.universityId, b.applicationType, InitialStatus(b.status),
                               b.priority, b.deadline, b.notes, b.applicationUrl, createdAt);
        && resp == Response(200, ApplicationBody(row))
        && applications == old(applications) + [row]
        && activityLog == old(activityLog) + (if logFails then [] else
             [ActivityEntry(b.studentId, b.studentId, newId, "created_application", b.universityName, b.applicationType)])
    {
      if body.None? {
        return InternalError;
      }
      var b := body.value;
      if insertError.Some? {
        return Response(400, ErrorBody(insertError.value));
      }
      var row := Application(newId, b.studentId, b.universityId, b.applicationType, InitialStatus(b.status),
                             b.priority, b.deadline, b.notes, b.applicationUrl, createdAt);
      ghost var oldIds := Ids();
      applications := applications + [row];
      assert applications[|applications| - 1].id == newId;
      assert Ids() == oldIds + {newId} by {
        assert forall i :: 0 <= i < |old(applications)| ==> applications[i] == old(applications)[i];
      }
      if !logFails {
        activityLog := activityLog + [ActivityEntry(b.studentId, b.studentId, newId, "created_application",
                                                    b.universityName, b.applicationType)];
      }
      return Response(200, ApplicationBody(row));
    }
  }
}

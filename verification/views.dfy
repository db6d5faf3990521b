/**
 * The two HTTP endpoints of jobs/views.py. `POST /jobs/` validates the body
 * with the job serializer, inserts a PENDING job and enqueues
 * `process_job` for it; when enqueueing raises, the job is marked FAILED
 * and the error propagates, so no 201 response is sent. `GET /jobs/{id}/`
 * looks a job up and returns its serialized fields.
 *
 * The request body is a map from field names to texts. The fresh primary
 * key (a `uuid4` default in the service) and whether the broker accepts
 * the task are parameters.
 */
module Views {
  import opened Wrappers
  import opened Models

  /** The one field a client may write; every other serializer field is read-only. */
  const InputTextKey: string := "input_text"

  /** A request body: field name to submitted text. */
  type Payload = map<string, string>

  /**
   * `serializer.is_valid(raise_exception=True)`: the input text when the
   * body carries one, else nothing. Values under the read-only field names
   * are ignored.
   */
  function Validate(data: Payload): (r: Option<string>)
    ensures r.Some? <==> InputTextKey in data
    ensures r.Some? ==> r.value == data[InputTextKey]
  {
    if InputTextKey in data then Some(data[InputTextKey]) else None
  }

  /** Why a submission raised instead of answering 201. */
  datatype Cause =
    | InsertConflict   // the new primary key is already taken
    | DispatchFailed   // `process_job.delay` raised

  /** The outcome of `POST /jobs/`. */
  datatype Reply =
    | Created(eventId: JobId)    // 201 with `{"event_id": job.id}`
    | Invalid(field: string)     // 400: the serializer reported this field
    | Errored(cause: Cause)      // an exception left the view

  /**
   * What a submission leaves behind: the store, the ids `process_job.delay`
   * was called with, in order, whether or not the call raised, and the reply.
   */
  datatype Submission = Submission(store: Store, enqueued: seq<JobId>, reply: Reply)

  /**
   * `JobCreateView.create` with the fresh key `freshId` for the new row and
   * `brokerAccepts` telling whether `process_job.delay` returns normally.
   */
  function Create(store: Store, data: Payload, freshId: JobId, brokerAccepts: bool): (s: Submission)
    ensures s.reply.Created? <==> InputTextKey in data && freshId !in store && brokerAccepts
    ensures s.reply.Created? ==>
              && s.reply.eventId == freshId
              && s.store == store[freshId := NewJob(freshId, data[InputTextKey])]
              && s.enqueued == [freshId]
    ensures s.reply.Invalid? <==> InputTextKey !in data
    ensures s.reply.Invalid? ==> s.reply.field == InputTextKey
    ensures s.reply == Errored(InsertConflict) ==> s.store == store && s.enqueued == []
    ensures s.reply == Errored(DispatchFailed) ==>
              && s.store == store[freshId := NewJob(freshId, data[InputTextKey]).(status := Failed)]
              && s.enqueued == [freshId]
    ensures s.reply.Invalid? ==> s.store == store && s.enqueued == []
  {
    match Validate(data)
    case None => Submission(store, [], Invalid(InputTextKey))
    case Some(text) =>
      if freshId in store then Submission(store, [], Errored(InsertConflict))
      else
        var job := NewJob(freshId, text);
        var saved := store[freshId := job];
        if brokerAccepts then Submission(saved, [freshId], Created(freshId))
        else
          var failed := job.(status := Failed);
          Submission(saved[freshId := Persist(saved[freshId], failed, StatusCol)], [freshId], Errored(DispatchFailed))
  }

  /** The outcome of `GET /jobs/{id}/`. */
  datatype Lookup = Found(job: Job) | NotFound

  /** `JobDetailView`: the stored job under `id`, or 404. The store is only read. */
  function Retrieve(store: Store, id: JobId): (r: Lookup)
    ensures r.Found? <==> id in store
    ensures r.Found? ==> r.job == store[id]
  {
    if id in store then Found(store[id]) else NotFound
  }

  /** A value in the serialized form of a job. */
  datatype Field =
    | KeyField(key: JobId)
    | TextField(text: string)
    | NullField

  function NullableField(o: Option<string>): Field {
    match o
    case None => NullField
    case Some(t) => TextField(t)
  }

  /** The fields the job serializer exposes, with the status as its stored label. */
  function Represent(j: Job): (rep: map<string, Field>)
    ensures rep.Keys == {"id", InputTextKey, "status", "summary", "checklist"}
  {
    map["id" := KeyField(j.id),
        InputTextKey := TextField(j.inputText),
        "status" := TextField(Label(j.status)),
        "summary" := NullableField(j.summary),
        "checklist" := NullableField(j.checklist)]
  }

  function ReadNullable(f: Field): Option<Option<string>> {
    match f
    case NullField => Some(None)
    case TextField(t) => Some(Some(t))
    case KeyField(_) => None
  }

  /** A client's reading of a serialized job, when the fields are all there and well typed. */
  function ReadBack(rep: map<string, Field>): (r: Option<Job>)
    ensures r.Some? ==> Represent(r.value) == rep
  {
    if && "id" in rep && rep["id"].KeyField?
       && InputTextKey in rep && rep[InputTextKey].TextField?
       && "status" in rep && rep["status"].TextField?
       && ParseStatus(rep["status"].text).Some?
       && "summary" in rep && ReadNullable(rep["summary"]).Some?
       && "checklist" in rep && ReadNullable(rep["checklist"]).Some?
       && rep.Keys == {"id", InputTextKey, "status", "summary", "checklist"}
    then
      Some(Job(rep["id"].key, rep[InputTextKey].text, ParseStatus(rep["status"].text).value,
               ReadNullable(rep["summary"]).value, ReadNullable(rep["checklist"]).value))
    else None
  }

  /** The serialized form of a job loses nothing: a client reads back exactly the stored row. */
  lemma ReadBackRepresent(j: Job)
    ensures ReadBack(Represent(j)) == Some(j)
  {
  }

  /**
   * A submission touches at most the row under the fresh key: every row
   * stored before keeps its value, and a new key appears exactly when the
   * job was inserted.
   */
  lemma CreateTouchesOnlyFreshRow(store: Store, data: Payload, freshId: JobId, brokerAccepts: bool)
    ensures var s := Create(store, data, freshId, brokerAccepts);
            && (forall k :: k in store ==> k in s.store && s.store[k] == store[k])
            && (s.store.Keys == store.Keys <==> !(s.reply.Created? || s.reply == Errored(DispatchFailed)))
            && s.store.Keys <= store.Keys + {freshId}
  {
  }

  /**
   * Only `input_text` of a request body matters: two bodies that agree on it
   * (present in both with the same text, or absent from both) submit alike,
   * whatever they carry under read-only names such as `status` or `summary`.
   */
  lemma CreateIgnoresReadOnlyFields(store: Store, data: Payload, other: Payload, freshId: JobId, brokerAccepts: bool)
    requires InputTextKey in data <==> InputTextKey in other
    requires InputTextKey in data ==> data[InputTextKey] == other[InputTextKey]
    ensures Create(store, data, freshId, brokerAccepts) == Create(store, other, freshId, brokerAccepts)
  {
  }

  /**
   * The new row is left PENDING exactly when the submission answered 201:
   * a job whose dispatch raised is never left pending with nobody to run it.
   */
  lemma PendingOnlyWhenDispatched(store: Store, data: Payload, freshId: JobId, brokerAccepts: bool)
    requires freshId !in store
    ensures var s := Create(store, data, freshId, brokerAccepts);
            freshId in s.store && s.store[freshId].status == Pending <==> s.reply.Created?
  {
  }

  /** A submission keeps every stored row under its own key and keeps the lifecycle invariant. */
  lemma CreateKeepsWellFormed(store: Store, data: Payload, freshId: JobId, brokerAccepts: bool)
    requires WellFormed(store)
    ensures WellFormed(Create(store, data, freshId, brokerAccepts).store)
  {
  }

  /**
   * After a 201, looking up the returned `event_id` finds the submitted text
   * with status "pending" and no summary or checklist, as serialized.
   */
  lemma CreatedThenRetrieved(store: Store, data: Payload, freshId: JobId, brokerAccepts: bool)
    ensures var s := Create(store, data, freshId, brokerAccepts);
            s.reply.Created? ==>
              && Retrieve(s.store, s.reply.eventId) == Found(NewJob(s.reply.eventId, data[InputTextKey]))
              && Represent(NewJob(s.reply.eventId, data[InputTextKey])) ==
                   map["id" := KeyField(s.reply.eventId),
                       InputTextKey := TextField(data[InputTextKey]),
                       "status" := TextField("pending"),
                       "summary" := NullField,
                       "checklist" := NullField]
  {
  }
}

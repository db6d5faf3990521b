/**
 * The `Job` record of the service: the submitted text, a status drawn from
 * four text choices, and the two derived texts (summary and checklist) that
 * start out NULL. The store of jobs is a map keyed by the primary key, and a
 * `save(update_fields=[...])` call is `Persist`, which copies only the named
 * column from the in-memory object into the stored row.
 */
module Models {
  import opened Wrappers

  /** The `Job.Status` text choices. */
  datatype Status = Pending | Running | Succeeded | Failed

  /** Width of the `status` character column. */
  const StatusMaxLength: nat := 10

  /** The value stored in the `status` column for each choice. */
  function Label(s: Status): (r: string)
    ensures 0 < |r| <= StatusMaxLength
  {
    match s
    case Pending => "pending"
    case Running => "running"
    case Succeeded => "succeeded"
    case Failed => "failed"
  }

  /** Validation of a `status` column value against the choices. */
  function ParseStatus(text: string): (r: Option<Status>)
    ensures r.Some? ==> Label(r.value) == text
    ensures r.None? ==> forall s :: Label(s) != text
  {
    if text == "pending" then Some(Pending)
    else if text == "running" then Some(Running)
    else if text == "succeeded" then Some(Succeeded)
    else if text == "failed" then Some(Failed)
    else None
  }

  /** Every choice is read back as itself: the labels are pairwise distinct. */
  lemma LabelRoundTrip(s: Status)
    ensures ParseStatus(Label(s)) == Some(s)
  {
  }

  /** Exactly four strings are valid statuses, and the longest has nine characters. */
  lemma StatusChoices(text: string)
    ensures ParseStatus(text).Some? <==> text in {"pending", "running", "succeeded", "failed"}
    ensures ParseStatus(text).Some? ==> |text| <= |Label(Succeeded)| == 9
  {
  }

  /** Terminal statuses: the processor has nothing more to do. */
  predicate Terminal(s: Status) {
    s == Succeeded || s == Failed
  }

  /** Position of a status along the lifecycle pending, running, finished. */
  function Rank(s: Status): nat {
    match s
    case Pending => 0
    case Running => 1
    case Succeeded => 2
    case Failed => 2
  }

  /** The primary key is a UUID in the service; here any natural number. */
  type JobId = nat

  datatype Job = Job(
    id: JobId,
    inputText: string,
    status: Status,
    summary: Option<string>,
    checklist: Option<string>)

  /** The durable job table, keyed by primary key. */
  type Store = map<JobId, Job>

  /** Every stored row sits under its own primary key. */
  predicate KeyedById(store: Store) {
    forall k :: k in store ==> store[k].id == k
  }

  /**
   * The lifecycle invariant of a row: a checklist exists only next to a
   * summary, and a succeeded job has both.
   */
  predicate Consistent(j: Job) {
    && (j.checklist.Some? ==> j.summary.Some?)
    && (j.status == Succeeded ==> j.summary.Some? && j.checklist.Some?)
  }

  /** Every stored row sits under its own key and keeps the lifecycle invariant. */
  predicate WellFormed(store: Store) {
    KeyedById(store) && forall k :: k in store ==> Consistent(store[k])
  }

  /** A row as `Job.objects.create(input_text=...)` stores it, with the column defaults. */
  function NewJob(id: JobId, inputText: string): (j: Job)
    ensures j.id == id && j.inputText == inputText
    ensures j.status == Pending && j.summary.None? && j.checklist.None?
    ensures Consistent(j)
  {
    Job(id, inputText, Pending, None, None)
  }

  /** The columns a `save(update_fields=[...])` call may name. */
  datatype Column = InputTextCol | StatusCol | SummaryCol | ChecklistCol

  datatype ColumnValue =
    | TextValue(text: string)
    | StatusValue(status: Status)
    | NullableText(maybe: Option<string>)

  function Value(j: Job, c: Column): ColumnValue {
    match c
    case InputTextCol => TextValue(j.inputText)
    case StatusCol => StatusValue(j.status)
    case SummaryCol => NullableText(j.summary)
    case ChecklistCol => NullableText(j.checklist)
  }

  /** `a` and `b` hold the same value in every column other than `col`. */
  predicate AgreeOutside(a: Job, b: Job, col: Column) {
    && (col != InputTextCol ==> a.inputText == b.inputText)
    && (col != StatusCol ==> a.status == b.status)
    && (col != SummaryCol ==> a.summary == b.summary)
    && (col != ChecklistCol ==> a.checklist == b.checklist)
  }

  /**
   * `local.save(update_fields=[col])` applied to the stored `row`: the row
   * keeps its primary key, takes the named column from `local` and keeps
   * every other column.
   */
  function Persist(row: Job, local: Job, col: Column): (r: Job)
    ensures r.id == row.id
    ensures Value(r, col) == Value(local, col)
    ensures AgreeOutside(row, r, col)
  {
    match col
    case InputTextCol => row.(inputText := local.inputText)
    case StatusCol => row.(status := local.status)
    case SummaryCol => row.(summary := local.summary)
    case ChecklistCol => row.(checklist := local.checklist)
  }

  /**
   * Saving an in-memory object that differs from the stored row only in the
   * saved column makes the stored row equal to the object.
   */
  lemma PersistSynchronizes(row: Job, local: Job, col: Column)
    requires local.id == row.id && AgreeOutside(row, local, col)
    ensures Persist(row, local, col) == local
  {
  }
}

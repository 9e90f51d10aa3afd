/**
 * The collection handler for `/api/tasks`: GET lists the stored tasks newest
 * first, POST validates the title and creates a task from it.
 */
module TaskRoute {
  import opened Text
  import opened Wrappers
  import opened TaskModel

  /**
   * The request body as POST sees it. `Unparsable` is a body that is missing
   * or not JSON (`req.json()` rejects, and the handler substitutes `null`);
   * `title` is `None` when the field is absent or null. The handler never
   * reads `description` or `dueDate`.
   */
  datatype RequestBody =
    | Unparsable
    | Json(title: Option<string>, description: Option<string>, dueDate: Option<string>)

  datatype ResponseBody = Message(message: string) | Record(task: Task) | Records(tasks: seq<Task>)

  datatype Response = Response(status: int, body: ResponseBody)

  const TitleRequired := "Title is required"

  /** `body?.title ?? ""` */
  function RawTitle(body: RequestBody): string {
    match body
    case Unparsable => ""
    case Json(title, _, _) => title.GetOr("")
  }

  /**
   * `String(body?.title ?? "").trim()` when it is truthy: the title POST
   * creates a task with, or `None` when it answers 400.
   */
  function ValidTitle(body: RequestBody): (r: Option<string>)
    ensures r.None? <==> AllSpace(RawTitle(body))
    ensures r.Some? ==> r.value == Trim(RawTitle(body)) && r.value != [] && Trimmed(r.value)
  {
    NonBlank(RawTitle(body))
  }

  /** A missing, unparsable or title-less body takes the same 400 path as a blank title. */
  lemma AbsentTitleRejected(body: RequestBody)
    requires body.Unparsable? || body.title.None?
    ensures ValidTitle(body).None?
  {
  }

  /** Newest first: no task is preceded by one created earlier. */
  ghost predicate CreatedDescending(s: seq<Task>) {
    forall i, j :: 0 <= i < j < |s| ==> s[i].createdAt >= s[j].createdAt
  }

  /** Inserts `x` into a newest-first list ahead of the first task not newer than it. */
  function InsertByCreated(x: Task, l: seq<Task>): (r: seq<Task>)
    ensures multiset(r) == multiset(l) + multiset{x}
  {
    if l == [] || x.createdAt >= l[0].createdAt then
      [x] + l
    else
      assert l == [l[0]] + l[1..];
      [l[0]] + InsertByCreated(x, l[1..])
  }

  lemma {:induction false} InsertKeepsDescending(x: Task, l: seq<Task>)
    requires CreatedDescending(l)
    ensures CreatedDescending(InsertByCreated(x, l))
  {
    if l != [] && x.createdAt < l[0].createdAt {
      var rest := InsertByCreated(x, l[1..]);
      InsertKeepsDescending(x, l[1..]);
      forall j | 0 <= j < |rest| ensures l[0].createdAt >= rest[j].createdAt {
        assert rest[j] in multiset(rest);
        assert rest[j] in multiset(l[1..]) + multiset{x};
        if rest[j] != x {
          assert rest[j] in l[1..];
        }
      }
    }
  }

  /** `orderBy: { createdAt: "desc" }`: a newest-first permutation of the rows. */
  function SortByCreatedDesc(s: seq<Task>): (r: seq<Task>)
    ensures multiset(r) == multiset(s)
    ensures CreatedDescending(r)
  {
    if s == [] then []
    else
      assert s == [s[0]] + s[1..];
      InsertKeepsDescending(s[0], SortByCreatedDesc(s[1..]));
      InsertByCreated(s[0], SortByCreatedDesc(s[1..]))
  }

  /** GET: status 200 with every stored task, none added or dropped, newest first. */
  function Get(rows: seq<Task>): (r: Response)
    ensures r.status == 200 && r.body.Records?
    ensures multiset(r.body.tasks) == multiset(rows)
    ensures CreatedDescending(r.body.tasks)
  {
    Response(200, Records(SortByCreatedDesc(rows)))
  }

  /** Rows in creation order, each created strictly later than the one before. */
  ghost predicate CreatedAscending(s: seq<Task>) {
    forall i, j :: 0 <= i < j < |s| ==> s[i].createdAt < s[j].createdAt
  }

  lemma {:induction false} InsertOlderLast(x: Task, l: seq<Task>)
    requires forall i :: 0 <= i < |l| ==> l[i].createdAt > x.createdAt
    ensures InsertByCreated(x, l) == l + [x]
  {
    if l != [] {
      InsertOlderLast(x, l[1..]);
      assert l == [l[0]] + l[1..];
    }
  }

  /** The sequence read from its end. */
  function Reverse<T>(s: seq<T>): (r: seq<T>)
    ensures |r| == |s|
    ensures forall i :: 0 <= i < |s| ==> r[i] == s[|s| - 1 - i]
  {
    if s == [] then [] else Reverse(s[1..]) + [s[0]]
  }

  lemma AscendingTail(rows: seq<Task>)
    requires rows != [] && CreatedAscending(rows)
    ensures CreatedAscending(rows[1..])
  {
  }

  lemma ReversedTailNewer(rows: seq<Task>)
    requires rows != [] && CreatedAscending(rows)
    ensures forall i :: 0 <= i < |rows| - 1 ==> Reverse(rows[1..])[i].createdAt > rows[0].createdAt
  {
  }

  lemma {:induction false} SortCreationOrderReverses(rows: seq<Task>)
    requires CreatedAscending(rows)
    ensures SortByCreatedDesc(rows) == Reverse(rows)
  {
    if rows != [] {
      AscendingTail(rows);
      SortCreationOrderReverses(rows[1..]);
      ReversedTailNewer(rows);
      InsertOlderLast(rows[0], Reverse(rows[1..]));
    }
  }

  /** Tasks created at T1 < T2 < ... < Tn are listed as Tn, ..., T2, T1. */
  lemma GetNewestFirst(rows: seq<Task>)
    requires CreatedAscending(rows)
    ensures Get(rows).body.tasks == Reverse(rows)
  {
    SortCreationOrderReverses(rows);
  }

  /** Every stored title is non-empty and has no surrounding whitespace. */
  ghost predicate TitlesClean(rows: seq<Task>) {
    forall i :: 0 <= i < |rows| ==> rows[i].title != [] && Trimmed(rows[i].title)
  }

  /**
   * The task table behind the ORM client. Ids come from a counter, as an
   * autoincrement key does; `now` is the database clock at insertion.
   */
  class TaskStore {
    var rows: seq<Task>
    var nextId: int

    ghost predicate Valid()
      reads this
    {
      && nextId > 0
      && (forall i :: 0 <= i < |rows| ==> 0 < rows[i].id < nextId)
      && (forall i, j :: 0 <= i < j < |rows| ==> rows[i].id != rows[j].id)
    }

    constructor ()
      ensures Valid() && rows == []
    {
      rows := [];
      nextId := 1;
    }

    /**
     * `prisma.task.create({ data: { title } })`: a new row with a fresh
     * positive id, no description or due date, not completed, and both
     * timestamps set to `now`.
     */
    method Create(title: string, now: int) returns (t: Task)
      requires Valid()
      modifies this
      ensures Valid()
      ensures rows == old(rows) + [t]
      ensures t == Task(t.id, title, None, None, false, now, now)
      ensures t.id > 0 && forall i :: 0 <= i < |old(rows)| ==> old(rows)[i].id != t.id
    {
      t := Task(nextId, title, None, None, false, now, now);
      rows := rows + [t];
      nextId := nextId + 1;
    }
  }

  /**
   * POST: a title that is blank after trimming is answered with 400 "Title
   * is required" and the store is not touched; otherwise a task is created
   * from the trimmed title alone and returned with 201.
   */
  method Post(store: TaskStore, body: RequestBody, now: int) returns (resp: Response)
    requires store.Valid()
    modifies store
    ensures store.Valid()
    ensures ValidTitle(body).None? ==> resp == Response(400, Message(TitleRequired)) && unchanged(store)
    ensures ValidTitle(body).Some? ==>
      && resp.status == 201 && resp.body.Record?
      && store.rows == old(store.rows) + [resp.body.task]
      && resp.body.task == Task(resp.body.task.id, ValidTitle(body).value, None, None, false, now, now)
    ensures TitlesClean(old(store.rows)) ==> TitlesClean(store.rows)
  {
    var title := ValidTitle(body);
    if title.None? {
      return Response(400, Message(TitleRequired));
    }
    ghost var before := store.rows;
    var t := store.Create(title.value, now);
    resp := Response(201, Record(t));
    assert TitlesClean(before) ==> TitlesClean(store.rows) by {
      if TitlesClean(before) {
        forall i | 0 <= i < |store.rows| ensures store.rows[i].title != [] && Trimmed(store.rows[i].title) {
          if i < |before| { assert store.rows[i] == before[i]; }
        }
      }
    }
  }
}

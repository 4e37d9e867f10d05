/**
 * The server side of reminders: GET lists the caller's reminders, newest
 * first; POST validates a body and keeps at most one active reminder per
 * (user, event), updating it when one exists and creating one otherwise.
 * The database is an in-memory table of rows plus the set of known event ids.
 */
module RemindersApi {
  import opened Wrappers
  import opened Types
  import opened Seqs
  import opened Sorting

  /** A parsed JSON value; object members keep their textual order. */
  datatype Json =
    | JNull
    | JBool(b: bool)
    | JNum(n: int)
    | JStr(s: string)
    | JArr(elems: seq<Json>)
    | JObj(members: seq<(string, Json)>)

  /** A member of an object; with duplicate keys the last one wins, as in `JSON.parse`. */
  function Member(j: Json, key: string): Option<Json>
  {
    if !j.JObj? then None
    else match FindLast(j.members, (m: (string, Json)) => m.0 == key)
      case None => None
      case Some(i) => Some(j.members[i].1)
  }

  /** A member is found exactly when the object has one under that key; non-objects have none. */
  lemma MemberSpec(j: Json, key: string)
    ensures Member(j, key).Some? ==>
              j.JObj? && exists i :: 0 <= i < |j.members| && j.members[i] == (key, Member(j, key).value)
    ensures Member(j, key).None? <==> !j.JObj? || forall i :: 0 <= i < |j.members| ==> j.members[i].0 != key
  {
  }

  function AsBool(j: Option<Json>): Option<bool>
  {
    if j.Some? && j.value.JBool? then Some(j.value.b) else None
  }

  /** `intervalsSchema`: an object with four booleans (other members are ignored). */
  function ParseIntervals(j: Json): (r: Option<Intervals>)
    ensures r.Some? <==> AsBool(Member(j, "twoHours")).Some? && AsBool(Member(j, "oneHour")).Some?
                         && AsBool(Member(j, "thirtyMinutes")).Some? && AsBool(Member(j, "tenMinutes")).Some?
    ensures r.Some? ==> r.value == Intervals(AsBool(Member(j, "twoHours")).value, AsBool(Member(j, "oneHour")).value,
                                             AsBool(Member(j, "thirtyMinutes")).value, AsBool(Member(j, "tenMinutes")).value)
  {
    match (AsBool(Member(j, "twoHours")), AsBool(Member(j, "oneHour")),
           AsBool(Member(j, "thirtyMinutes")), AsBool(Member(j, "tenMinutes")))
    case (Some(a), Some(b), Some(c), Some(d)) => Some(Intervals(a, b, c, d))
    case _ => None
  }

  /** `notificationMethodsSchema`: an object with two booleans. */
  function ParseMethods(j: Json): (r: Option<Methods>)
    ensures r.Some? <==> AsBool(Member(j, "browserPush")).Some? && AsBool(Member(j, "email")).Some?
    ensures r.Some? ==> r.value == Methods(AsBool(Member(j, "browserPush")).value, AsBool(Member(j, "email")).value)
  {
    match (AsBool(Member(j, "browserPush")), AsBool(Member(j, "email")))
    case (Some(a), Some(b)) => Some(Methods(a, b))
    case _ => None
  }

  datatype CreateInput = CreateInput(eventId: Id, intervals: Intervals, methods: Methods)

  /** `createReminderSchema.parse`: a non-empty event id, the intervals and the methods. */
  function ParseCreate(body: Json): (r: Option<CreateInput>)
    ensures r.Some? <==>
      && Member(body, "eventId").Some? && Member(body, "eventId").value.JStr?
      && |Member(body, "eventId").value.s| >= 1
      && Member(body, "intervals").Some? && ParseIntervals(Member(body, "intervals").value).Some?
      && Member(body, "notificationMethods").Some? && ParseMethods(Member(body, "notificationMethods").value).Some?
    ensures r.Some? ==> r.value.eventId == Member(body, "eventId").value.s
    ensures r.Some? ==> r.value.intervals == ParseIntervals(Member(body, "intervals").value).value
    ensures r.Some? ==> r.value.methods == ParseMethods(Member(body, "notificationMethods").value).value
  {
    var e := Member(body, "eventId");
    var iv := Member(body, "intervals");
    var nm := Member(body, "notificationMethods");
    if e.Some? && e.value.JStr? && |e.value.s| >= 1 && iv.Some? && nm.Some? then
      match (ParseIntervals(iv.value), ParseMethods(nm.value))
      case (Some(i), Some(m)) => Some(CreateInput(e.value.s, i, m))
      case _ => None
    else None
  }

  /** A member found at exactly one index. */
  lemma MemberAt(j: Json, key: string, k: nat)
    requires j.JObj? && k < |j.members| && j.members[k].0 == key
    requires forall i :: 0 <= i < |j.members| && i != k ==> j.members[i].0 != key
    ensures Member(j, key) == Some(j.members[k].1)
  {
  }

  function IntervalsJson(iv: Intervals): Json
  {
    JObj([("twoHours", JBool(iv.twoHours)), ("oneHour", JBool(iv.oneHour)),
          ("thirtyMinutes", JBool(iv.thirtyMinutes)), ("tenMinutes", JBool(iv.tenMinutes))])
  }

  function MethodsJson(m: Methods): Json
  {
    JObj([("browserPush", JBool(m.browserPush)), ("email", JBool(m.email))])
  }

  /** The JSON the client sends for a create. */
  function CreateBody(eventId: Id, iv: Intervals, m: Methods): Json
  {
    JObj([("eventId", JStr(eventId)), ("intervals", IntervalsJson(iv)), ("notificationMethods", MethodsJson(m))])
  }

  lemma ParseIntervalsJson(iv: Intervals)
    ensures ParseIntervals(IntervalsJson(iv)) == Some(iv)
  {
    IntervalsJsonMember(iv, TwoHours);
    IntervalsJsonMember(iv, OneHour);
    IntervalsJsonMember(iv, ThirtyMinutes);
    IntervalsJsonMember(iv, TenMinutes);
  }

  /** Each switch is sent once, under its own name. */
  lemma IntervalsJsonMember(iv: Intervals, k: IntervalKey)
    ensures Member(IntervalsJson(iv), IntervalKeyName(k)) == Some(JBool(Enabled(iv, k)))
  {
    var ij := IntervalsJson(iv);
    match k
    case TwoHours => MemberAt(ij, "twoHours", 0);
    case OneHour => MemberAt(ij, "oneHour", 1);
    case ThirtyMinutes => MemberAt(ij, "thirtyMinutes", 2);
    case TenMinutes => MemberAt(ij, "tenMinutes", 3);
  }

  lemma ParseMethodsJson(m: Methods)
    ensures ParseMethods(MethodsJson(m)) == Some(m)
  {
    var mj := MethodsJson(m);
    MemberAt(mj, "browserPush", 0);
    MemberAt(mj, "email", 1);
  }

  /**
   * Every body the client sends with a non-empty event id is accepted as
   * sent. In particular the schema has no at-least-one-flag rule.
   */
  lemma ParseCreateBody(eventId: Id, iv: Intervals, m: Methods)
    requires eventId != ""
    ensures ParseCreate(CreateBody(eventId, iv, m)) == Some(CreateInput(eventId, iv, m))
  {
    var b := CreateBody(eventId, iv, m);
    MemberAt(b, "eventId", 0);
    MemberAt(b, "intervals", 1);
    MemberAt(b, "notificationMethods", 2);
    ParseIntervalsJson(iv);
    ParseMethodsJson(m);
  }

  /** A body with every interval and every method off is accepted. */
  lemma AllFlagsOffAccepted(eventId: Id)
    requires eventId != ""
    ensures ParseCreate(CreateBody(eventId, Intervals(false, false, false, false), Methods(false, false))).Some?
  {
    ParseCreateBody(eventId, Intervals(false, false, false, false), Methods(false, false));
  }

  /** An empty event id is refused. */
  lemma EmptyEventIdRefused(body: Json)
    requires Member(body, "eventId") == Some(JStr(""))
    ensures ParseCreate(body).None?
  {
  }

  /**
   * `getCurrentUserId`: no session email (or an empty one) means no user;
   * otherwise the user found by that email, if any. `findUserByEmail` stands
   * for the database lookup.
   */
  function CurrentUserId(sessionEmail: Option<string>, findUserByEmail: string -> Option<Id>): (r: Option<Id>)
    ensures sessionEmail.None? || sessionEmail == Some("") ==> r.None?
    ensures sessionEmail.Some? && sessionEmail.value != "" ==> r == findUserByEmail(sessionEmail.value)
  {
    if sessionEmail.Some? && sessionEmail.value != "" then findUserByEmail(sessionEmail.value) else None
  }

  /** `!userId`: no user, or an empty id. */
  predicate Unauthenticated(userId: Option<Id>)
  {
    userId.None? || userId.value == ""
  }

  /** A reminder row of the database. */
  datatype Row = Row(
    id: Id, userId: Id, eventId: Id, intervals: Intervals, notificationMethods: Methods,
    status: ReminderStatus, createdAt: Instant, updatedAt: Instant)

  predicate IsActiveFor(r: Row, userId: Id, eventId: Id)
  {
    r.userId == userId && r.eventId == eventId && r.status == Active
  }

  /** At most one active reminder per (user, event). */
  ghost predicate ActiveUnique(rows: seq<Row>)
  {
    forall i, j :: 0 <= i < j < |rows| && rows[i].status == Active ==> !IsActiveFor(rows[j], rows[i].userId, rows[i].eventId)
  }

  /** What a route answers. */
  datatype Reply =
    | ErrorReply(status: int, message: string)
    | ListReply(status: int, items: seq<Row>)
    | RowReply(status: int, item: Row)

  /** The newest-first ordering key of GET. */
  function NewestFirst(r: Row): Key
  {
    Key(false, -r.createdAt)
  }

  /**
   * The effect of a valid POST on the rows: the first active row for the pair
   * is updated in place, or a new active row is appended.
   */
  function Upsert(rows: seq<Row>, userId: Id, input: CreateInput, freshId: Id, now: Instant): (seq<Row>, Reply)
  {
    match FindFirst(rows, (r: Row) => IsActiveFor(r, userId, input.eventId))
    case Some(k) =>
      var updated := rows[k].(intervals := input.intervals, notificationMethods := input.methods,
                              status := Active, updatedAt := now);
      (rows[k := updated], RowReply(200, updated))
    case None =>
      var created := Row(freshId, userId, input.eventId, input.intervals, input.methods, Active, now, now);
      (rows + [created], RowReply(201, created))
  }

  /**
   * A POST that finds an active row for the pair answers 200 and overwrites
   * the first such row in place, keeping its id and creation time and stamping
   * the update time; otherwise it answers 201 and appends one new row with the
   * fresh id, created and updated now. Either way the answered row is active
   * with the requested flags, and no other row changes.
   */
  lemma UpsertSpec(rows: seq<Row>, userId: Id, input: CreateInput, freshId: Id, now: Instant)
    ensures var (rows', reply) := Upsert(rows, userId, input, freshId, now);
      && reply.RowReply?
      && reply.item.userId == userId && reply.item.eventId == input.eventId && reply.item.status == Active
      && reply.item.intervals == input.intervals && reply.item.notificationMethods == input.methods
      && ((exists i :: 0 <= i < |rows| && IsActiveFor(rows[i], userId, input.eventId)) ==>
            reply.status == 200 && |rows'| == |rows|
            && exists k :: 0 <= k < |rows| && IsActiveFor(rows[k], userId, input.eventId)
                 && (forall i :: 0 <= i < k ==> !IsActiveFor(rows[i], userId, input.eventId))
                 && rows' == rows[k := reply.item]
                 && reply.item.id == rows[k].id && reply.item.createdAt == rows[k].createdAt
                 && reply.item.updatedAt == now)
      && ((forall i :: 0 <= i < |rows| ==> !IsActiveFor(rows[i], userId, input.eventId)) ==>
            reply.status == 201 && rows' == rows + [reply.item] && reply.item.id == freshId
            && reply.item.createdAt == now && reply.item.updatedAt == now)
      && (forall i :: 0 <= i < |rows| && !IsActiveFor(rows[i], userId, input.eventId) ==> rows'[i] == rows[i])
  {
  }

  /** POST keeps "at most one active reminder per (user, event)". */
  lemma UpsertKeepsActiveUnique(rows: seq<Row>, userId: Id, input: CreateInput, freshId: Id, now: Instant)
    requires ActiveUnique(rows)
    ensures ActiveUnique(Upsert(rows, userId, input, freshId, now).0)
  {
    var u := Upsert(rows, userId, input, freshId, now).0;
    match FindFirst(rows, (r: Row) => IsActiveFor(r, userId, input.eventId))
    case Some(k) =>
      forall i, j | 0 <= i < j < |u| && u[i].status == Active
        ensures !IsActiveFor(u[j], u[i].userId, u[i].eventId)
      {
        if i == k {
          assert IsActiveFor(rows[k], userId, input.eventId);
        } else if j == k {
          assert IsActiveFor(rows[k], userId, input.eventId);
        }
      }
    case None =>
      forall i, j | 0 <= i < j < |u| && u[i].status == Active
        ensures !IsActiveFor(u[j], u[i].userId, u[i].eventId)
      {
        if j == |rows| {
          assert !IsActiveFor(rows[i], userId, input.eventId);
        }
      }
  }

  /** The database as the two routes see it. */
  class ReminderDb {
    var rows: seq<Row>
    /** The ids of the events table (read only here). */
    const eventIds: set<Id>

    constructor (rows: seq<Row>, eventIds: set<Id>)
      ensures this.rows == rows && this.eventIds == eventIds
    {
      this.rows := rows;
      this.eventIds := eventIds;
    }

    /**
     * GET: 401 without a user; otherwise 200 with exactly the caller's rows,
     * newest first.
     */
    method Get(userId: Option<Id>) returns (reply: Reply)
      ensures Unauthenticated(userId) ==> reply == ErrorReply(401, "Unauthorized")
      ensures !Unauthenticated(userId) ==>
        && reply.ListReply? && reply.status == 200
        && multiset(reply.items) == multiset(Filter(rows, (r: Row) => r.userId == userId.value))
        && SortedBy(reply.items, NewestFirst)
        && (forall i :: 0 <= i < |reply.items| ==> reply.items[i].userId == userId.value)
    {
      if userId.None? || userId.value == "" {
        return ErrorReply(401, "Unauthorized");
      }
      var mine := Filter(rows, (r: Row) => r.userId == userId.value);
      var sorted := SortBy(mine, NewestFirst);
      forall i | 0 <= i < |sorted|
        ensures sorted[i].userId == userId.value
      {
        assert sorted[i] in multiset(mine);
      }
      return ListReply(200, sorted);
    }

    /**
     * POST: 401 without a user; 500 for a body that is not JSON; 400 for a
     * body the schema refuses; 404 for an unknown event; then the upsert.
     * Only the upsert changes the rows.
     */
    method Post(userId: Option<Id>, body: Option<Json>, freshId: Id, now: Instant) returns (reply: Reply)
      modifies this
      ensures Unauthenticated(userId) ==> reply == ErrorReply(401, "Unauthorized") && rows == old(rows)
      ensures !Unauthenticated(userId) && body.None? ==> reply == ErrorReply(500, "Internal server error") && rows == old(rows)
      ensures !Unauthenticated(userId) && body.Some? && ParseCreate(body.value).None? ==>
                reply.ErrorReply? && reply.status == 400 && rows == old(rows)
      ensures !Unauthenticated(userId) && body.Some? && ParseCreate(body.value).Some?
              && ParseCreate(body.value).value.eventId !in eventIds ==>
                reply == ErrorReply(404, "Event not found") && rows == old(rows)
      ensures !Unauthenticated(userId) && body.Some? && ParseCreate(body.value).Some?
              && ParseCreate(body.value).value.eventId in eventIds ==>
                (rows, reply) == Upsert(old(rows), userId.value, ParseCreate(body.value).value, freshId, now)
      ensures ActiveUnique(old(rows)) ==> ActiveUnique(rows)
    {
      if userId.None? || userId.value == "" {
        return ErrorReply(401, "Unauthorized");
      }
      if body.None? {
        return ErrorReply(500, "Internal server error");
      }
      var parsed := ParseCreate(body.value);
      if parsed.None? {
        return ErrorReply(400, "Invalid input");
      }
      var input := parsed.value;
      if input.eventId !in eventIds {
        return ErrorReply(404, "Event not found");
      }
      ghost var before := rows;
      reply := Store(userId.value, input, freshId, now);
      if ActiveUnique(before) {
        UpsertKeepsActiveUnique(before, userId.value, input, freshId, now);
      }
    }

    /** The store half of POST: update the existing active row, else create one. */
    method Store(userId: Id, input: CreateInput, freshId: Id, now: Instant) returns (reply: Reply)
      modifies this
      ensures (rows, reply) == Upsert(old(rows), userId, input, freshId, now)
    {
      var existing := FindFirst(rows, (r: Row) => IsActiveFor(r, userId, input.eventId));
      if existing.Some? {
        var updated := rows[existing.value].(intervals := input.intervals, notificationMethods := input.methods,
                                             status := Active, updatedAt := now);
        rows := rows[existing.value := updated];
        return RowReply(200, updated);
      }
      var reminder := Row(freshId, userId, input.eventId, input.intervals, input.methods, Active, now, now);
      rows := rows + [reminder];
      return RowReply(201, reminder);
    }
  }
}

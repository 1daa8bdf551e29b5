/** The client's wire adapter: conversion between domain tasks (date values) and wire
    tasks (`YYYY-MM-DD` strings), and the body of an update request. */
module Api {
  import opened Wrappers
  import opened IsoDate

  /** A domain task; `None` dates are `null`. */
  datatype Task = Task(id: string, code: string, title: string, description: string,
                       taskType: string, startDate: Option<JsDate>, endDate: Option<JsDate>,
                       status: string)

  /** A domain task before the server has given it an id (`Omit<Task, 'id'>`). */
  datatype TaskData = TaskData(code: string, title: string, description: string,
                               taskType: string, startDate: Option<JsDate>, endDate: Option<JsDate>,
                               status: string)

  /** A task as the server sends it. */
  datatype ApiTask = ApiTask(id: string, code: string, title: string, description: string,
                             taskType: string, start_date: Option<string>, end_date: Option<string>,
                             status: string)

  /** A task as the client sends it to be created (`Omit<ApiTask, 'id'>`). */
  datatype ApiTaskData = ApiTaskData(code: string, title: string, description: string,
                                     taskType: string, start_date: Option<string>,
                                     end_date: Option<string>, status: string)

  /** `date ? date.toISOString().split('T')[0] : null` */
  function WireDate(date: Option<JsDate>): (r: Result<Option<string>>)
    ensures r.Err? <==> date == Some(InvalidDate)
    ensures date.None? ==> r == Ok(None)
    ensures r.Ok? && date.Some? ==>
      r.value.Some? && ParseFullDate(r.value.value) == Some(date.value.day)
  {
    match date
    case None => Ok(None)
    case Some(d) =>
      match IsoDateOf(d)
      case Ok(s) =>
        ParseOfFullDate(d.day);
        Ok(Some(s))
      case Err(e) => Err(e)
  }

  /** `s ? new Date(s) : null`: `null` and the empty string both give `null`. */
  function DomainDate(s: Option<string>): (r: Option<JsDate>)
    ensures r.None? <==> s.None? || s.value == ""
    ensures r.Some? && ParseFullDate(s.value).Some? ==>
      r.value == Instant(ParseFullDate(s.value).value, 0)
  {
    match s
    case None => None
    case Some(str) => if str == "" then None else Some(NewDate(str))
  }

  /** `convertToApiFormat`: copies the text fields, converts each date to its UTC calendar
      day; a date that is the Invalid Date makes the conversion throw. */
  function ConvertToApiFormat(task: TaskData): (r: Result<ApiTaskData>)
    ensures r.Err? <==> task.startDate == Some(InvalidDate) || task.endDate == Some(InvalidDate)
    ensures r.Ok? ==>
      && r.value.code == task.code && r.value.title == task.title
      && r.value.description == task.description && r.value.taskType == task.taskType
      && r.value.status == task.status
      && (r.value.start_date.None? <==> task.startDate.None?)
      && (r.value.end_date.None? <==> task.endDate.None?)
      && (task.startDate.Some? ==> ParseFullDate(r.value.start_date.value) == Some(task.startDate.value.day))
      && (task.endDate.Some? ==> ParseFullDate(r.value.end_date.value) == Some(task.endDate.value.day))
  {
    match (WireDate(task.startDate), WireDate(task.endDate))
    case (Ok(start), Ok(end)) =>
      Ok(ApiTaskData(task.code, task.title, task.description, task.taskType, start, end, task.status))
    case (Err(e), _) => Err(e)
    case (_, Err(e)) => Err(e)
  }

  /** `convertFromApiFormat`: copies the id and text fields; a non-empty date string is
      read with `new Date`, a missing or empty one becomes `null`. */
  function ConvertFromApiFormat(apiTask: ApiTask): (r: Task)
    ensures && r.id == apiTask.id && r.code == apiTask.code && r.title == apiTask.title
            && r.description == apiTask.description && r.taskType == apiTask.taskType
            && r.status == apiTask.status
    ensures r.startDate.None? <==> apiTask.start_date.None? || apiTask.start_date.value == ""
    ensures r.endDate.None? <==> apiTask.end_date.None? || apiTask.end_date.value == ""
    ensures r.startDate == DomainDate(apiTask.start_date) && r.endDate == DomainDate(apiTask.end_date)
  {
    Task(apiTask.id, apiTask.code, apiTask.title, apiTask.description, apiTask.taskType,
         DomainDate(apiTask.start_date), DomainDate(apiTask.end_date), apiTask.status)
  }

  /** The fields of a domain task other than its id. */
  function WithoutId(task: Task): TaskData {
    TaskData(task.code, task.title, task.description, task.taskType, task.startDate,
             task.endDate, task.status)
  }

  /** The same task as created by the server under `id`. */
  function WithId(data: ApiTaskData, id: string): ApiTask {
    ApiTask(id, data.code, data.title, data.description, data.taskType, data.start_date,
            data.end_date, data.status)
  }

  /** A wire date the client can read back: `null`, empty, or a real `YYYY-MM-DD` day. */
  predicate IsReadableWireDate(s: Option<string>) {
    s.None? || s.value == "" || ParseFullDate(s.value).Some?
  }

  /** An empty wire date reads as `null`, so it is sent back as `null`. */
  function Normalized(s: Option<string>): Option<string> {
    if s == Some("") then None else s
  }

  /** The same domain date at UTC midnight of its day. */
  function AtMidnight(date: Option<JsDate>): Option<JsDate> {
    match date
    case Some(Instant(d, _)) => Some(Instant(d, 0))
    case _ => date
  }

  /** Wire to domain to wire: every field comes back unchanged, except that an empty
      date string comes back as `null`. */
  lemma WireRoundTrip(apiTask: ApiTask)
    requires IsReadableWireDate(apiTask.start_date) && IsReadableWireDate(apiTask.end_date)
    ensures ConvertToApiFormat(WithoutId(ConvertFromApiFormat(apiTask))) ==
      Ok(ApiTaskData(apiTask.code, apiTask.title, apiTask.description, apiTask.taskType,
                     Normalized(apiTask.start_date), Normalized(apiTask.end_date), apiTask.status))
  {
  }

  /** Domain to wire to domain: the server's id is added and every date is moved to
      UTC midnight of its day; nothing else changes. */
  lemma DomainRoundTrip(task: TaskData, id: string)
    requires task.startDate != Some(InvalidDate) && task.endDate != Some(InvalidDate)
    ensures ConvertToApiFormat(task).Ok?
    ensures ConvertFromApiFormat(WithId(ConvertToApiFormat(task).value, id)) ==
      Task(id, task.code, task.title, task.description, task.taskType,
           AtMidnight(task.startDate), AtMidnight(task.endDate), task.status)
  {
  }

  /** The object keys the update path uses: the fields of `Task` and the two wire date
      fields. */
  datatype Key =
    | Id | Code | Title | Description | Type | Status | StartDate | EndDate
    | WireStartDate | WireEndDate
  {
    /** The key as it is written in JavaScript and in the JSON body. */
    function Name(): string {
      match this
      case Id => "id"
      case Code => "code"
      case Title => "title"
      case Description => "description"
      case Type => "type"
      case Status => "status"
      case StartDate => "startDate"
      case EndDate => "endDate"
      case WireStartDate => "start_date"
      case WireEndDate => "end_date"
    }

    predicate IsText() { Code? || Title? || Description? || Type? || Status? }

    predicate IsDomainDate() { StartDate? || EndDate? }

    predicate IsWireDate() { WireStartDate? || WireEndDate? }

    /** The domain date field a wire date field carries. */
    function DomainKey(): Key
      requires IsWireDate()
    {
      if WireStartDate? then StartDate else EndDate
    }

    /** The wire field that carries a domain date field. */
    function WireKey(): Key
      requires IsDomainDate()
    {
      if StartDate? then WireStartDate else WireEndDate
    }
  }

  /** A JavaScript value as it can appear in a `Partial<Task>` or in the update object. */
  datatype JsValue = Undefined | Null | Str(s: string) | DateObj(date: JsDate)

  /** A plain JavaScript object; object spread `{...a, ...b}` is the right-biased `a + b`. */
  type JsObject = map<Key, JsValue>

  /** A JSON value as the update body carries it. */
  datatype Json = JNull | JString(s: string)

  /** An object of type `Partial<Task>`: only fields of `Task`, text fields (and the id)
      hold strings, date fields hold a date or `null`, and any field may be explicitly
      `undefined`. */
  predicate IsPartialTask(u: JsObject) {
    forall k :: k in u ==>
      ((k.Id? || k.IsText()) && (u[k].Str? || u[k].Undefined?))
      || (k.IsDomainDate() && !u[k].Str?)
  }

  function Get(o: JsObject, k: Key): JsValue {
    if k in o then o[k] else Undefined
  }

  /** `JSON.stringify` on a flat object without dates: keys whose value is `undefined` are
      dropped. */
  function Stringify(o: JsObject): (r: map<Key, Json>)
    requires forall k :: k in o ==> !o[k].DateObj?
    ensures forall k :: k in r <==> k in o && !o[k].Undefined?
    ensures forall k :: k in r ==> r[k] == if o[k].Null? then JNull else JString(o[k].s)
  {
    map k | k in o && !o[k].Undefined? :: if o[k].Null? then JNull else JString(o[k].s)
  }

  /** `date ? date.toISOString().split('T')[0] : undefined` */
  function UpdateDate(v: JsValue): (r: Result<JsValue>)
    ensures r.Err? <==> v == DateObj(InvalidDate)
    ensures r.Ok? ==> r.value == if v.DateObj? then Str(FullDate(v.date.day)) else Undefined
  {
    match v
    case DateObj(d) =>
      (match IsoDateOf(d)
       case Ok(s) => Ok(Str(s))
       case Err(e) => Err(e))
    case _ => Ok(Undefined)
  }

  /** The `taskUpdate` object of `updateTask`: the updates, with the wire date fields
      added and the domain date keys set to `undefined`. */
  function TaskUpdate(updates: JsObject): (r: Result<JsObject>)
    requires IsPartialTask(updates)
    ensures r.Err? <==>
      Get(updates, StartDate) == DateObj(InvalidDate) || Get(updates, EndDate) == DateObj(InvalidDate)
    ensures r.Ok? ==> forall k :: k in r.value ==> !r.value[k].DateObj?
  {
    var start := UpdateDate(Get(updates, StartDate));
    var end := UpdateDate(Get(updates, EndDate));
    if start.Err? then Err(start.error)
    else if end.Err? then Err(end.error)
    else
      Ok(updates[WireStartDate := start.value][WireEndDate := end.value]
                [StartDate := Undefined][EndDate := Undefined])
  }

  /** Each key of the `taskUpdate` object: the domain date keys are `undefined`, the wire
      date keys hold the converted dates, and every other key is copied from `updates`. */
  lemma TaskUpdateAt(updates: JsObject, k: Key)
    requires IsPartialTask(updates) && TaskUpdate(updates).Ok?
    ensures k in TaskUpdate(updates).value <==> k in updates || k.IsDomainDate() || k.IsWireDate()
    ensures k in TaskUpdate(updates).value ==>
      TaskUpdate(updates).value[k] ==
        (if k.IsDomainDate() then Undefined
         else if k.IsWireDate() then UpdateDate(Get(updates, k.DomainKey())).value
         else updates[k])
  {
    var start := UpdateDate(Get(updates, StartDate));
    var end := UpdateDate(Get(updates, EndDate));
    var t := updates[WireStartDate := start.value][WireEndDate := end.value]
                    [StartDate := Undefined][EndDate := Undefined];
    assert TaskUpdate(updates) == Ok(t);
    match k
    case StartDate =>
    case EndDate =>
    case WireStartDate =>
    case WireEndDate =>
    case _ =>
      assert k in t <==> k in updates;
  }

  /** The update request body `JSON.stringify({ id, ...taskUpdate })`. It carries the id
      (the one inside `updates` when that holds a string), the text fields that `updates`
      supplies, `start_date`/`end_date` only for a date that is present and non-null, and
      never the domain keys `startDate`/`endDate`. A date that is the Invalid Date makes
      it throw. */
  function UpdateBody(id: string, updates: JsObject): (r: Result<map<Key, Json>>)
    requires IsPartialTask(updates)
    ensures r.Err? <==>
      Get(updates, StartDate) == DateObj(InvalidDate) || Get(updates, EndDate) == DateObj(InvalidDate)
    ensures r.Ok? ==> StartDate !in r.value && EndDate !in r.value
    ensures r.Ok? ==> (Id in r.value <==> Get(updates, Id).Str? || Id !in updates)
    ensures r.Ok? && Id in r.value ==>
      r.value[Id] == JString(if Id in updates then updates[Id].s else id)
  {
    match TaskUpdate(updates)
    case Ok(taskUpdate) =>
      TaskUpdateAt(updates, Id);
      TaskUpdateAt(updates, StartDate);
      TaskUpdateAt(updates, EndDate);
      Ok(Stringify(map[Id := Str(id)] + taskUpdate))
    case Err(e) => Err(e)
  }

  /** The text fields in the update body are exactly the ones `updates` supplies as
      strings, with the same values. */
  lemma UpdateBodyText(id: string, updates: JsObject, k: Key)
    requires IsPartialTask(updates) && UpdateBody(id, updates).Ok? && k.IsText()
    ensures k in UpdateBody(id, updates).value <==> Get(updates, k).Str?
    ensures k in UpdateBody(id, updates).value ==>
      UpdateBody(id, updates).value[k] == JString(updates[k].s)
  {
    var t := TaskUpdate(updates).value;
    var o := map[Id := Str(id)] + t;
    assert UpdateBody(id, updates).value == Stringify(o);
    TaskUpdateAt(updates, k);
  }

  /** The wire dates in the update body: `start_date` is sent exactly when `updates`
      holds a date object for `startDate`, as the `YYYY-MM-DD` of its UTC day; a `null`
      or absent date is omitted rather than sent as a clear. Likewise for `end_date`. */
  lemma UpdateBodyDate(id: string, updates: JsObject, k: Key)
    requires IsPartialTask(updates) && UpdateBody(id, updates).Ok? && k.IsDomainDate()
    ensures k.WireKey() in UpdateBody(id, updates).value <==> Get(updates, k).DateObj?
    ensures k.WireKey() in UpdateBody(id, updates).value ==>
      UpdateBody(id, updates).value[k.WireKey()] == JString(FullDate(updates[k].date.day))
  {
    var t := TaskUpdate(updates).value;
    var o := map[Id := Str(id)] + t;
    assert UpdateBody(id, updates).value == Stringify(o);
    TaskUpdateAt(updates, k.WireKey());
  }
}

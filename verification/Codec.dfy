/**
 * taskrunner/grpc/codec.py and the dictionary form of taskrunner/shared/models.py: conversion of
 * specs, envelopes and results to messages and back. JSON text is known only through its printer and
 * parser; a message holds no absent strings and no absent numbers, so the empty ones stand for them.
 */
module Codec {
  import opened Models
  import opened Ordering

  /** json.dumps, json.loads (None for a JSONDecodeError), and a string as a JSON value. */
  datatype JsonText = JsonText(dumps: Json -> string, loads: string -> Option<Json>, text: string -> Json)

  /** Printing and parsing are inverse, and the empty text is not JSON. */
  ghost predicate Inverse(t: JsonText) {
    (forall j :: t.loads(t.dumps(j)) == Some(j)) && t.loads("").None?
  }

  predicate IsInt32(n: int) {
    -0x8000_0000 <= n < 0x8000_0000
  }

  datatype SpecMessage = SpecMessage(
    target: string,
    payload: map<string, string>,
    kind: string,
    queue: string,
    priority: int,
    delaySeconds: real,
    maxRetries: int,
    retryBackoffSeconds: real,
    timeoutSeconds: real,
    affinity: seq<string>,
    dependsOn: seq<string>,
    batchKey: string)

  datatype TaskMessage = TaskMessage(
    taskId: string,
    spec: SpecMessage,
    status: string,
    attempts: int,
    assignedWorker: string,
    lastError: string,
    createdAt: real,
    availableAt: real)

  datatype ResultMessage = ResultMessage(
    taskId: string,
    workerId: string,
    status: string,
    resultJson: string,
    error: string,
    startedAt: real,
    finishedAt: real)

  datatype Envelope = Envelope(taskId: string, task: Task)

  // ---------- Enumerations ----------

  function KindName(k: TaskKind): string {
    match k
    case Cpu => "cpu"
    case Io => "io"
    case Async => "async"
    case Scheduled => "scheduled"
  }

  /** TaskKind(name); an unknown name is a ValueError. */
  function ParseKind(name: string): Option<TaskKind> {
    if name == "cpu" then Some(Cpu)
    else if name == "io" then Some(Io)
    else if name == "async" then Some(Async)
    else if name == "scheduled" then Some(Scheduled)
    else None
  }

  function StatusName(s: TaskStatus): string {
    match s
    case Pending => "pending"
    case Queued => "queued"
    case Running => "running"
    case Acked => "acked"
    case Succeeded => "succeeded"
    case Failed => "failed"
    case Retrying => "retrying"
    case Cancelled => "cancelled"
    case DeadLettered => "dead_lettered"
  }

  function ParseStatus(name: string): Option<TaskStatus> {
    if name == "pending" then Some(Pending)
    else if name == "queued" then Some(Queued)
    else if name == "running" then Some(Running)
    else if name == "acked" then Some(Acked)
    else if name == "succeeded" then Some(Succeeded)
    else if name == "failed" then Some(Failed)
    else if name == "retrying" then Some(Retrying)
    else if name == "cancelled" then Some(Cancelled)
    else if name == "dead_lettered" then Some(DeadLettered)
    else None
  }

  /** The names of the enumerations, as they stand in messages, rows and dictionaries. */
  lemma Names()
    ensures KindName(Cpu) == "cpu" && KindName(Io) == "io" && KindName(Async) == "async"
    ensures KindName(Scheduled) == "scheduled"
    ensures StatusName(Pending) == "pending" && StatusName(Queued) == "queued" && StatusName(Running) == "running"
    ensures StatusName(Acked) == "acked" && StatusName(Succeeded) == "succeeded" && StatusName(Failed) == "failed"
    ensures StatusName(Retrying) == "retrying" && StatusName(Cancelled) == "cancelled"
    ensures StatusName(DeadLettered) == "dead_lettered"
  {
  }

  lemma NamesParse(k: TaskKind, s: TaskStatus)
    ensures ParseKind(KindName(k)) == Some(k) && KindName(k) != ""
    ensures ParseStatus(StatusName(s)) == Some(s) && StatusName(s) != ""
  {
  }

  // ---------- Sets as sorted lists ----------

  ghost predicate Lists(q: seq<string>, s: set<string>) {
    && (forall x :: x in q <==> x in s)
    && (forall i, j | 0 <= i < j < |q| :: StrLess(q[i], q[j]))
  }

  lemma {:induction false} LeastString(s: set<string>) returns (x: string)
    requires s != {}
    ensures x in s && forall y | y in s && y != x :: StrLess(x, y)
  {
    StrTotal();
    x :| x in s;
    if s != {x} {
      var y := LeastString(s - {x});
      if StrLess(y, x) {
        x := y;
      }
    }
  }

  lemma {:induction false} ListExists(s: set<string>) returns (q: seq<string>)
    ensures Lists(q, s)
  {
    if s == {} {
      q := [];
    } else {
      var x := LeastString(s);
      var r := ListExists(s - {x});
      q := [x] + r;
    }
  }

  /** `sorted` of a set. */
  ghost function Sorted(s: set<string>): (q: seq<string>)
    ensures Lists(q, s)
  {
    assert exists q :: Lists(q, s) by { var q := ListExists(s); }
    var q :| Lists(q, s);
    q
  }

  function Elements(q: seq<string>): set<string> {
    set x | x in q
  }

  lemma SortedElements(s: set<string>)
    ensures Elements(Sorted(s)) == s
  {
  }

  // ---------- Empty for absent ----------

  function OrEmpty(s: Option<string>): string {
    if s.Some? then s.value else ""
  }

  function OrNone(s: string): Option<string> {
    if s == "" then None else Some(s)
  }

  /** What an optional string becomes: the empty one is lost. */
  function Kept(s: Option<string>): Option<string> {
    if s == Some("") then None else s
  }

  // ---------- Specs ----------

  ghost function PayloadToProto(t: JsonText, payload: map<string, Json>): map<string, string> {
    map k | k in payload :: t.dumps(payload[k])
  }

  function ParseValue(t: JsonText, value: string): Json {
    var j := t.loads(value);
    if j.Some? then j.value else t.text(value)
  }

  function ParsePayload(t: JsonText, payload: map<string, string>): map<string, Json> {
    map k | k in payload :: ParseValue(t, payload[k])
  }

  /** The loop of `spec_from_proto`: unparsable values stay as strings. */
  method DecodePayload(t: JsonText, payload: map<string, string>) returns (result: map<string, Json>)
    ensures result.Keys == payload.Keys
    ensures forall k | k in payload :: match t.loads(payload[k])
                                       case Some(j) => result[k] == j
                                       case None => result[k] == t.text(payload[k])
    ensures result == ParsePayload(t, payload)
  {
    result := map[];
    var left := payload.Keys;
    while left != {}
      invariant left <= payload.Keys
      invariant result.Keys == payload.Keys - left
      invariant forall k | k in result :: result[k] == ParseValue(t, payload[k])
      decreases |left|
    {
      var k :| k in left;
      var j := t.loads(payload[k]);
      if j.Some? {
        result := result[k := j.value];
      } else {
        result := result[k := t.text(payload[k])];
      }
      left := left - {k};
    }
  }

  /** None for the ValueError of a number that is not an int32. */
  ghost function SpecToProto(t: JsonText, s: TaskSpec): Option<SpecMessage> {
    if !IsInt32(s.priority) || !IsInt32(s.maxRetries) then None
    else
      Some(SpecMessage(s.target, PayloadToProto(t, s.payload), KindName(s.kind), s.queue, s.priority, s.delaySeconds,
                       s.maxRetries, s.retryBackoffSeconds, s.timeoutSeconds, Sorted(s.affinity), Sorted(s.dependsOn),
                       OrEmpty(s.batchKey)))
  }

  /** None for the ValueError of an unknown kind. */
  function SpecFromProto(t: JsonText, m: SpecMessage): Option<TaskSpec> {
    var kind := if m.kind == "" then Some(Io) else ParseKind(m.kind);
    if kind.None? then None
    else
      Some(TaskSpec(m.target, ParsePayload(t, m.payload), kind.value,
                    if m.queue == "" then "default" else m.queue,
                    if m.priority == 0 then 100 else m.priority,
                    m.delaySeconds, m.maxRetries,
                    if m.retryBackoffSeconds == 0.0 then 1.5 else m.retryBackoffSeconds,
                    if m.timeoutSeconds == 0.0 then 60.0 else m.timeoutSeconds,
                    Elements(m.affinity), Elements(m.dependsOn), OrNone(m.batchKey)).Normalized())
  }

  /** A spec goes through unchanged in all but three values: the ones that mean "absent" in a message. */
  function ThroughWire(s: TaskSpec): TaskSpec {
    s.(priority := if s.priority == 0 then 100 else s.priority,
       retryBackoffSeconds := if s.retryBackoffSeconds == 0.0 then 1.5 else s.retryBackoffSeconds,
       batchKey := Kept(s.batchKey))
  }

  lemma PayloadRoundTrip(t: JsonText, payload: map<string, Json>)
    requires Inverse(t)
    ensures ParsePayload(t, PayloadToProto(t, payload)) == payload
  {
  }

  /** Decoding an encoded normal spec gives it back but for priority 0, backoff 0 and an empty batch key. */
  lemma SpecRoundTrip(t: JsonText, s: TaskSpec)
    requires Inverse(t) && s.IsNormal()
    ensures var m := SpecToProto(t, s);
            && (m.Some? <==> -2_147_483_648 <= s.priority <= 2_147_483_647 && -2_147_483_648 <= s.maxRetries <= 2_147_483_647)
            && (m.Some? ==> SpecFromProto(t, m.value) == Some(ThroughWire(s)))
            && (m.Some? ==> SpecFromProto(t, m.value) ==
                            Some(s.(priority := if s.priority == 0 then 100 else s.priority,
                                    retryBackoffSeconds := if s.retryBackoffSeconds == 0.0 then 1.5 else s.retryBackoffSeconds,
                                    batchKey := if s.batchKey == Some("") then None else s.batchKey)))
  {
    PayloadRoundTrip(t, s.payload);
    NamesParse(s.kind, Pending);
    SortedElements(s.affinity);
    SortedElements(s.dependsOn);
    hide PayloadToProto, ParsePayload, Sorted, Elements, KindName, ParseKind;
  }

  /** A message with nothing but a target: every absent value has its default. */
  lemma AbsentValues(t: JsonText, target: string)
    ensures SpecFromProto(t, SpecMessage(target, map[], "", "", 0, 0.0, 0, 0.0, 0.0, [], [], "")) ==
            Some(TaskSpec(target, map[], Io, "default", 100, 0.0, 0, 1.5, 60.0, {}, {}, None))
  {
    assert ParsePayload(t, map[]) == map[];
    assert Elements([]) == {};
  }

  /** A second trip changes nothing. */
  lemma SecondTripIsIdentity(t: JsonText, s: TaskSpec)
    requires Inverse(t) && s.IsNormal() && IsInt32(s.priority) && IsInt32(s.maxRetries)
    ensures var u := ThroughWire(s);
            var m := SpecToProto(t, u);
            m.Some? && SpecFromProto(t, m.value) == Some(u)
  {
    hide SpecToProto, SpecFromProto;
    SpecRoundTrip(t, ThroughWire(s));
    assert ThroughWire(ThroughWire(s)) == ThroughWire(s);
  }

  /** Any spec, normal or not, survives a trip exactly when it is normal and bears none of the three values. */
  lemma SurvivesExactlyWhen(t: JsonText, s: TaskSpec)
    requires Inverse(t) && IsInt32(s.priority) && IsInt32(s.maxRetries)
    ensures SpecFromProto(t, SpecToProto(t, s).value) == Some(s) <==>
            s.IsNormal() && s.priority != 0 && s.retryBackoffSeconds != 0.0 && s.batchKey != Some("")
  {
    if s.IsNormal() {
      SpecRoundTrip(t, s);
      hide SpecToProto, SpecFromProto;
    } else {
      hide PayloadToProto, ParsePayload, Sorted, Elements, KindName, ParseKind;
      var m := SpecToProto(t, s).value;
      var u := SpecFromProto(t, m);
      assert u.Some? ==> u.value.IsNormal();
    }
  }

  // ---------- Envelopes ----------

  ghost function TaskToProto(t: JsonText, e: Envelope): Option<TaskMessage> {
    var spec := SpecToProto(t, e.task.spec);
    if spec.None? || !IsInt32(e.task.attempts) then None
    else
      Some(TaskMessage(e.taskId, spec.value, StatusName(e.task.status), e.task.attempts, OrEmpty(e.task.assignedWorker),
                       OrEmpty(e.task.lastError), e.task.createdAt, e.task.availableAt))
  }

  /** The lease deadline is not part of the message. */
  function TaskFromProto(t: JsonText, m: TaskMessage): Option<Envelope> {
    var spec := SpecFromProto(t, m.spec);
    var status := if m.status == "" then Some(Pending) else ParseStatus(m.status);
    if spec.None? || status.None? || m.attempts < 0 then None
    else
      Some(Envelope(m.taskId, Task(spec.value, m.createdAt, m.availableAt, m.attempts, status.value,
                                   OrNone(m.lastError), OrNone(m.assignedWorker), None)))
  }

  function TaskThroughWire(task: Task): Task {
    task.(spec := ThroughWire(task.spec), lastError := Kept(task.lastError),
          assignedWorker := Kept(task.assignedWorker), leaseDeadline := None)
  }

  /** An envelope with a normal spec arrives with its lease deadline and its empty strings gone. */
  lemma TaskRoundTrip(t: JsonText, e: Envelope)
    requires Inverse(t) && e.task.spec.IsNormal()
    ensures var m := TaskToProto(t, e);
            && (m.Some? <==> IsInt32(e.task.spec.priority) && IsInt32(e.task.spec.maxRetries) && IsInt32(e.task.attempts))
            && (m.Some? ==> TaskFromProto(t, m.value) == Some(e.(task := TaskThroughWire(e.task))))
            && TaskThroughWire(e.task).leaseDeadline == None
            && TaskThroughWire(e.task).lastError == (if e.task.lastError == Some("") then None else e.task.lastError)
            && TaskThroughWire(e.task).assignedWorker ==
               (if e.task.assignedWorker == Some("") then None else e.task.assignedWorker)
            && TaskThroughWire(e.task) == e.task.(spec := ThroughWire(e.task.spec),
                 lastError := TaskThroughWire(e.task).lastError,
                 assignedWorker := TaskThroughWire(e.task).assignedWorker, leaseDeadline := None)
  {
    hide SpecToProto, SpecFromProto, StatusName, ParseStatus;
    SpecRoundTrip(t, e.task.spec);
    NamesParse(e.task.spec.kind, e.task.status);
  }

  /** An envelope message without status, worker and error stands for a pending task with neither. */
  lemma AbsentTaskValues(t: JsonText, m: TaskMessage)
    requires m.status == "" && m.assignedWorker == "" && m.lastError == "" && m.attempts >= 0
    ensures SpecFromProto(t, m.spec).Some? ==>
              TaskFromProto(t, m) == Some(Envelope(m.taskId, Task(SpecFromProto(t, m.spec).value, m.createdAt, m.availableAt,
                                                                  m.attempts, Pending, None, None, None)))
  {
  }

  // ---------- Results ----------

  ghost function ResultToProto(t: JsonText, r: TaskResult): ResultMessage {
    ResultMessage(r.taskId, r.workerId, StatusName(r.status), t.dumps(r.result), OrEmpty(r.error), r.startedAt, r.finishedAt)
  }

  /** `nothing` is the JSON null that stands for Python's None. */
  function ResultFromProto(t: JsonText, nothing: Json, m: ResultMessage): Option<TaskResult> {
    var status := if m.status == "" then Some(Failed) else ParseStatus(m.status);
    if status.None? then None
    else
      Some(TaskResult(m.taskId, m.workerId, status.value, m.startedAt, m.finishedAt,
                      if m.resultJson == "" then nothing else ParseValue(t, m.resultJson), OrNone(m.error)))
  }

  /** A result arrives as it was sent, but an empty error is no error. */
  lemma ResultRoundTrip(t: JsonText, nothing: Json, r: TaskResult)
    requires Inverse(t)
    ensures ResultFromProto(t, nothing, ResultToProto(t, r)) == Some(r.(error := if r.error == Some("") then None else r.error))
  {
    hide StatusName, ParseStatus;
    NamesParse(Io, r.status);
    assert t.loads(t.dumps(r.result)) == Some(r.result);
    assert t.dumps(r.result) != "";
  }

  /** A result message without status or result stands for a failure with nothing; text that is not JSON stays text. */
  lemma AbsentResult(t: JsonText, nothing: Json, m: ResultMessage)
    requires m.status == ""
    ensures var r := ResultFromProto(t, nothing, m);
            && r.Some? && r.value.status == TaskStatus.Failed
            && (m.resultJson == "" ==> r.value.result == nothing)
            && (m.resultJson != "" && t.loads(m.resultJson) == None ==> r.value.result == t.text(m.resultJson))
  {
  }

  // ---------- Dictionaries ----------

  /** The dictionary of a spec; None stands for a key that is missing. */
  datatype SpecDict = SpecDict(
    target: Option<string>,
    payload: Option<map<string, Json>>,
    kind: Option<string>,
    queue: Option<string>,
    priority: Option<int>,
    delaySeconds: Option<real>,
    maxRetries: Option<int>,
    retryBackoffSeconds: Option<real>,
    timeoutSeconds: Option<real>,
    affinity: Option<seq<string>>,
    dependsOn: Option<seq<string>>,
    batchKey: Option<string>)

  datatype EnvelopeDict = EnvelopeDict(
    spec: Option<SpecDict>,
    taskId: Option<string>,
    createdAt: Option<real>,
    availableAt: Option<real>,
    attempts: Option<nat>,
    status: Option<string>,
    lastError: Option<string>,
    assignedWorker: Option<string>,
    leaseDeadline: Option<real>)

  function Or<T>(value: Option<T>, default: T): T {
    if value.Some? then value.value else default
  }

  ghost function ToDict(e: Envelope): EnvelopeDict {
    var s := e.task.spec;
    EnvelopeDict(
      Some(SpecDict(Some(s.target), Some(s.payload), Some(KindName(s.kind)), Some(s.queue), Some(s.priority),
                    Some(s.delaySeconds), Some(s.maxRetries), Some(s.retryBackoffSeconds), Some(s.timeoutSeconds),
                    Some(Sorted(s.affinity)), Some(Sorted(s.dependsOn)), s.batchKey)),
      Some(e.taskId), Some(e.task.createdAt), Some(e.task.availableAt), Some(e.task.attempts),
      Some(StatusName(e.task.status)), e.task.lastError, e.task.assignedWorker, e.task.leaseDeadline)
  }

  /** TaskSpec(**spec_data).normalized(), with the defaults of the record; a missing target is a TypeError. */
  function SpecFromDict(s: SpecDict): Option<TaskSpec> {
    var kind := ParseKind(Or(s.kind, KindName(Io)));
    if kind.None? || s.target.None? then None
    else
      Some(TaskSpec(s.target.value, Or(s.payload, map[]), kind.value, Or(s.queue, "default"), Or(s.priority, 100),
                    Or(s.delaySeconds, 0.0), Or(s.maxRetries, 3), Or(s.retryBackoffSeconds, 1.5),
                    Or(s.timeoutSeconds, 60.0), Elements(Or(s.affinity, [])), Elements(Or(s.dependsOn, [])),
                    s.batchKey).Normalized())
  }

  /** The clock is read at t0 and t1 for missing times; a missing spec or id is a KeyError. */
  function FromDict(d: EnvelopeDict, t0: real, t1: real): Option<Envelope> {
    var spec := if d.spec.Some? then SpecFromDict(d.spec.value) else None;
    var status := ParseStatus(Or(d.status, StatusName(Pending)));
    if spec.None? || status.None? || d.taskId.None? then None
    else
      Some(Envelope(d.taskId.value,
                    Task(spec.value, Or(d.createdAt, t0), Or(d.availableAt, t1), Or(d.attempts, 0), status.value,
                         d.lastError, d.assignedWorker, d.leaseDeadline)))
  }

  /** The dictionary form loses nothing exactly when the spec is normal; in any case the spec comes back normalized. */
  lemma DictRoundTrip(e: Envelope, t0: real, t1: real)
    ensures FromDict(ToDict(e), t0, t1) == Some(e.(task := e.task.(spec := e.task.spec.Normalized())))
    ensures FromDict(ToDict(e), t0, t1) == Some(e) <==> e.task.spec.IsNormal()
  {
    hide KindName, ParseKind, StatusName, ParseStatus, Sorted, Elements;
    NamesParse(e.task.spec.kind, e.task.status);
    SortedElements(e.task.spec.affinity);
    SortedElements(e.task.spec.dependsOn);
    NormalizedIsNormal(e.task.spec);
  }

  /** What from_dict makes of any dictionary is an envelope with a normal spec, which a second trip returns unchanged. */
  lemma DictSettles(d: EnvelopeDict, t0: real, t1: real, t2: real, t3: real)
    ensures var e := FromDict(d, t0, t1);
            && (e.Some? ==> e.value.task.spec.IsNormal() && FromDict(ToDict(e.value), t2, t3) == e)
            && (e.Some? <==> && d.taskId.Some? && d.spec.Some? && d.spec.value.target.Some?
                             && ParseKind(Or(d.spec.value.kind, "io")).Some? && ParseStatus(Or(d.status, "pending")).Some?)
  {
    hide ToDict, Elements, ParseKind, ParseStatus;
    if FromDict(d, t0, t1).Some? {
      DictRoundTrip(FromDict(d, t0, t1).value, t2, t3);
    }
  }

  /** A dictionary with nothing but an id and a target: every missing key has its default. */
  lemma MissingKeys(taskId: string, target: string, t0: real, t1: real)
    ensures var s := SpecDict(Some(target), None, None, None, None, None, None, None, None, None, None, None);
            FromDict(EnvelopeDict(Some(s), Some(taskId), None, None, None, None, None, None, None), t0, t1) ==
            Some(Envelope(taskId, Task(TaskSpec(target, map[], Io, "default", 100, 0.0, 3, 1.5, 60.0, {}, {}, None),
                                       t0, t1, 0, Pending, None, None, None)))
  {
    assert Elements([]) == {};
    NamesParse(Io, Pending);
  }
}

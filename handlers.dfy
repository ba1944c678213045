/**
 * The protected task routes as functions from the task table before a
 * request to the response and the table after it. Every handler is scoped
 * to the identity the gate verified.
 */
module Handlers {
  import opened Wrappers
  import opened Api
  import opened Bearer
  import opened Auth
  import opened Updates

  type Tasks = map<TaskId, Task>

  /** A handler's effect: the response it sends and the task table it leaves. */
  datatype Step = Step(response: Response, tasks: Tasks)

  /** The protected routes and what they read from the request. */
  datatype Route =
    | ListRequest                           // GET /tasks
    | AddRequest(body: Body)                // POST /addtask
    | PatchRequest(id: TaskId, body: Body)  // PATCH /:id
    | DeleteRequest(id: TaskId)             // DELETE /:id

  /**
   * Everything outside the request that a step depends on: the signing
   * secret, the clock, the token verifier, the storage driver's behaviour
   * and the identifier the driver gives a new document.
   */
  datatype Env = Env(secret: string, now: int, verify: Verifier, faults: StorageFaults, newId: TaskId)

  /** The query `{ _id: id, userId: uid }` matches a stored task. */
  predicate Owns(tasks: Tasks, uid: UserId, id: TaskId) {
    id in tasks && tasks[id].userId == uid
  }

  /** The result of `Task.find({ userId: uid })`. */
  function OwnedBy(tasks: Tasks, uid: UserId): (r: Tasks)
    ensures forall id :: id in r <==> Owns(tasks, uid, id)
    ensures forall id :: id in r ==> id in tasks && r[id] == tasks[id]
  {
    map id | id in tasks && tasks[id].userId == uid :: tasks[id]
  }

  /** GET /tasks. */
  function ListTasks(tasks: Tasks, uid: UserId, faults: StorageFaults): Response {
    match faults.query
    case Some(m) => Reply(500, Message(m))
    case None => Reply(200, TaskList(OwnedBy(tasks, uid)))
  }

  /** The document `new Task({ userId, text, category })` builds. */
  function NewTask(uid: UserId, body: Body): Task {
    Task(uid, Get(body, "text"), Get(body, "category"), Undefined)
  }

  /** POST /addtask; `newId` is the fresh identifier the driver assigns. */
  function AddTask(tasks: Tasks, uid: UserId, body: Body, newId: TaskId, faults: StorageFaults): Step
    requires newId !in tasks
  {
    match faults.save
    case Some(m) => Step(Reply(400, Message(m)), tasks)
    case None =>
      var t := NewTask(uid, body);
      Step(Reply(201, TaskDoc(newId, t)), tasks[newId := t])
  }

  /** PATCH /:id: allow-list first, then the owner-scoped lookup, then the overwrite and save. */
  function PatchTask(tasks: Tasks, uid: UserId, id: TaskId, body: Body, faults: StorageFaults): Step {
    if !IsValidOperation(Keys(body)) then Step(Reply(400, Message(InvalidUpdates)), tasks)
    else if faults.query.Some? then Step(Reply(400, Message(faults.query.value)), tasks)
    else if !Owns(tasks, uid, id) then Step(Reply(404, Message(TaskNotFound)), tasks)
    else if faults.save.Some? then Step(Reply(400, Message(faults.save.value)), tasks)
    else
      var t := Overwritten(tasks[id], body);
      Step(Reply(200, TaskDoc(id, t)), tasks[id := t])
  }

  /** DELETE /:id: `findOneAndDelete` with the owner in the filter. */
  function DeleteTask(tasks: Tasks, uid: UserId, id: TaskId, faults: StorageFaults): Step {
    if faults.query.Some? then Step(Reply(500, Message(faults.query.value)), tasks)
    else if !Owns(tasks, uid, id) then Step(Reply(404, Message(TaskNotFound)), tasks)
    else Step(Reply(200, Message(TaskDeleted)), tasks - {id})
  }

  /** The handler of `route`, run for the user the gate admitted. */
  function Dispatch(tasks: Tasks, uid: UserId, route: Route, env: Env): Step
    requires route.AddRequest? ==> env.newId !in tasks
  {
    match route
    case ListRequest => Step(ListTasks(tasks, uid, env.faults), tasks)
    case AddRequest(body) => AddTask(tasks, uid, body, env.newId, env.faults)
    case PatchRequest(id, body) => PatchTask(tasks, uid, id, body, env.faults)
    case DeleteRequest(id) => DeleteTask(tasks, uid, id, env.faults)
  }

  /** A protected request: `authMiddleware`, then the route's handler if the gate admits it. */
  function Serve(tasks: Tasks, header: Option<string>, route: Route, env: Env): Step
    requires route.AddRequest? ==> env.newId !in tasks
  {
    match Gate(header, env.secret, env.now, env.verify)
    case Halt(resp) => Step(resp, tasks)
    case Admit(c) => Dispatch(tasks, c.userId, route, env)
  }

  /** The identity a request runs as, if the gate admits it. */
  function Caller(header: Option<string>, env: Env): Option<UserId> {
    match Gate(header, env.secret, env.now, env.verify)
    case Halt(_) => None
    case Admit(c) => Some(c.userId)
  }

  // ---------------------------------------------------------------------
  // The gate

  /**
   * A header of exactly `Bearer ` gets 401 'Autorização negada', any header
   * whose extracted token the verifier rejects gets 401 'Token inválido'
   * (with the prefix or without it), a missing header escapes as
   * an uncaught error; in each case no handler runs and the table is unchanged.
   */
  lemma RejectedRequestsChangeNothing(tasks: Tasks, route: Route, env: Env, h: string)
    requires route.AddRequest? ==> env.newId !in tasks
    ensures Serve(tasks, Some(Prefix), route, env) == Step(Reply(401, Message(AuthorizationDenied)), tasks)
    ensures ExtractToken(h) != "" && env.verify(ExtractToken(h), env.secret, env.now) == None ==>
              Serve(tasks, Some(h), route, env) == Step(Reply(401, Message(InvalidToken)), tasks)
    ensures Serve(tasks, None, route, env) == Step(Uncaught, tasks)
  {
    GateDeniesEmptyToken(Prefix, env.secret, env.now, env.verify);
  }

  /** Every response the gate does not admit is the gate's own, with the table unchanged. */
  lemma HaltedRequestsChangeNothing(tasks: Tasks, header: Option<string>, route: Route, env: Env)
    requires route.AddRequest? ==> env.newId !in tasks
    requires Gate(header, env.secret, env.now, env.verify).Halt?
    ensures Serve(tasks, header, route, env) == Step(Gate(header, env.secret, env.now, env.verify).response, tasks)
    ensures Serve(tasks, header, route, env).response in
              {Uncaught, Reply(401, Message(AuthorizationDenied)), Reply(401, Message(InvalidToken))}
  {
  }

  // ---------------------------------------------------------------------
  // Scoping by owner

  /** GET /tasks answers with exactly the caller's stored tasks and no others. */
  lemma ListIsExactlyOwn(tasks: Tasks, uid: UserId)
    ensures ListTasks(tasks, uid, NoFaults).Reply?
    ensures ListTasks(tasks, uid, NoFaults).payload.TaskList?
    ensures var listed := ListTasks(tasks, uid, NoFaults).payload.tasks;
            (forall id :: id in listed <==> id in tasks && tasks[id].userId == uid) &&
            (forall id :: id in listed ==> listed[id] == tasks[id])
  {
  }

  /** POST /addtask stores one new task stamped with the caller's id and the body's text and category; nothing else changes. */
  lemma AddStampsCaller(tasks: Tasks, uid: UserId, body: Body, newId: TaskId)
    requires newId !in tasks
    ensures var s := AddTask(tasks, uid, body, newId, NoFaults);
            s.tasks.Keys == tasks.Keys + {newId} &&
            s.tasks[newId].userId == uid &&
            s.tasks[newId].text == Get(body, "text") && s.tasks[newId].category == Get(body, "category") &&
            (forall id :: id in tasks ==> s.tasks[id] == tasks[id]) &&
            s.response == Reply(201, TaskDoc(newId, s.tasks[newId]))
  {
  }

  /** A body naming any key outside the allow-list is refused whatever the table, the user, the id and the driver. */
  lemma ValidationPrecedesLookup(tasks: Tasks, uid: UserId, id: TaskId, body: Body, faults: StorageFaults, i: nat)
    requires i < |body| && body[i].0 !in AllowedUpdates
    ensures PatchTask(tasks, uid, id, body, faults) == Step(Reply(400, Message(InvalidUpdates)), tasks)
  {
  }

  /** A body that names only allowed keys, the empty body included, passes the validation. */
  lemma AllowedBodiesPassValidation(tasks: Tasks, uid: UserId, id: TaskId, body: Body)
    requires AllAllowed(body)
    ensures PatchTask(tasks, uid, id, body, NoFaults).response != Reply(400, Message(InvalidUpdates))
  {
  }

  /**
   * PATCH and DELETE answer an absent id and another user's id alike,
   * whatever the body and the driver do; with a working query that answer
   * is the same 404, leaving the table unchanged.
   */
  lemma NotFoundIndistinguishable(tasks: Tasks, uid: UserId, absent: TaskId, foreign: TaskId, body: Body, faults: StorageFaults)
    requires absent !in tasks
    requires foreign in tasks && tasks[foreign].userId != uid
    ensures PatchTask(tasks, uid, foreign, body, faults) == PatchTask(tasks, uid, absent, body, faults)
    ensures DeleteTask(tasks, uid, foreign, faults) == DeleteTask(tasks, uid, absent, faults)
    ensures AllAllowed(body) && faults.query.None? ==>
              PatchTask(tasks, uid, absent, body, faults) == Step(Reply(404, Message(TaskNotFound)), tasks)
    ensures faults.query.None? ==> DeleteTask(tasks, uid, absent, faults) == Step(Reply(404, Message(TaskNotFound)), tasks)
  {
  }

  /**
   * A successful PATCH overwrites exactly the keys the body has: the other
   * fields of that task, its owner among them, and every other task are
   * unchanged; the response is the updated task.
   */
  lemma PatchAppliesExactlyBodyKeys(tasks: Tasks, uid: UserId, id: TaskId, body: Body)
    requires Owns(tasks, uid, id) && AllAllowed(body)
    ensures var s := PatchTask(tasks, uid, id, body, NoFaults);
            var t := s.tasks[id];
            s.tasks.Keys == tasks.Keys &&
            t.userId == uid &&
            t.text == (if Lookup(body, "text").Some? then Lookup(body, "text").value else tasks[id].text) &&
            t.category == (if Lookup(body, "category").Some? then Lookup(body, "category").value else tasks[id].category) &&
            t.isCompleted == (if Lookup(body, "isCompleted").Some? then Lookup(body, "isCompleted").value else tasks[id].isCompleted) &&
            (forall other :: other in tasks && other != id ==> s.tasks[other] == tasks[other]) &&
            s.response == Reply(200, TaskDoc(id, t))
  {
  }

  /** An empty PATCH body on an owned task answers the task as stored and changes nothing. */
  lemma EmptyPatchChangesNothing(tasks: Tasks, uid: UserId, id: TaskId)
    requires Owns(tasks, uid, id)
    ensures PatchTask(tasks, uid, id, [], NoFaults) == Step(Reply(200, TaskDoc(id, tasks[id])), tasks)
  {
  }

  /** DELETE removes the task exactly when id and owner match; no other task is touched. */
  lemma DeleteOnlyOwned(tasks: Tasks, uid: UserId, id: TaskId)
    ensures var s := DeleteTask(tasks, uid, id, NoFaults);
            (s.response == Reply(200, Message(TaskDeleted)) <==> Owns(tasks, uid, id)) &&
            (Owns(tasks, uid, id) ==> s.tasks.Keys == tasks.Keys - {id}) &&
            (!Owns(tasks, uid, id) ==> s == Step(Reply(404, Message(TaskNotFound)), tasks)) &&
            (forall other :: other in tasks && other != id ==> other in s.tasks && s.tasks[other] == tasks[other])
  {
  }

  /**
   * Whatever the request: tasks the caller does not own (all tasks, when the
   * gate halts) are neither changed nor removed, no stored task changes
   * owner, and a task that appears is the caller's.
   */
  lemma OthersTasksUntouched(tasks: Tasks, header: Option<string>, route: Route, env: Env)
    requires route.AddRequest? ==> env.newId !in tasks
    ensures var s := Serve(tasks, header, route, env);
            var caller := Caller(header, env);
            (forall id :: id in tasks && (caller.None? || tasks[id].userId != caller.value) ==>
               id in s.tasks && s.tasks[id] == tasks[id]) &&
            (forall id :: id in tasks && id in s.tasks ==> s.tasks[id].userId == tasks[id].userId) &&
            (forall id :: id in s.tasks && id !in tasks ==> caller.Some? && s.tasks[id].userId == caller.value)
  {
  }

  /** No response to a request carries a task the caller does not own. */
  lemma ResponsesRevealOnlyOwnTasks(tasks: Tasks, header: Option<string>, route: Route, env: Env)
    requires route.AddRequest? ==> env.newId !in tasks
    ensures var r := Serve(tasks, header, route, env).response;
            var caller := Caller(header, env);
            (r.Reply? && r.payload.TaskDoc? ==> caller.Some? && r.payload.task.userId == caller.value) &&
            (r.Reply? && r.payload.TaskList? ==>
               caller.Some? && forall id :: id in r.payload.tasks ==> r.payload.tasks[id].userId == caller.value)
  {
  }
}

/**
 * The task collection as an object whose handlers update it in place. Each
 * method does what its route's code does, step by step, and is proved to
 * produce the response and the table of the matching function in Handlers.
 */
module Store {
  import opened Wrappers
  import opened Api
  import opened Auth
  import opened Updates
  import opened Handlers

  class TaskStore {
    /** The stored task documents by `_id`. */
    var tasks: Tasks

    constructor ()
      ensures tasks == map[]
    {
      tasks := map[];
    }

    /** GET /tasks for the authenticated `user`. */
    method List(user: Claims, faults: StorageFaults) returns (r: Response)
      ensures r == ListTasks(tasks, user.userId, faults)
    {
      if faults.query.Some? {
        return Reply(500, Message(faults.query.value));
      }
      var found := OwnedBy(tasks, user.userId);
      r := Reply(200, TaskList(found));
    }

    /** POST /addtask for the authenticated `user`; the driver names the new document `newId`. */
    method Add(user: Claims, body: Body, newId: TaskId, faults: StorageFaults) returns (r: Response)
      requires newId !in tasks
      modifies this
      ensures Step(r, tasks) == AddTask(old(tasks), user.userId, body, newId, faults)
    {
      var text, category := Get(body, "text"), Get(body, "category");
      var task := Task(user.userId, text, category, Undefined);
      if faults.save.Some? {
        return Reply(400, Message(faults.save.value));
      }
      tasks := tasks[newId := task];
      r := Reply(201, TaskDoc(newId, task));
    }

    /** PATCH /:id for the authenticated `user`. */
    method Update(user: Claims, id: TaskId, body: Body, faults: StorageFaults) returns (r: Response)
      modifies this
      ensures Step(r, tasks) == PatchTask(old(tasks), user.userId, id, body, faults)
    {
      var updates := Keys(body);
      var isValidOperation := IsValidOperation(updates);
      if !isValidOperation {
        return Reply(400, Message(InvalidUpdates));
      }
      if faults.query.Some? {
        return Reply(400, Message(faults.query.value));
      }
      if !(id in tasks && tasks[id].userId == user.userId) {
        return Reply(404, Message(TaskNotFound));
      }
      var task := tasks[id];
      for i := 0 to |updates|
        invariant task == AssignAll(tasks[id], updates[..i], body)
      {
        assert updates[..i + 1][..i] == updates[..i];
        task := SetField(task, updates[i], Get(body, updates[i]));
      }
      assert updates[..|updates|] == updates;
      ForEachOverwrites(tasks[id], body);
      if faults.save.Some? {
        return Reply(400, Message(faults.save.value));
      }
      tasks := tasks[id := task];
      r := Reply(200, TaskDoc(id, task));
    }

    /** DELETE /:id for the authenticated `user`. */
    method Delete(user: Claims, id: TaskId, faults: StorageFaults) returns (r: Response)
      modifies this
      ensures Step(r, tasks) == DeleteTask(old(tasks), user.userId, id, faults)
    {
      if faults.query.Some? {
        return Reply(500, Message(faults.query.value));
      }
      if !(id in tasks && tasks[id].userId == user.userId) {
        return Reply(404, Message(TaskNotFound));
      }
      tasks := tasks - {id};
      r := Reply(200, Message(TaskDeleted));
    }

    /**
     * A protected request: `authMiddleware` runs first and either answers
     * it or sets `req.user`, which the route's handler then reads.
     */
    method Handle(req: Request, route: Route, env: Env) returns (r: Response)
      requires route.AddRequest? ==> env.newId !in tasks
      modifies this, req
      ensures Step(r, tasks) == Serve(old(tasks), req.header, route, env)
      ensures match Gate(req.header, env.secret, env.now, env.verify)
              case Admit(c) => req.user == Some(c)
              case Halt(_) => req.user == old(req.user)
    {
      var halted := AuthMiddleware(req, env.secret, env.now, env.verify);
      if halted.Some? {
        return halted.value;
      }
      var user := req.user.value;
      match route
      case ListRequest =>
        r := List(user, env.faults);
      case AddRequest(body) =>
        r := Add(user, body, env.newId, env.faults);
      case PatchRequest(id, body) =>
        r := Update(user, id, body, env.faults);
      case DeleteRequest(id) =>
        r := Delete(user, id, env.faults);
    }
  }
}

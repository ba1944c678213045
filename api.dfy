/**
 * The records the task API handles: tasks, users, token claims, request
 * bodies and the responses the handlers send.
 */
module Api {
  import opened Wrappers

  type UserId = string
  type TaskId = string

  /**
   * A JSON value as it arrives in a request body. `Undefined` stands for a
   * property the body does not have (reading it in JavaScript gives
   * `undefined`). Arrays, objects and non-integral numbers are not modelled.
   */
  datatype Value = Undefined | Null | Bool(b: bool) | Num(n: int) | Str(s: string)

  /**
   * A parsed JSON request body: its properties in enumeration order. A key
   * that appears twice keeps its last value, as JSON.parse does.
   */
  type Body = seq<(string, Value)>

  /** A stored task document; `userId` is the owner's identifier. */
  datatype Task = Task(userId: UserId, text: Value, category: Value, isCompleted: Value)

  /** A stored user; `passwordHash` is opaque to this model. */
  datatype User = User(id: UserId, name: string, email: string, passwordHash: string)

  /** The payload of an identity token: who it names, when it was issued and when it expires (seconds). */
  datatype Claims = Claims(userId: UserId, name: string, email: string, iat: int, exp: int)

  /** What a handler puts in a JSON response. */
  datatype Payload =
    | Message(text: string)
    | Token(token: string)
    | TaskDoc(id: TaskId, task: Task)
    | TaskList(tasks: map<TaskId, Task>)

  /**
   * A handler's outcome: a status code with a JSON payload, or an exception
   * that escaped every handler and was answered by Express's default error
   * handler.
   */
  datatype Response = Reply(status: int, payload: Payload) | Uncaught

  /**
   * How the storage driver behaves on one request: `query` is the error
   * message of a failing find (findOne, find, findOneAndDelete), `save` that
   * of a failing save. `None` means the call succeeds.
   */
  datatype StorageFaults = StorageFaults(query: Option<string>, save: Option<string>)

  const NoFaults: StorageFaults := StorageFaults(None, None)

  const AuthorizationDenied: string := "Autorização negada"
  const InvalidToken: string := "Token inválido"
  const InvalidCredentials: string := "Credenciais inválidas"
  const InvalidUpdates: string := "Atualizações inválidas"
  const TaskNotFound: string := "Tarefa não encontrada"
  const TaskDeleted: string := "Tarefa deletada"

  /** The position of the last property of the body named `key`. */
  function LastIndexOf(body: Body, key: string): (r: Option<nat>)
    ensures r.Some? ==> r.value < |body| && body[r.value].0 == key
    ensures r.Some? ==> forall j :: r.value < j < |body| ==> body[j].0 != key
    ensures r.None? ==> forall j :: 0 <= j < |body| ==> body[j].0 != key
  {
    if body == [] then None
    else if body[|body| - 1].0 == key then Some(|body| - 1)
    else LastIndexOf(body[..|body| - 1], key)
  }

  /** `body[key]`: the value the body gives `key` (its last, should the key repeat), if it has that key at all. */
  function Lookup(body: Body, key: string): (r: Option<Value>)
    ensures r.None? <==> forall j :: 0 <= j < |body| ==> body[j].0 != key
    ensures r.Some? ==> exists i :: 0 <= i < |body| && body[i] == (key, r.value) && forall j :: i < j < |body| ==> body[j].0 != key
  {
    match LastIndexOf(body, key)
    case None => None
    case Some(i) => Some(body[i].1)
  }

  /** `req.body[key]` as JavaScript reads it: `undefined` when absent. */
  function Get(body: Body, key: string): Value {
    Lookup(body, key).GetOr(Undefined)
  }
}

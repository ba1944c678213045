/** One user's session end to end: log in, list, add, complete, delete, list again. */
module Scenario {
  import opened Wrappers
  import opened Api
  import opened Bearer
  import opened Auth
  import opened Updates
  import opened Handlers

  const Ana: User := User("u1", "Ana", "a@x.com", "stored hash")
  const AddBody: Body := [("text", Str("buy milk")), ("category", Str("home"))]
  const PatchBody: Body := [("isCompleted", Bool(true))]
  const Added: Task := Task("u1", Str("buy milk"), Str("home"), Undefined)
  const Completed: Task := Task("u1", Str("buy milk"), Str("home"), Bool(true))

  /** Ana's correct password earns a token that opens the gate a minute later, as Ana. */
  lemma AnaLogsIn(passwordMatches: PasswordCheck, sign: Signer, verify: Verifier, secret: string, now: int)
    requires TokenServiceSound(sign, verify, secret)
    requires passwordMatches(Ana, "secret1")
    ensures Login([Ana], "a@x.com", "secret1", passwordMatches, sign, secret, now, NoFaults)
            == Reply(200, Token(sign(IssuedClaims(Ana, now), secret)))
    ensures Gate(Some(Prefix + sign(IssuedClaims(Ana, now), secret)), secret, now + 60, verify)
            == Admit(IssuedClaims(Ana, now))
  {
    ExtractTokenOfBearer(sign(IssuedClaims(Ana, now), secret));
  }

  /** What Ana's four task requests do once admitted. */
  lemma AnaWorksOnTasks()
    ensures AddTask(map[], "u1", AddBody, "t1", NoFaults) == Step(Reply(201, TaskDoc("t1", Added)), map["t1" := Added])
    ensures PatchTask(map["t1" := Added], "u1", "t1", PatchBody, NoFaults)
            == Step(Reply(200, TaskDoc("t1", Completed)), map["t1" := Completed])
    ensures DeleteTask(map["t1" := Completed], "u1", "t1", NoFaults) == Step(Reply(200, Message(TaskDeleted)), map[])
  {
  }

  /**
   * Ana logs in and, within the hour, lists her (empty) tasks, adds
   * "buy milk" in "home", marks it completed, deletes it and lists an empty
   * collection again.
   */
  lemma TaskLifecycle(passwordMatches: PasswordCheck, sign: Signer, verify: Verifier, secret: string, now: int)
    requires TokenServiceSound(sign, verify, secret)
    requires passwordMatches(Ana, "secret1")
    ensures var login := Login([Ana], "a@x.com", "secret1", passwordMatches, sign, secret, now, NoFaults);
            login.Reply? && login.status == 200 && login.payload.Token? &&
            var header := Some(Prefix + login.payload.token);
            var env := Env(secret, now + 60, verify, NoFaults, "t1");
            Serve(map[], header, ListRequest, env) == Step(Reply(200, TaskList(map[])), map[]) &&
            Serve(map[], header, AddRequest(AddBody), env) == Step(Reply(201, TaskDoc("t1", Added)), map["t1" := Added]) &&
            Serve(map["t1" := Added], header, PatchRequest("t1", PatchBody), env)
              == Step(Reply(200, TaskDoc("t1", Completed)), map["t1" := Completed]) &&
            Serve(map["t1" := Completed], header, DeleteRequest("t1"), env) == Step(Reply(200, Message(TaskDeleted)), map[])
  {
    AnaLogsIn(passwordMatches, sign, verify, secret, now);
    AnaWorksOnTasks();
  }
}

/**
 * The PATCH body rules: the allow-list check on the body's keys and the
 * field-by-field overwrite of the task.
 */
module Updates {
  import opened Wrappers
  import opened Api

  /** `allowedUpdates`: the only properties a PATCH body may name. */
  const AllowedUpdates: seq<string> := ["text", "category", "isCompleted"]

  /** `Object.keys(req.body)`. */
  function Keys(body: Body): (ks: seq<string>)
    ensures |ks| == |body| && forall i :: 0 <= i < |body| ==> ks[i] == body[i].0
  {
    if body == [] then [] else [body[0].0] + Keys(body[1..])
  }

  /** `updates.every(update => allowedUpdates.includes(update))`. */
  function IsValidOperation(updates: seq<string>): (ok: bool)
    ensures ok <==> forall i :: 0 <= i < |updates| ==> updates[i] in AllowedUpdates
  {
    if updates == [] then true
    else updates[0] in AllowedUpdates && IsValidOperation(updates[1..])
  }

  /** Every property of the body is on the allow-list. */
  predicate AllAllowed(body: Body) {
    forall i :: 0 <= i < |body| ==> body[i].0 in AllowedUpdates
  }

  /** The validation accepts the body exactly when it names no key outside the allow-list. */
  lemma IsValidOperationIff(body: Body)
    ensures IsValidOperation(Keys(body)) <==> AllAllowed(body)
    ensures !IsValidOperation(Keys(body)) <==> exists i :: 0 <= i < |body| && body[i].0 !in AllowedUpdates
  {
  }

  /** `task[key] = value` for a key the allow-list admits. */
  function SetField(t: Task, key: string, v: Value): Task
    requires key in AllowedUpdates
  {
    if key == "text" then t.(text := v)
    else if key == "category" then t.(category := v)
    else t.(isCompleted := v)
  }

  /**
   * The task after `updates.forEach(update => task[update] = req.body[update])`
   * has assigned each listed key in order.
   */
  function AssignAll(t: Task, updates: seq<string>, body: Body): Task
    requires IsValidOperation(updates)
  {
    if updates == [] then t
    else
      var key := updates[|updates| - 1];
      SetField(AssignAll(t, updates[..|updates| - 1], body), key, Get(body, key))
  }

  /** Assigning a list of keys sets exactly the fields it names, to the body's values, and keeps the owner. */
  lemma {:induction false} AssignAllSetsNamedFields(t: Task, updates: seq<string>, body: Body)
    requires IsValidOperation(updates)
    ensures AssignAll(t, updates, body).userId == t.userId
    ensures AssignAll(t, updates, body).text == if "text" in updates then Get(body, "text") else t.text
    ensures AssignAll(t, updates, body).category == if "category" in updates then Get(body, "category") else t.category
    ensures AssignAll(t, updates, body).isCompleted ==
            if "isCompleted" in updates then Get(body, "isCompleted") else t.isCompleted
  {
    if updates != [] {
      var init, key := updates[..|updates| - 1], updates[|updates| - 1];
      assert updates == init + [key];
      AssignAllSetsNamedFields(t, init, body);
    }
  }

  /** A key is among the body's keys exactly when looking it up finds a value. */
  lemma KeysMatchLookup(body: Body, key: string)
    ensures key in Keys(body) <==> Lookup(body, key).Some?
  {
  }

  /**
   * The intended result of a PATCH: each allowed property the body has is
   * overwritten with the body's value; every other field, the owner
   * included, is kept.
   */
  function Overwritten(t: Task, body: Body): Task {
    Task(t.userId,
         Lookup(body, "text").GetOr(t.text),
         Lookup(body, "category").GetOr(t.category),
         Lookup(body, "isCompleted").GetOr(t.isCompleted))
  }

  /** The `forEach` over the body's own keys overwrites exactly the keys the body has, and nothing else. */
  lemma ForEachOverwrites(t: Task, body: Body)
    requires IsValidOperation(Keys(body))
    ensures AssignAll(t, Keys(body), body) == Overwritten(t, body)
  {
    AssignAllSetsNamedFields(t, Keys(body), body);
    KeysMatchLookup(body, "text");
    KeysMatchLookup(body, "category");
    KeysMatchLookup(body, "isCompleted");
  }
}

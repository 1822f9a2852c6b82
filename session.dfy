/**
 * The per-visitor session as the middleware and the action handlers see it:
 * one optional `SessionUser` under the key 'user', replaced by `set` and
 * cleared by `destroy`. The store also keeps the list of writes it received,
 * so that "written exactly once" and "never written" can be stated.
 */
module Session {
  import opened Wrappers
  import opened AuthTypes

  /** One write to the session. */
  datatype SessionOp = Wrote(user: SessionUser) | Destroyed

  /** The stored user after one write. */
  function Step(stored: Option<SessionUser>, op: SessionOp): Option<SessionUser>
  {
    match op
    case Wrote(u) => Some(u)
    case Destroyed => None
  }

  /** The stored user after a list of writes, applied in order. */
  function Replay(stored: Option<SessionUser>, ops: seq<SessionOp>): (r: Option<SessionUser>)
    ensures ops == [] ==> r == stored
    decreases ops
  {
    if ops == [] then stored else Replay(Step(stored, ops[0]), ops[1..])
  }

  /** Replaying one more write applies it to the previous result. */
  lemma {:induction false} ReplayAppend(stored: Option<SessionUser>, ops: seq<SessionOp>, op: SessionOp)
    ensures Replay(stored, ops + [op]) == Step(Replay(stored, ops), op)
    decreases ops
  {
    if ops != [] {
      assert (ops + [op])[0] == ops[0] && (ops + [op])[1..] == ops[1..] + [op];
      ReplayAppend(Step(stored, ops[0]), ops[1..], op);
    } else {
      assert ops + [op] == [op];
    }
  }

  /** Only the last write matters. */
  lemma {:induction false} ReplayLast(stored: Option<SessionUser>, ops: seq<SessionOp>)
    requires ops != []
    ensures Replay(stored, ops) == Step(None, ops[|ops| - 1])
  {
    var init := ops[..|ops| - 1];
    assert ops == init + [ops[|ops| - 1]];
    ReplayAppend(stored, init, ops[|ops| - 1]);
  }

  class SessionStore {
    /** The user the session held when the request started. */
    const initial: Option<SessionUser>
    var user: Option<SessionUser>
    var history: seq<SessionOp>

    /** The stored user is the initial one with every recorded write applied. */
    ghost predicate Valid()
      reads this
    {
      user == Replay(initial, history)
    }

    constructor(stored: Option<SessionUser>)
      ensures initial == stored && user == stored && history == []
      ensures Valid()
    {
      initial := stored;
      user := stored;
      history := [];
    }

    /** `session.get('user')`. */
    method Get() returns (u: Option<SessionUser>)
      ensures u == user
    {
      u := user;
    }

    /** `session.set('user', u)`. */
    method Set(u: SessionUser)
      requires Valid()
      modifies this
      ensures user == Some(u) && history == old(history) + [Wrote(u)]
      ensures Valid()
    {
      ReplayAppend(initial, history, Wrote(u));
      user := Some(u);
      history := history + [Wrote(u)];
    }

    /** `session.destroy()`. */
    method Destroy()
      requires Valid()
      modifies this
      ensures user == None && history == old(history) + [Destroyed]
      ensures Valid()
    {
      ReplayAppend(initial, history, Destroyed);
      user := None;
      history := history + [Destroyed];
    }
  }
}

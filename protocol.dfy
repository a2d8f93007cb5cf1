/**
  Values shared by every entity proxy: nullable strings, the errors the
  validators raise, the request log that stands in for the transport, and
  the small state machine that every property setter runs.
*/
module Protocol {

  datatype Option<+T> = None | Some(value: T) {
    function GetOr(default: T): T
    {
      match this
      case Some(v) => v
      case None => default
    }
  }

  /** A .NET string reference: `None` is null. */
  type NStr = Option<string>

  /** `s ?? string.Empty` */
  function Coalesce(s: NStr): string
  {
    s.GetOr("")
  }

  /** `ToLowerString()` of a boolean, as the setters send it. */
  function LowerBool(b: bool): string
  {
    if b then "true" else "false"
  }

  /** The exceptions a mutator can raise before it sends anything, and the
      one a notification raises when it decodes the type of a null snapshot. */
  datatype Error =
    | ReadOnly          // Validator.Writable: no write access
    | ArgumentNull      // Validator.Nullable, Validator.NonEmptyString
    | ArgumentTooShort  // Validator.MinStringLength
    | InvalidOrgName    // Validator.OrgName
    | InvalidEntity     // Validator.Entity
    | NullSnapshot      // a NullReferenceException reading a null snapshot

  datatype Outcome = Done | Failed(error: Error)

  /** A remote entity as another proxy sees it: by its Id. */
  datatype EntityRef = EntityRef(id: string)

  // ---------------------------------------------------------------------
  // Validator, as far as its call sites show it
  // ---------------------------------------------------------------------

  /** Validator.Nullable: a null value is refused. */
  function Nullable<T>(v: Option<T>): Option<Error>
  {
    if v.None? then Some(ArgumentNull) else None
  }

  /** Validator.NonEmptyString: null and "" are refused. */
  function NonEmptyString(v: NStr): Option<Error>
  {
    if v.None? || v.value == "" then Some(ArgumentNull) else None
  }

  /** Validator.MinStringLength: a value shorter than `min` (null counts as
      shorter) is refused. */
  function MinStringLength(v: NStr, min: nat): Option<Error>
  {
    if v.None? || |v.value| < min then Some(ArgumentTooShort) else None
  }

  /** Validator.Entity: a null entity passes only where the call site allows
      it; for a non-null entity the validator's verdict is `accepted`. */
  function EntityCheck(e: Option<EntityRef>, allowNull: bool, accepted: bool): Option<Error>
  {
    if e.None? then (if allowNull then None else Some(InvalidEntity))
    else if accepted then None else Some(InvalidEntity)
  }

  // ---------------------------------------------------------------------
  // The request log
  // ---------------------------------------------------------------------

  datatype Verb = Get | Put | Post | Delete

  /** Where a request goes. `At` is a path this model builds from the
      proxy's own endpoint; the two others stand for endpoints produced by
      the endpoint generator, whose rules are not part of this model. */
  datatype Target =
    | At(path: string)
    | ForMember(owner: string, memberId: string)
    | ForNew(typeKey: string)

  /** One call into the JSON repository, with the parameters it carried. */
  datatype Request = Request(verb: Verb, target: Target, params: map<string, string>)

  function PutAt(path: string, key: string, value: string): Request
  {
    Request(Verb.Put, At(path), map[key := value])
  }

  /** How many requests of the log use `verb` (the tests count PUTs). */
  function Count(log: seq<Request>, verb: Verb): (n: nat)
    ensures n <= |log|
    ensures n == 0 <==> forall i :: 0 <= i < |log| ==> log[i].verb != verb
  {
    if log == [] then 0
    else (if log[0].verb == verb then 1 else 0) + Count(log[1..], verb)
  }

  lemma {:induction false} CountConcat(a: seq<Request>, b: seq<Request>, verb: Verb)
    ensures Count(a + b, verb) == Count(a, verb) + Count(b, verb)
  {
    if a != [] {
      assert (a + b)[1..] == a[1..] + b;
      CountConcat(a[1..], b, verb);
    } else {
      assert a + b == b;
    }
  }

  // ---------------------------------------------------------------------
  // The setter state machine
  // ---------------------------------------------------------------------

  datatype Decision = Reject(error: Error) | Skip | Write

  /** The steps every property setter takes, in order: write access; the
      argument checks that come before the snapshot is looked at (`early`);
      nothing to do without a snapshot (`present`) or when the value is
      unchanged (`same`); the checks that only run for a real change
      (`late`); and otherwise the write. */
  function Decide(writable: bool, early: Option<Error>, present: bool, same: bool, late: Option<Error>): (d: Decision)
    ensures !writable ==> d == Reject(ReadOnly)
    ensures writable && early.Some? ==> d == Reject(early.value)
    ensures d == Skip <==> writable && early.None? && (!present || same)
    ensures d == Write <==> writable && early.None? && present && !same && late.None?
    ensures writable && early.None? && present && !same && late.Some? ==> d == Reject(late.value)
  {
    if !writable then Reject(ReadOnly)
    else if early.Some? then Reject(early.value)
    else if !present || same then Skip
    else if late.Some? then Reject(late.value)
    else Write
  }

  /** What one mutator call does to a proxy: the outcome it reports, the
      snapshot it leaves, and the requests it appends to the log. */
  datatype Effect<S> = Effect(outcome: Outcome, snapshot: Option<S>, requests: seq<Request>)

  /** The effect of a decision that writes nothing. */
  function Settled<S>(d: Decision, snapshot: Option<S>): Effect<S>
    requires !d.Write?
  {
    if d.Reject? then Effect(Failed(d.error), snapshot, []) else Effect(Done, snapshot, [])
  }

  /** A setter effect sends at most one request, and that request is a PUT.
      Appending it to any log raises the PUT count by exactly the number of
      requests it sends. */
  lemma {:induction false} SetterPutCount<S>(log: seq<Request>, e: Effect<S>)
    requires |e.requests| <= 1
    requires forall i :: 0 <= i < |e.requests| ==> e.requests[i].verb == Verb.Put
    ensures Count(log + e.requests, Verb.Put) == Count(log, Verb.Put) + |e.requests|
  {
    CountConcat(log, e.requests, Verb.Put);
    if e.requests != [] {
      assert e.requests[1..] == [];
    }
  }
}

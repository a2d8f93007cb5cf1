/**
  A board proxy: its snapshot, its property setters, the operations that
  create lists and manage members, and the cached organization.
*/
module Boards {
  import opened Protocol
  import Endpoints

  /** The board snapshot (IJsonBoard), the fields the board reads and writes. */
  datatype BoardJson = BoardJson(
    id: string,
    name: NStr,
    desc: NStr,
    closed: Option<bool>,
    idOrganization: NStr,
    pinned: Option<bool>,
    url: NStr,
    subscribed: Option<bool>)

  /** The board's lazily fetched child collections. */
  datatype Child = Actions | ArchivedCards | ArchivedLists | InvitedMembers | Lists | Memberships

  /** The three nullable flags: IsClosed, IsPinned, IsSubscribed. */
  datatype Flag = Closed | Pinned | Subscribed

  /** A list position as AddList receives it: whether it is valid, and the
      value it is sent as. */
  datatype Position = Position(isValid: bool, wire: string)

  /** The query Refresh sends. */
  const RefreshQuery: map<string, string> := map[
    "fields" := "name,desc,closed,idOrganization,pinned,url,subscribed",
    "actions" := "none", "cards" := "none", "lists" := "none", "members" := "none",
    "checklists" := "none", "organization" := "false", "myPrefs" := "false"]

  function FlagOf(j: BoardJson, f: Flag): Option<bool>
  {
    match f
    case Closed => j.closed
    case Pinned => j.pinned
    case Subscribed => j.subscribed
  }

  /** The snapshot with flag `f` replaced by `v`: that flag reads `v` and
      every other field is as it was. */
  function WithFlag(j: BoardJson, f: Flag, v: Option<bool>): (r: BoardJson)
    ensures FlagOf(r, f) == v
    ensures forall g :: g != f ==> FlagOf(r, g) == FlagOf(j, g)
    ensures r.id == j.id && r.name == j.name && r.desc == j.desc
    ensures r.idOrganization == j.idOrganization && r.url == j.url
  {
    match f
    case Closed => j.(closed := v)
    case Pinned => j.(pinned := v)
    case Subscribed => j.(subscribed := v)
  }

  /** The parameter each flag is sent as. */
  function FlagKey(f: Flag): string
  {
    match f
    case Closed => "closed"
    case Pinned => "pinned"
    case Subscribed => "subscribed"
  }

  /** The Description setter: write access; no-op without a snapshot or for
      an equal value; otherwise the value, null stored as "", and one PUT. */
  function DescriptionEffect(writable: bool, path: string, json: Option<BoardJson>, value: NStr): (e: Effect<BoardJson>)
    ensures !writable ==> e == Effect(Failed(ReadOnly), json, [])
    ensures writable && (json.None? || json.value.desc == value) ==> e == Effect(Done, json, [])
    ensures writable && json.Some? && json.value.desc != value ==>
      e == Effect(Done, Some(json.value.(desc := Some(Coalesce(value)))), [PutAt(path, "desc", Coalesce(value))])
  {
    var d := Decide(writable, None, json.Some?, json.Some? && json.value.desc == value, None);
    if d.Write? then
      var stored := Coalesce(value);
      Effect(Done, Some(json.value.(desc := Some(stored))), [PutAt(path, "desc", stored)])
    else Settled(d, json)
  }

  /** The IsClosed, IsPinned and IsSubscribed setters: write access; null
      refused; no-op without a snapshot or for an equal value; otherwise the
      flag and one PUT of its lower-case text. */
  function FlagEffect(writable: bool, path: string, json: Option<BoardJson>, f: Flag, value: Option<bool>): (e: Effect<BoardJson>)
    ensures !writable ==> e == Effect(Failed(ReadOnly), json, [])
    ensures writable && value.None? ==> e == Effect(Failed(ArgumentNull), json, [])
    ensures writable && value.Some? && (json.None? || FlagOf(json.value, f) == value) ==> e == Effect(Done, json, [])
    ensures writable && value.Some? && json.Some? && FlagOf(json.value, f) != value ==>
      e == Effect(Done, Some(WithFlag(json.value, f, value)), [PutAt(path, FlagKey(f), LowerBool(value.value))])
  {
    var d := Decide(writable, Nullable(value), json.Some?, json.Some? && FlagOf(json.value, f) == value, None);
    if d.Write? then
      Effect(Done, Some(WithFlag(json.value, f, value)), [PutAt(path, FlagKey(f), LowerBool(value.value))])
    else Settled(d, json)
  }

  /** The Name setter: write access; null and "" refused; no-op without a
      snapshot or for an equal value; otherwise the name and one PUT. */
  function NameEffect(writable: bool, path: string, json: Option<BoardJson>, value: NStr): (e: Effect<BoardJson>)
    ensures !writable ==> e == Effect(Failed(ReadOnly), json, [])
    ensures writable && (value.None? || value == Some("")) ==> e == Effect(Failed(ArgumentNull), json, [])
    ensures writable && NonEmptyString(value).None? && (json.None? || json.value.name == value) ==> e == Effect(Done, json, [])
    ensures writable && NonEmptyString(value).None? && json.Some? && json.value.name != value ==>
      e == Effect(Done, Some(json.value.(name := value)), [PutAt(path, "name", value.value)])
  {
    var d := Decide(writable, NonEmptyString(value), json.Some?, json.Some? && json.value.name == value, None);
    if d.Write? then
      Effect(Done, Some(json.value.(name := value)), [PutAt(path, "name", value.value)])
    else Settled(d, json)
  }

  /** The Organization setter: write access; a non-null organization must be
      accepted by the entity validator; no-op without a snapshot. A null
      organization always clears IdOrganization and sends "", with no
      equality short-cut; a non-null one whose Id is already IdOrganization
      is a no-op. */
  function OrganizationEffect(writable: bool, path: string, json: Option<BoardJson>, value: Option<EntityRef>, accepted: bool): (e: Effect<BoardJson>)
    ensures !writable ==> e == Effect(Failed(ReadOnly), json, [])
    ensures writable && value.Some? && !accepted ==> e == Effect(Failed(InvalidEntity), json, [])
    ensures writable && (value.None? || accepted) && json.None? ==> e == Effect(Done, json, [])
    ensures writable && value.None? && json.Some? ==>
      e == Effect(Done, Some(json.value.(idOrganization := None)), [PutAt(path, "idOrganization", "")])
    ensures writable && value.Some? && accepted && json.Some? ==>
      if json.value.idOrganization == Some(value.value.id) then e == Effect(Done, json, [])
      else e == Effect(Done, Some(json.value.(idOrganization := Some(value.value.id))),
                       [PutAt(path, "idOrganization", value.value.id)])
  {
    var same := value.Some? && json.Some? && json.value.idOrganization == Some(value.value.id);
    var d := Decide(writable, EntityCheck(value, true, accepted), json.Some?, same, None);
    if d.Write? then
      var stored := if value.None? then None else Some(value.value.id);
      Effect(Done, Some(json.value.(idOrganization := stored)), [PutAt(path, "idOrganization", Coalesce(stored))])
    else Settled(d, json)
  }

  /** The parameters AddList posts. */
  function ListQuery(name: string, idBoard: string, position: Option<Position>): map<string, string>
  {
    map["name" := name, "idBoard" := idBoard]
    + (if position.Some? && position.value.isValid then map["pos" := position.value.wire] else map[])
  }

  /** Setting Description to null on a board whose description is already ""
      stores "" again and still sends a PUT: null is compared before it is
      turned into "". */
  lemma NullDescriptionOverEmptyStillPuts(path: string, j: BoardJson)
    requires j.desc == Some("")
    ensures DescriptionEffect(true, path, Some(j), None).requests == [PutAt(path, "desc", "")]
    ensures DescriptionEffect(true, path, Some(j), None).snapshot == Some(j)
  {
  }

  /** Setting the same non-null Name twice sends one PUT, not two. */
  lemma NameIdempotent(path: string, json: Option<BoardJson>, value: NStr)
    ensures NameEffect(true, path, NameEffect(true, path, json, value).snapshot, value).requests == []
  {
  }

  /** Clearing the organization is never skipped: each call sends a PUT. */
  lemma ClearOrganizationAlwaysPuts(path: string, j: BoardJson, accepted: bool)
    ensures OrganizationEffect(true, path, Some(j), None, accepted).requests == [PutAt(path, "idOrganization", "")]
    ensures OrganizationEffect(true, path, OrganizationEffect(true, path, Some(j), None, accepted).snapshot, None, accepted).requests
            == [PutAt(path, "idOrganization", "")]
  {
  }

  /** Whether the Organization getter has to look the organization up:
      nothing cached, or the cache holds another organization. */
  predicate Stale(cached: Option<EntityRef>, idOrganization: NStr)
  {
    cached.None? || Some(cached.value.id) != idOrganization
  }

  class Board {
    /** The segments the endpoint generator yields for this board. */
    const generated: seq<NStr>
    /** The Id kept by the base object while there is no snapshot. */
    const baseId: string
    /** Whether Validator.Writable succeeds (a user token is present). */
    const writable: bool
    /** Whether a service instance is attached (Svc != null). */
    const svcAttached: bool

    var json: Option<BoardJson>
    /** The cached organization (_organization). */
    var organization: Option<EntityRef>
    /** The parameter accumulator (Parameters). */
    var params: map<string, string>
    /** The child collections that have been marked for update. */
    var stale: set<Child>
    /** The requests sent to the JSON repository, in order. */
    var log: seq<Request>
    /** The ids passed to Svc.Retrieve, in order. */
    var retrievals: seq<string>

    /** Between calls the parameter accumulator is empty. */
    ghost predicate Valid()
      reads this
    {
      params == map[]
    }

    constructor (generated: seq<NStr>, baseId: string, writable: bool, svcAttached: bool, json: Option<BoardJson>)
      ensures Valid()
      ensures this.generated == generated && this.baseId == baseId
      ensures this.writable == writable && this.svcAttached == svcAttached
      ensures this.json == json && organization.None?
      ensures stale == {} && log == [] && retrievals == []
    {
      this.generated := generated;
      this.baseId := baseId;
      this.writable := writable;
      this.svcAttached := svcAttached;
      this.json := json;
      organization := None;
      params := map[];
      stale := {};
      log := [];
      retrievals := [];
    }

    function Path(): string
    {
      Endpoints.Join(generated)
    }

    /** The snapshot's Id while there is one, otherwise the base Id. */
    function Id(): (r: string)
      reads this
      ensures json.Some? ==> r == json.value.id
      ensures json.None? ==> r == baseId
    {
      if json.Some? then json.value.id else baseId
    }

    function Url(): (r: NStr)
      reads this
      ensures json.None? ==> r.None?
      ensures json.Some? ==> r == json.value.url
    {
      if json.None? then None else json.value.url
    }

    /** The call did what `e` says, marked the actions stale exactly when it
        sent something, and touched nothing else. */
    twostate predicate Applied(e: Effect<BoardJson>, outcome: Outcome)
      reads this
    {
      && outcome == e.outcome && json == e.snapshot && log == old(log) + e.requests
      && stale == old(stale) + (if e.requests == [] then {} else {Actions})
      && params == map[] && organization == old(organization) && retrievals == old(retrievals)
    }

    method SetDescription(value: NStr) returns (outcome: Outcome)
      requires Valid()
      modifies this
      ensures Valid()
      ensures Applied(DescriptionEffect(writable, Path(), old(json), value), outcome)
    {
      if !writable { return Failed(ReadOnly); }
      if json.None? { return Done; }
      if json.value.desc == value { return Done; }
      var stored := Coalesce(value);
      json := Some(json.value.(desc := Some(stored)));
      params := params["desc" := stored];
      Put();
      return Done;
    }

    /** The IsClosed, IsPinned and IsSubscribed setters. */
    method SetFlag(f: Flag, value: Option<bool>) returns (outcome: Outcome)
      requires Valid()
      modifies this
      ensures Valid()
      ensures Applied(FlagEffect(writable, Path(), old(json), f, value), outcome)
    {
      if !writable { return Failed(ReadOnly); }
      if value.None? { return Failed(ArgumentNull); }
      if json.None? { return Done; }
      if FlagOf(json.value, f) == value { return Done; }
      json := Some(WithFlag(json.value, f, value));
      params := params[FlagKey(f) := LowerBool(value.value)];
      Put();
      return Done;
    }

    method SetName(value: NStr) returns (outcome: Outcome)
      requires Valid()
      modifies this
      ensures Valid()
      ensures Applied(NameEffect(writable, Path(), old(json), value), outcome)
    {
      if !writable { return Failed(ReadOnly); }
      var invalid := NonEmptyString(value);
      if invalid.Some? { return Failed(invalid.value); }
      if json.None? { return Done; }
      if json.value.name == value { return Done; }
      json := Some(json.value.(name := value));
      params := params["name" := value.value];
      Put();
      return Done;
    }

    /** `accepted` is the entity validator's verdict on a non-null value. */
    method SetOrganization(value: Option<EntityRef>, accepted: bool) returns (outcome: Outcome)
      requires Valid()
      modifies this
      ensures Valid()
      ensures Applied(OrganizationEffect(writable, Path(), old(json), value, accepted), outcome)
    {
      if !writable { return Failed(ReadOnly); }
      var invalid := EntityCheck(value, true, accepted);
      if invalid.Some? { return Failed(invalid.value); }
      if json.None? { return Done; }
      if value.None? {
        json := Some(json.value.(idOrganization := None));
      } else {
        if json.value.idOrganization == Some(value.value.id) { return Done; }
        json := Some(json.value.(idOrganization := Some(value.value.id)));
      }
      params := params["idOrganization" := Coalesce(json.value.idOrganization)];
      Put();
      return Done;
    }

    /** The Organization getter. `retrieved` is what Svc.Retrieve returns
        for the snapshot's IdOrganization, null included; a null result
        leaves the cache empty, so the next read retrieves again. */
    method GetOrganization(retrieved: Option<EntityRef>) returns (org: Option<EntityRef>)
      modifies this`organization, this`retrievals
      ensures json.None? ==> org.None? && organization == old(organization) && retrievals == old(retrievals)
      ensures json.Some? && !(Stale(old(organization), json.value.idOrganization) && svcAttached) ==>
        org == old(organization) && organization == old(organization) && retrievals == old(retrievals)
      ensures json.Some? && Stale(old(organization), json.value.idOrganization) && svcAttached ==>
        organization == org &&
        if Endpoints.IsNullOrWhiteSpace(json.value.idOrganization)
        then org.None? && retrievals == old(retrievals)
        else org == retrieved && retrievals == old(retrievals) + [json.value.idOrganization.value]
    {
      if json.None? { return None; }
      var idOrganization := json.value.idOrganization;
      if Stale(organization, idOrganization) && svcAttached {
        if Endpoints.IsNullOrWhiteSpace(idOrganization) {
          organization := None;
        } else {
          retrievals := retrievals + [idOrganization.value];
          organization := retrieved;
        }
      }
      org := organization;
    }

    /** Adds a list. `createdId` is the Id in the POST response. */
    method AddList(name: NStr, position: Option<Position>, createdId: string) returns (outcome: Outcome, list: Option<EntityRef>)
      requires Valid()
      modifies this`params, this`log, this`stale
      ensures Valid()
      ensures !svcAttached ==> outcome == Done && list.None? && log == old(log) && stale == old(stale)
      ensures svcAttached && !writable ==> outcome == Failed(ReadOnly) && list.None? && log == old(log) && stale == old(stale)
      ensures svcAttached && writable && NonEmptyString(name).Some? ==>
        outcome == Failed(ArgumentNull) && list.None? && log == old(log) && stale == old(stale)
      ensures svcAttached && writable && NonEmptyString(name).None? ==>
        && outcome == Done && list == Some(EntityRef(createdId))
        && log == old(log) + [Request(Verb.Post, ForNew("lists"), ListQuery(name.value, Id(), position))]
        && stale == old(stale) + {Lists, Actions}
    {
      if !svcAttached { return Done, None; }
      if !writable { return Failed(ReadOnly), None; }
      var invalid := NonEmptyString(name);
      if invalid.Some? { return Failed(invalid.value), None; }
      params := params["name" := name.value];
      params := params["idBoard" := Id()];
      if position.Some? && position.value.isValid {
        params := params["pos" := position.value.wire];
      }
      assert params == ListQuery(name.value, Id(), position);
      log := log + [Request(Verb.Post, ForNew("lists"), params)];
      params := map[];
      stale := stale + {Lists, Actions};
      return Done, Some(EntityRef(createdId));
    }

    /** Adds a member or updates its membership type. `accepted` is the
        entity validator's verdict; `typeName` the lower-case type. */
    method AddOrUpdateMember(member: Option<EntityRef>, accepted: bool, typeName: string) returns (outcome: Outcome)
      requires Valid()
      modifies this`params, this`log, this`stale
      ensures Valid()
      ensures !svcAttached ==> outcome == Done && log == old(log) && stale == old(stale)
      ensures svcAttached && !writable ==> outcome == Failed(ReadOnly) && log == old(log) && stale == old(stale)
      ensures svcAttached && writable && EntityCheck(member, false, accepted).Some? ==>
        outcome == Failed(InvalidEntity) && log == old(log) && stale == old(stale)
      ensures svcAttached && writable && EntityCheck(member, false, accepted).None? ==>
        && outcome == Done
        && log == old(log) + [Request(Verb.Put, ForMember(Path(), member.value.id), map["type" := typeName])]
        && stale == old(stale) + {Memberships, Actions}
    {
      if !svcAttached { return Done; }
      if !writable { return Failed(ReadOnly); }
      var invalid := EntityCheck(member, false, accepted);
      if invalid.Some? { return Failed(invalid.value); }
      params := params["type" := typeName];
      log := log + [Request(Verb.Put, ForMember(Path(), member.value.id), params)];
      params := map[];
      stale := stale + {Memberships, Actions};
      return Done;
    }

    /** Adds a member found by e-mail address. `found` is the first result
        of the member search. */
    method AddOrUpdateMemberByEmail(email: NStr, fullName: NStr, typeName: string, found: Option<EntityRef>, accepted: bool)
      returns (outcome: Outcome, member: Option<EntityRef>)
      requires Valid()
      modifies this`params, this`log, this`stale
      ensures Valid()
      ensures !svcAttached ==> outcome == Done && member.None? && log == old(log) && stale == old(stale)
      ensures svcAttached && !writable ==> outcome == Failed(ReadOnly) && member.None? && log == old(log) && stale == old(stale)
      ensures svcAttached && writable && (NonEmptyString(email).Some? || NonEmptyString(fullName).Some?) ==>
        outcome == Failed(ArgumentNull) && member.None? && log == old(log) && stale == old(stale)
      ensures svcAttached && writable && NonEmptyString(email).None? && NonEmptyString(fullName).None? ==>
        if found.None? then outcome == Done && member.None? && log == old(log) && stale == old(stale)
        else if !accepted then outcome == Failed(InvalidEntity) && member.None? && log == old(log) && stale == old(stale)
        else
          && outcome == Done && member == found
          && log == old(log) + [Request(Verb.Put, ForMember(Path(), found.value.id), map["type" := typeName])]
          && stale == old(stale) + {Memberships, Actions}
    {
      if !svcAttached { return Done, None; }
      if !writable { return Failed(ReadOnly), None; }
      var invalid := NonEmptyString(email);
      if invalid.Some? { return Failed(invalid.value), None; }
      invalid := NonEmptyString(fullName);
      if invalid.Some? { return Failed(invalid.value), None; }
      if found.Some? {
        outcome := AddOrUpdateMember(found, accepted, typeName);
        if outcome.Failed? { return outcome, None; }
        stale := stale + {Memberships, Actions};
      }
      return Done, found;
    }

    /** Marks the board as viewed: one POST to the board's endpoint
        extended by "markAsViewed". */
    method MarkAsViewed() returns (outcome: Outcome)
      modifies this`log, this`stale
      ensures !svcAttached ==> outcome == Done && log == old(log) && stale == old(stale)
      ensures svcAttached && !writable ==> outcome == Failed(ReadOnly) && log == old(log) && stale == old(stale)
      ensures svcAttached && writable ==>
        && outcome == Done
        && log == old(log) + [Request(Verb.Post, At(Endpoints.Join(generated + [Some("markAsViewed")])), map[])]
        && stale == old(stale) + {Actions}
    {
      if !svcAttached { return Done; }
      if !writable { return Failed(ReadOnly); }
      var endpoint := new Endpoints.Endpoint.FromSequence(generated);
      endpoint.Append(Some("markAsViewed"));
      log := log + [Request(Verb.Post, At(endpoint.ToString()), map[])];
      stale := stale + {Actions};
      return Done;
    }

    method RemoveMember(member: Option<EntityRef>, accepted: bool) returns (outcome: Outcome)
      modifies this`log, this`stale
      ensures !svcAttached ==> outcome == Done && log == old(log) && stale == old(stale)
      ensures svcAttached && !writable ==> outcome == Failed(ReadOnly) && log == old(log) && stale == old(stale)
      ensures svcAttached && writable && EntityCheck(member, false, accepted).Some? ==>
        outcome == Failed(InvalidEntity) && log == old(log) && stale == old(stale)
      ensures svcAttached && writable && EntityCheck(member, false, accepted).None? ==>
        && outcome == Done
        && log == old(log) + [Request(Verb.Delete, ForMember(Path(), member.value.id), map[])]
        && stale == old(stale) + {Memberships, Actions}
    {
      if !svcAttached { return Done; }
      if !writable { return Failed(ReadOnly); }
      var invalid := EntityCheck(member, false, accepted);
      if invalid.Some? { return Failed(invalid.value); }
      log := log + [Request(Verb.Delete, ForMember(Path(), member.value.id), map[])];
      stale := stale + {Memberships, Actions};
      return Done;
    }

    /** Two boards are equal exactly when their Ids are. */
    function Equals(other: Board): (r: bool)
      reads this, other
      ensures r <==> Id() == other.Id()
      ensures this == other ==> r
    {
      Id() == other.Id()
    }

    /** Fetches the snapshot; a null fetch keeps the old one and reports
        false. The accumulator is empty afterwards either way. */
    method Refresh(fetched: Option<BoardJson>) returns (found: bool)
      requires Valid()
      modifies this`json, this`log, this`params
      ensures Valid()
      ensures log == old(log) + [Request(Verb.Get, At(Path()), RefreshQuery)]
      ensures found == fetched.Some?
      ensures json == if fetched.Some? then fetched else old(json)
    {
      params := params["fields" := "name,desc,closed,idOrganization,pinned,url,subscribed"];
      params := params["actions" := "none"];
      params := params["cards" := "none"];
      params := params["lists" := "none"];
      params := params["members" := "none"];
      params := params["checklists" := "none"];
      params := params["organization" := "false"];
      params := params["myPrefs" := "false"];
      log := log + [Request(Verb.Get, At(Path()), params)];
      params := map[];
      if fetched.None? { return false; }
      ApplyJson(fetched);
      return true;
    }

    /** Replaces the whole snapshot, with a null one if given null. */
    method ApplyJson(obj: Option<BoardJson>)
      modifies this`json
      ensures json == obj
    {
      json := obj;
    }

    /** Sends the accumulated parameters in one PUT, clears them and marks
        the actions stale. */
    method Put()
      modifies this`log, this`params, this`stale
      ensures log == old(log) + [Request(Verb.Put, At(Path()), old(params))]
      ensures params == map[] && stale == old(stale) + {Actions}
    {
      log := log + [Request(Verb.Put, At(Path()), params)];
      params := map[];
      stale := stale + {Actions};
    }
  }
}

/**
  An organization proxy. Unlike the board it can be deleted; once deleted
  its setters do nothing, its gated getters report nothing, and it sends no
  further member or delete requests.
*/
module Organizations {
  import opened Protocol
  import Endpoints

  /** The organization snapshot (IJsonOrganization). */
  datatype OrgJson = OrgJson(
    id: string,
    name: NStr,
    displayName: NStr,
    desc: NStr,
    url: NStr,
    website: NStr,
    logoHash: NStr,
    powerUps: Option<seq<int>>,
    premiumFeatures: Option<seq<string>>,
    paidAccount: Option<bool>)

  /** The organization's lazily fetched child collections. */
  datatype OrgChild = Actions | Boards | InvitedMembers | Members | Memberships

  /** The four text properties that have a setter. */
  datatype Text = Description | DisplayName | Name | Website

  /** The query Refresh sends. */
  const RefreshQuery: map<string, string> := map[
    "fields" := "name,displayName,desc,invited,powerUps,url,website,logoHash,premiumFeatures",
    "paid_account" := "true", "actions" := "none", "members" := "none",
    "membersInvited" := "none", "boards" := "none", "memberships" := "none"]

  /** The shortest display name the DisplayName setter accepts. */
  const MinDisplayNameLength: nat := 4

  function TextOf(j: OrgJson, t: Text): NStr
  {
    match t
    case Description => j.desc
    case DisplayName => j.displayName
    case Name => j.name
    case Website => j.website
  }

  /** The snapshot with text `t` replaced by `v`: that text reads `v` and
      every other field is as it was. */
  function WithText(j: OrgJson, t: Text, v: NStr): (r: OrgJson)
    ensures TextOf(r, t) == v
    ensures forall u :: u != t ==> TextOf(r, u) == TextOf(j, u)
    ensures r.id == j.id && r.url == j.url && r.logoHash == j.logoHash
    ensures r.powerUps == j.powerUps && r.premiumFeatures == j.premiumFeatures && r.paidAccount == j.paidAccount
  {
    match t
    case Description => j.(desc := v)
    case DisplayName => j.(displayName := v)
    case Name => j.(name := v)
    case Website => j.(website := v)
  }

  /** The parameter each text is sent as. */
  function Key(t: Text): string
  {
    match t
    case Description => "desc"
    case DisplayName => "displayName"
    case Name => "name"
    case Website => "website"
  }

  /** The check a setter makes only once it knows the value changes:
      DisplayName must be at least four characters long, and Name must be
      non-null and pass the organization-name rule, whose verdict on a
      non-null name is `accepted`. */
  function Late(t: Text, v: NStr, accepted: bool): Option<Error>
  {
    match t
    case DisplayName => MinStringLength(v, MinDisplayNameLength)
    case Name => if v.None? || !accepted then Some(InvalidOrgName) else None
    case _ => None
  }

  /** What a setter stores: Description and Website turn null into "";
      DisplayName and Name store the value the validator hands back. */
  function Stored(t: Text, v: NStr): NStr
  {
    if t == Description || t == Website then Some(Coalesce(v)) else v
  }

  /** The four text setters: nothing at all once deleted; then write access;
      no-op without a snapshot or for an equal value; then the late check;
      otherwise the new text and one PUT. */
  function TextEffect(deleted: bool, writable: bool, path: string, json: Option<OrgJson>, t: Text, value: NStr, accepted: bool): (e: Effect<OrgJson>)
    ensures deleted ==> e == Effect(Done, json, [])
    ensures !deleted && !writable ==> e == Effect(Failed(ReadOnly), json, [])
    ensures !deleted && writable && (json.None? || TextOf(json.value, t) == value) ==> e == Effect(Done, json, [])
    ensures !deleted && writable && json.Some? && TextOf(json.value, t) != value ==>
      match t
      case DisplayName =>
        if value.None? || |value.value| < 4 then e == Effect(Failed(ArgumentTooShort), json, [])
        else e == Effect(Done, Some(json.value.(displayName := value)), [PutAt(path, "displayName", value.value)])
      case Name =>
        if value.None? || !accepted then e == Effect(Failed(InvalidOrgName), json, [])
        else e == Effect(Done, Some(json.value.(name := value)), [PutAt(path, "name", value.value)])
      case Description =>
        e == Effect(Done, Some(json.value.(desc := Some(Coalesce(value)))), [PutAt(path, "desc", Coalesce(value))])
      case Website =>
        e == Effect(Done, Some(json.value.(website := Some(Coalesce(value)))), [PutAt(path, "website", Coalesce(value))])
  {
    if deleted then Effect(Done, json, [])
    else
      var d := Decide(writable, None, json.Some?, json.Some? && TextOf(json.value, t) == value, Late(t, value, accepted));
      if d.Write? then
        var stored := Stored(t, value);
        Effect(Done, Some(WithText(json.value, t, stored)), [PutAt(path, Key(t), Coalesce(stored))])
      else Settled(d, json)
  }

  /** A text getter: null once deleted or without a snapshot. */
  function TextView(deleted: bool, json: Option<OrgJson>, t: Text): NStr
  {
    if deleted || json.None? then None else TextOf(json.value, t)
  }

  /** Whether an enumeration of child collection `c` shows its items:
      Actions, Boards and Memberships are empty once deleted and the invited
      members are shown regardless. Members has no enumerating property of
      its own; it only names a collection that is marked for update. */
  function Shows(deleted: bool, c: OrgChild): bool
  {
    !deleted || c == InvitedMembers
  }

  /** The ids of `members`, in order. */
  function Ids(members: seq<EntityRef>): (r: seq<string>)
    ensures |r| == |members|
    ensures forall i :: 0 <= i < |r| ==> r[i] == members[i].id
  {
    if members == [] then [] else Ids(members[..|members| - 1]) + [members[|members| - 1].id]
  }

  /** The parameters CreateBoard posts. */
  function NewBoardQuery(name: string, idOrganization: string): map<string, string>
  {
    map["name" := name, "idOrganization" := idOrganization]
  }

  /** A deleted organization ignores every setter and reports null for
      every text getter. */
  lemma DeletedIsInert(writable: bool, path: string, json: Option<OrgJson>, t: Text, value: NStr, accepted: bool)
    ensures TextEffect(true, writable, path, json, t, value, accepted) == Effect(Done, json, [])
    ensures TextView(true, json, t) == None
  {
  }

  /** A too-short display name is refused only when it is a change: setting
      the display name it already has is a silent no-op, and setting it over
      any other display name fails. */
  lemma ShortDisplayNameUnchangedIsNoOp(path: string, j: OrgJson, v: NStr, u: NStr, accepted: bool)
    requires v.Some? && |v.value| < MinDisplayNameLength
    ensures TextEffect(false, true, path, Some(j.(displayName := v)), DisplayName, v, accepted)
            == Effect(Done, Some(j.(displayName := v)), [])
    ensures u != v ==>
      TextEffect(false, true, path, Some(j.(displayName := u)), DisplayName, v, accepted).outcome
      == Failed(ArgumentTooShort)
  {
  }

  /** Setting the same non-null text twice sends at most one PUT, and the
      second call reports success. */
  lemma {:induction false} TextIdempotent(path: string, log: seq<Request>, json: Option<OrgJson>, t: Text, value: NStr, accepted: bool)
    requires value.Some?
    ensures var first := TextEffect(false, true, path, json, t, value, accepted);
            var second := TextEffect(false, true, path, first.snapshot, t, value, accepted);
            first.outcome.Done? ==>
              (second == Effect(Done, first.snapshot, [])
               && Count(log + first.requests + second.requests, Verb.Put) <= Count(log, Verb.Put) + 1)
  {
    var first := TextEffect(false, true, path, json, t, value, accepted);
    var second := TextEffect(false, true, path, first.snapshot, t, value, accepted);
    if first.outcome.Done? {
      SetterPutCount(log, first);
      assert log + first.requests + second.requests == log + first.requests;
    }
  }

  class Organization {
    /** The segments the endpoint generator yields for this organization. */
    const generated: seq<NStr>
    /** The Id kept by the base object while there is no snapshot. */
    const baseId: string
    /** Whether Validator.Writable succeeds (a user token is present). */
    const writable: bool
    /** Whether a service instance is attached (Svc != null). */
    const svcAttached: bool

    var json: Option<OrgJson>
    /** `_isDeleted` */
    var deleted: bool
    /** The parameter accumulator (Parameters). */
    var params: map<string, string>
    /** The child collections that have been marked for update. */
    var stale: set<OrgChild>
    /** The members whose organization lists Delete marked for update, in
        order. */
    var memberOrgsMarked: seq<string>
    /** The requests sent to the JSON repository, in order. */
    var log: seq<Request>

    ghost predicate Valid()
      reads this
    {
      params == map[]
    }

    constructor (generated: seq<NStr>, baseId: string, writable: bool, svcAttached: bool, json: Option<OrgJson>)
      ensures Valid()
      ensures this.generated == generated && this.baseId == baseId
      ensures this.writable == writable && this.svcAttached == svcAttached
      ensures this.json == json && !deleted
      ensures stale == {} && memberOrgsMarked == [] && log == []
    {
      this.generated := generated;
      this.baseId := baseId;
      this.writable := writable;
      this.svcAttached := svcAttached;
      this.json := json;
      deleted := false;
      params := map[];
      stale := {};
      memberOrgsMarked := [];
      log := [];
    }

    function Path(): string
    {
      Endpoints.Join(generated)
    }

    /** The snapshot's Id while there is one, otherwise the base Id. */
    function Id(): (r: string)
      reads this
      ensures json.Some? ==> r == json.value.id
      ensures json.None? ==> r == baseId
    {
      if json.Some? then json.value.id else baseId
    }

    /** The Description, DisplayName, Name and Website getters. */
    function GetText(t: Text): (r: NStr)
      reads this
      ensures deleted || json.None? ==> r.None?
      ensures !deleted && json.Some? ==> r == TextOf(json.value, t)
    {
      TextView(deleted, json, t)
    }

    /** LogoHash: null once deleted or without a snapshot. */
    function LogoHash(): (r: NStr)
      reads this
      ensures deleted || json.None? ==> r.None?
      ensures !deleted && json.Some? ==> r == json.value.logoHash
    {
      if deleted || json.None? then None else json.value.logoHash
    }

    /** PowerUps: an empty enumeration once deleted, null without a
        snapshot. */
    function PowerUps(): (r: Option<seq<int>>)
      reads this
      ensures deleted ==> r == Some([])
      ensures !deleted ==> r == if json.None? then None else json.value.powerUps
    {
      if deleted then Some([]) else if json.None? then None else json.value.powerUps
    }

    /** PremiumFeatures: an empty enumeration once deleted, null without a
        snapshot. */
    function PremiumFeatures(): (r: Option<seq<string>>)
      reads this
      ensures deleted ==> r == Some([])
      ensures !deleted ==> r == if json.None? then None else json.value.premiumFeatures
    {
      if deleted then Some([]) else if json.None? then None else json.value.premiumFeatures
    }

    /** Url is not gated by deletion. */
    function Url(): (r: NStr)
      reads this
      ensures json.None? ==> r.None?
      ensures json.Some? ==> r == json.value.url
    {
      if json.None? then None else json.value.url
    }

    /** IsPaidAccount is not gated by deletion. */
    function IsPaidAccount(): (r: Option<bool>)
      reads this
      ensures json.None? ==> r.None?
      ensures json.Some? ==> r == json.value.paidAccount
    {
      if json.None? then None else json.value.paidAccount
    }

    /** What the Actions, Boards, InvitedMembers and Memberships properties
        enumerate, given the collection's current `items`. */
    function Listing(c: OrgChild, items: seq<EntityRef>): (r: seq<EntityRef>)
      reads this
      ensures Shows(deleted, c) ==> r == items
      ensures !Shows(deleted, c) ==> r == []
    {
      if deleted && c != InvitedMembers then [] else items
    }

    /** Whether `id` names this organization: its Id or its Name. */
    function Matches(id: NStr): (r: bool)
      reads this
      ensures r <==> Some(Id()) == id || GetText(Name) == id
      ensures deleted ==> (r <==> Some(Id()) == id || id.None?)
      ensures !deleted && json.Some? && id == json.value.name ==> r
    {
      Some(Id()) == id || GetText(Name) == id
    }

    twostate predicate Applied(e: Effect<OrgJson>, outcome: Outcome)
      reads this
    {
      && outcome == e.outcome && json == e.snapshot && log == old(log) + e.requests
      && stale == old(stale) + (if e.requests == [] then {} else {Actions})
      && params == map[] && deleted == old(deleted) && memberOrgsMarked == old(memberOrgsMarked)
    }

    /** The Description, DisplayName, Name and Website setters. `accepted`
        is the organization-name rule's verdict, consulted only by Name. */
    method SetText(t: Text, value: NStr, accepted: bool) returns (outcome: Outcome)
      requires Valid()
      modifies this
      ensures Valid()
      ensures Applied(TextEffect(deleted, writable, Path(), old(json), t, value, accepted), outcome)
    {
      if deleted { return Done; }
      if !writable { return Failed(ReadOnly); }
      if json.None? { return Done; }
      if TextOf(json.value, t) == value { return Done; }
      var invalid := Late(t, value, accepted);
      if invalid.Some? { return Failed(invalid.value); }
      var stored := Stored(t, value);
      json := Some(WithText(json.value, t, stored));
      params := params[Key(t) := Coalesce(stored)];
      Put();
      return Done;
    }

    /** Adds a member or updates its membership type. */
    method AddOrUpdateMember(member: Option<EntityRef>, accepted: bool, typeName: string) returns (outcome: Outcome)
      requires Valid()
      modifies this`params, this`log, this`stale
      ensures Valid()
      ensures !svcAttached || deleted ==> outcome == Done && log == old(log) && stale == old(stale)
      ensures svcAttached && !deleted && !writable ==> outcome == Failed(ReadOnly) && log == old(log) && stale == old(stale)
      ensures svcAttached && !deleted && writable && EntityCheck(member, false, accepted).Some? ==>
        outcome == Failed(InvalidEntity) && log == old(log) && stale == old(stale)
      ensures svcAttached && !deleted && writable && EntityCheck(member, false, accepted).None? ==>
        && outcome == Done
        && log == old(log) + [Request(Verb.Put, ForMember(Path(), member.value.id), map["type" := typeName])]
        && stale == old(stale) + {Members, Memberships, Actions}
    {
      if !svcAttached { return Done; }
      if deleted { return Done; }
      if !writable { return Failed(ReadOnly); }
      var invalid := EntityCheck(member, false, accepted);
      if invalid.Some? { return Failed(invalid.value); }
      params := params["type" := typeName];
      log := log + [Request(Verb.Put, ForMember(Path(), member.value.id), params)];
      params := map[];
      stale := stale + {Members, Memberships, Actions};
      return Done;
    }

    /** Adds a member found by e-mail address. `found` is the first result
        of the member search. */
    method AddOrUpdateMemberByEmail(email: NStr, fullName: NStr, typeName: string, found: Option<EntityRef>, accepted: bool)
      returns (outcome: Outcome, member: Option<EntityRef>)
      requires Valid()
      modifies this`params, this`log, this`stale
      ensures Valid()
      ensures !svcAttached || deleted ==> outcome == Done && member.None? && log == old(log) && stale == old(stale)
      ensures svcAttached && !deleted && !writable ==>
        outcome == Failed(ReadOnly) && member.None? && log == old(log) && stale == old(stale)
      ensures svcAttached && !deleted && writable && (NonEmptyString(email).Some? || NonEmptyString(fullName).Some?) ==>
        outcome == Failed(ArgumentNull) && member.None? && log == old(log) && stale == old(stale)
      ensures svcAttached && !deleted && writable && NonEmptyString(email).None? && NonEmptyString(fullName).None? ==>
        if found.None? then outcome == Done && member.None? && log == old(log) && stale == old(stale)
        else if !accepted then outcome == Failed(InvalidEntity) && member.None? && log == old(log) && stale == old(stale)
        else
          && outcome == Done && member == found
          && log == old(log) + [Request(Verb.Put, ForMember(Path(), found.value.id), map["type" := typeName])]
          && stale == old(stale) + {Members, Memberships, Actions}
    {
      if !svcAttached { return Done, None; }
      if deleted { return Done, None; }
      if !writable { return Failed(ReadOnly), None; }
      var invalid := NonEmptyString(email);
      if invalid.Some? { return Failed(invalid.value), None; }
      invalid := NonEmptyString(fullName);
      if invalid.Some? { return Failed(invalid.value), None; }
      if found.Some? {
        outcome := AddOrUpdateMember(found, accepted, typeName);
        if outcome.Failed? { return outcome, None; }
        stale := stale + {Members, Memberships, Actions};
      }
      return Done, found;
    }

    /** Creates a board owned by this organization. `createdId` is the Id
        in the POST response. There is no deletion gate here. */
    method CreateBoard(name: NStr, createdId: string) returns (outcome: Outcome, board: Option<EntityRef>)
      requires Valid()
      modifies this`params, this`log, this`stale
      ensures Valid()
      ensures !svcAttached ==> outcome == Done && board.None? && log == old(log) && stale == old(stale)
      ensures svcAttached && !writable ==> outcome == Failed(ReadOnly) && board.None? && log == old(log) && stale == old(stale)
      ensures svcAttached && writable && NonEmptyString(name).Some? ==>
        outcome == Failed(ArgumentNull) && board.None? && log == old(log) && stale == old(stale)
      ensures svcAttached && writable && NonEmptyString(name).None? ==>
        && outcome == Done && board == Some(EntityRef(createdId))
        && log == old(log) + [Request(Verb.Post, ForNew("boards"), NewBoardQuery(name.value, Id()))]
        && stale == old(stale) + {Boards}
    {
      if !svcAttached { return Done, None; }
      if !writable { return Failed(ReadOnly), None; }
      var invalid := NonEmptyString(name);
      if invalid.Some? { return Failed(invalid.value), None; }
      params := params["name" := name.value];
      params := params["idOrganization" := Id()];
      log := log + [Request(Verb.Post, ForNew("boards"), params)];
      params := map[];
      stale := stale + {Boards};
      return Done, Some(EntityRef(createdId));
    }

    /** Deletes the organization: marks the organization list of every
        current member (`members`) for update, sends one DELETE, and sets
        the deleted flag. Nothing happens twice. */
    method Delete(members: seq<EntityRef>) returns (outcome: Outcome)
      modifies this`log, this`deleted, this`memberOrgsMarked
      ensures !svcAttached || old(deleted) ==>
        outcome == Done && log == old(log) && deleted == old(deleted) && memberOrgsMarked == old(memberOrgsMarked)
      ensures svcAttached && !old(deleted) && !writable ==>
        outcome == Failed(ReadOnly) && log == old(log) && !deleted && memberOrgsMarked == old(memberOrgsMarked)
      ensures svcAttached && !old(deleted) && writable ==>
        && outcome == Done && deleted
        && memberOrgsMarked == old(memberOrgsMarked) + Ids(members)
        && log == old(log) + [Request(Verb.Delete, At(Path()), map[])]
    {
      if !svcAttached { return Done; }
      if deleted { return Done; }
      if !writable { return Failed(ReadOnly); }
      var i := 0;
      while i < |members|
        invariant 0 <= i <= |members|
        invariant memberOrgsMarked == old(memberOrgsMarked) + Ids(members[..i])
        invariant log == old(log) && !deleted
      {
        assert members[..i + 1][..i] == members[..i];
        memberOrgsMarked := memberOrgsMarked + [members[i].id];
        i := i + 1;
      }
      assert members[..i] == members;
      log := log + [Request(Verb.Delete, At(Path()), map[])];
      deleted := true;
      return Done;
    }

    method RemoveMember(member: Option<EntityRef>, accepted: bool) returns (outcome: Outcome)
      modifies this`log, this`stale
      ensures !svcAttached || deleted ==> outcome == Done && log == old(log) && stale == old(stale)
      ensures svcAttached && !deleted && !writable ==> outcome == Failed(ReadOnly) && log == old(log) && stale == old(stale)
      ensures svcAttached && !deleted && writable && EntityCheck(member, false, accepted).Some? ==>
        outcome == Failed(InvalidEntity) && log == old(log) && stale == old(stale)
      ensures svcAttached && !deleted && writable && EntityCheck(member, false, accepted).None? ==>
        && outcome == Done
        && log == old(log) + [Request(Verb.Delete, ForMember(Path(), member.value.id), map[])]
        && stale == old(stale) + {Members, Memberships, Actions}
    {
      if !svcAttached { return Done; }
      if deleted { return Done; }
      if !writable { return Failed(ReadOnly); }
      var invalid := EntityCheck(member, false, accepted);
      if invalid.Some? { return Failed(invalid.value); }
      log := log + [Request(Verb.Delete, ForMember(Path(), member.value.id), map[])];
      stale := stale + {Members, Memberships, Actions};
      return Done;
    }

    /** Two organizations are equal exactly when their Ids are. */
    function Equals(other: Organization): (r: bool)
      reads this, other
      ensures r <==> Id() == other.Id()
      ensures this == other ==> r
    {
      Id() == other.Id()
    }

    /** Fetches the snapshot; a null fetch keeps the old one and reports
        false. Deletion does not stop a refresh. */
    method Refresh(fetched: Option<OrgJson>) returns (found: bool)
      requires Valid()
      modifies this`json, this`log, this`params
      ensures Valid()
      ensures log == old(log) + [Request(Verb.Get, At(Path()), RefreshQuery)]
      ensures found == fetched.Some?
      ensures json == if fetched.Some? then fetched else old(json)
    {
      params := params["fields" := "name,displayName,desc,invited,powerUps,url,website,logoHash,premiumFeatures"];
      params := params["paid_account" := "true"];
      params := params["actions" := "none"];
      params := params["members" := "none"];
      params := params["membersInvited" := "none"];
      params := params["boards" := "none"];
      params := params["memberships" := "none"];
      log := log + [Request(Verb.Get, At(Path()), params)];
      params := map[];
      if fetched.None? { return false; }
      ApplyJson(fetched);
      return true;
    }

    /** Replaces the whole snapshot, with a null one if given null. */
    method ApplyJson(obj: Option<OrgJson>)
      modifies this`json
      ensures json == obj
    {
      json := obj;
    }

    /** Sends the accumulated parameters in one PUT, clears them and marks
        the actions stale. */
    method Put()
      modifies this`log, this`params, this`stale
      ensures log == old(log) + [Request(Verb.Put, At(Path()), old(params))]
      ensures params == map[] && stale == old(stale) + {Actions}
    {
      log := log + [Request(Verb.Put, At(Path()), params)];
      params := map[];
      stale := stale + {Actions};
    }
  }
}

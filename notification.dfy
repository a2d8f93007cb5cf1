/**
  A member notification: its wire type string decoded into an enum, the
  IsUnread setter, and the cached creator member.
*/
module Notifications {
  import opened Protocol
  import Endpoints

  datatype NotificationType =
    | Unknown
    | AddedAttachmentToCard
    | AddedToBoard
    | AddedToCard
    | AddedToOrganization
    | AddedMemberToCard
    | AddAdminToBoard
    | AddAdminToOrganization
    | ChangeCard
    | CloseBoard
    | CommentCard
    | CreatedCard
    | InvitedToBoard
    | InvitedToOrganization
    | RemovedFromBoard
    | RemovedFromCard
    | RemovedMemberFromCard
    | RemovedFromOrganization
    | MentionedOnCard
    | UnconfirmedInvitedToBoard
    | UnconfirmedInvitedToOrganization
    | UpdateCheckItemStateOnCard
    | MakeAdminOfBoard
    | MakeAdminOfOrganization
    | CardDueSoon

  /** The one-to-one table between notification types and wire strings. */
  const TypeMap: seq<(NotificationType, string)> := [
    (AddedAttachmentToCard, "addedAttachmentToCard"),
    (AddedToBoard, "addedToBoard"),
    (AddedToCard, "addedToCard"),
    (AddedToOrganization, "addedToOrganization"),
    (AddedMemberToCard, "addedMemberToCard"),
    (AddAdminToBoard, "addAdminToBoard"),
    (AddAdminToOrganization, "addAdminToOrganization"),
    (ChangeCard, "changeCard"),
    (CloseBoard, "closeBoard"),
    (CommentCard, "commentCard"),
    (CreatedCard, "createdCard"),
    (InvitedToBoard, "invitedToBoard"),
    (InvitedToOrganization, "invitedToOrganization"),
    (RemovedFromBoard, "removedFromBoard"),
    (RemovedFromCard, "removedFromCard"),
    (RemovedMemberFromCard, "removedMemberFromCard"),
    (RemovedFromOrganization, "removedFromOrganization"),
    (MentionedOnCard, "mentionedOnCard"),
    (UnconfirmedInvitedToBoard, "unconfirmedInvitedToBoard"),
    (UnconfirmedInvitedToOrganization, "unconfirmedInvitedToOrganization"),
    (UpdateCheckItemStateOnCard, "updateCheckItemStateOnCard"),
    (MakeAdminOfBoard, "makeAdminOfBoard"),
    (MakeAdminOfOrganization, "makeAdminOfOrganization"),
    (CardDueSoon, "cardDueSoon")
  ]

  /** The type whose wire string is `wire`, searching `entries` in order;
      Unknown when no entry carries that string. */
  function Find(entries: seq<(NotificationType, string)>, wire: string): (t: NotificationType)
    requires forall i :: 0 <= i < |entries| ==> entries[i].0 != Unknown
    ensures t == Unknown <==> forall i :: 0 <= i < |entries| ==> entries[i].1 != wire
    ensures t != Unknown ==> (t, wire) in entries
  {
    if entries == [] then Unknown
    else if entries[0].1 == wire then entries[0].0
    else Find(entries[1..], wire)
  }

  /** UpdateType: the recorded type for the snapshot's wire string; a null
      or unlisted string is Unknown. */
  function TypeOf(wire: NStr): (t: NotificationType)
    ensures t == Unknown <==> wire.None? || forall i :: 0 <= i < |TypeMap| ==> TypeMap[i].1 != wire.value
    ensures t != Unknown ==> (t, wire.value) in TypeMap
  {
    if wire.None? then Unknown else Find(TypeMap, wire.value)
  }

  /** No two entries of `entries` share a wire string. */
  ghost predicate DistinctWires(entries: seq<(NotificationType, string)>)
  {
    forall i, j :: 0 <= i < j < |entries| ==> entries[i].1 != entries[j].1
  }

  /** A proof device for `DistinctWires`, not part of the decoding: the
      table position of a wire string, told apart by its length and third
      character alone; -1 for a string that fits no entry. */
  function WireFingerprint(s: string): int
  {
    var fingerprint := if |s| < 3 then (|s|, ' ') else (|s|, s[2]);
    match fingerprint
    case (21, 'd') => 0
    case (12, 'd') => 1
    case (11, 'd') => 2
    case (19, 'd') => 3
    case (17, 'd') => 4
    case (15, 'd') => 5
    case (22, 'd') => 6
    case (10, 'a') => 7
    case (10, 'o') => 8
    case (11, 'm') => 9
    case (11, 'e') => 10
    case (14, 'v') => 11
    case (21, 'v') => 12
    case (16, 'm') => 13
    case (15, 'm') => 14
    case (21, 'm') => 15
    case (23, 'm') => 16
    case (15, 'n') => 17
    case (25, 'c') => 18
    case (32, 'c') => 19
    case (26, 'd') => 20
    case (16, 'k') => 21
    case (23, 'k') => 22
    case (11, 'r') => 23
    case _ => -1
  }

  /** Each entry's wire string is told apart by its position. */
  lemma FingerprintOfEntries()
    ensures forall k :: 0 <= k < |TypeMap| ==> WireFingerprint(TypeMap[k].1) == k
  {
  }

  /** The table maps no two types to one wire string. */
  lemma TypeMapHasDistinctWires()
    ensures DistinctWires(TypeMap)
  {
    FingerprintOfEntries();
  }

  /** In a table with distinct wire strings, the search for an entry's
      wire string stops at that entry. */
  lemma {:induction false} FindEntry(entries: seq<(NotificationType, string)>, k: nat)
    requires forall i :: 0 <= i < |entries| ==> entries[i].0 != Unknown
    requires DistinctWires(entries)
    requires k < |entries|
    ensures Find(entries, entries[k].1) == entries[k].0
  {
    if k > 0 {
      assert entries[0].1 != entries[k].1;
      assert entries[1..][k - 1] == entries[k];
      FindEntry(entries[1..], k - 1);
    }
  }

  /** Where a listed type sits in the table. */
  function Index(t: NotificationType): (k: nat)
    requires t != Unknown
    ensures k < |TypeMap| && TypeMap[k].0 == t
  {
    match t
    case AddedAttachmentToCard => 0
    case AddedToBoard => 1
    case AddedToCard => 2
    case AddedToOrganization => 3
    case AddedMemberToCard => 4
    case AddAdminToBoard => 5
    case AddAdminToOrganization => 6
    case ChangeCard => 7
    case CloseBoard => 8
    case CommentCard => 9
    case CreatedCard => 10
    case InvitedToBoard => 11
    case InvitedToOrganization => 12
    case RemovedFromBoard => 13
    case RemovedFromCard => 14
    case RemovedMemberFromCard => 15
    case RemovedFromOrganization => 16
    case MentionedOnCard => 17
    case UnconfirmedInvitedToBoard => 18
    case UnconfirmedInvitedToOrganization => 19
    case UpdateCheckItemStateOnCard => 20
    case MakeAdminOfBoard => 21
    case MakeAdminOfOrganization => 22
    case CardDueSoon => 23
  }

  /** The wire string of a listed type. */
  function WireName(t: NotificationType): (s: string)
    requires t != Unknown
    ensures (t, s) in TypeMap
  {
    TypeMap[Index(t)].1
  }

  /** Decoding the wire string of a listed type gives that type back. */
  lemma RoundTrip(t: NotificationType)
    requires t != Unknown
    ensures TypeOf(Some(WireName(t))) == t
  {
    TypeMapHasDistinctWires();
    FindEntry(TypeMap, Index(t));
  }

  /** No two listed types share a wire string. */
  lemma WireNameInjective(a: NotificationType, b: NotificationType)
    requires a != Unknown && b != Unknown
    requires WireName(a) == WireName(b)
    ensures a == b
  {
    RoundTrip(a);
    RoundTrip(b);
  }

  // ---------------------------------------------------------------------
  // The notification proxy
  // ---------------------------------------------------------------------

  /** The notification snapshot (IJsonNotification), the fields this model
      reads. */
  datatype NotificationJson = NotificationJson(id: string, unread: Option<bool>, wireType: NStr, idMemberCreator: NStr)

  /** The query Refresh sends. */
  const RefreshQuery: map<string, string> := map[
    "fields" := "unread,type,date,data,idMemberCreator",
    "entities" := "false", "memberCreator" := "false", "board" := "false", "list" := "false",
    "card" := "false", "organization" := "false", "member" := "false"]

  /** The IsUnread setter: write access, then null refused, then no-op
      without a snapshot or for an equal value, else one PUT of "unread". */
  function IsUnreadEffect(writable: bool, path: string, json: Option<NotificationJson>, value: Option<bool>): (e: Effect<NotificationJson>)
    ensures !writable ==> e == Effect(Failed(ReadOnly), json, [])
    ensures writable && value.None? ==> e == Effect(Failed(ArgumentNull), json, [])
    ensures writable && value.Some? && (json.None? || json.value.unread == value) ==> e == Effect(Done, json, [])
    ensures writable && value.Some? && json.Some? && json.value.unread != value ==>
      e == Effect(Done, Some(json.value.(unread := value)), [PutAt(path, "unread", LowerBool(value.value))])
  {
    var d := Decide(writable, Nullable(value), json.Some?, json.Some? && json.value.unread == value, None);
    if d.Write? then Effect(Done, Some(json.value.(unread := value)), [PutAt(path, "unread", LowerBool(value.value))])
    else Settled(d, json)
  }

  /** Setting IsUnread to the value it was just set to sends nothing more. */
  lemma IsUnreadIdempotent(writable: bool, path: string, json: Option<NotificationJson>, value: Option<bool>)
    requires IsUnreadEffect(writable, path, json, value).outcome == Done
    ensures IsUnreadEffect(writable, path, IsUnreadEffect(writable, path, json, value).snapshot, value).requests == []
  {
  }

  class Notification {
    /** The segments the endpoint generator yields for this notification. */
    const generated: seq<NStr>
    /** The Id kept by the base object while there is no snapshot. */
    const baseId: string
    /** Whether Validator.Writable succeeds (a user token is present). */
    const writable: bool
    /** Whether a service instance is attached (Svc != null). */
    const svcAttached: bool

    var json: Option<NotificationJson>
    var kind: NotificationType
    var memberCreator: Option<EntityRef>
    var params: map<string, string>
    var log: seq<Request>
    /** The ids passed to Svc.Retrieve, in order. */
    var retrievals: seq<string>

    /** Between calls the parameter accumulator is empty. */
    ghost predicate Valid()
      reads this
    {
      params == map[]
    }

    constructor (generated: seq<NStr>, baseId: string, writable: bool, svcAttached: bool, json: Option<NotificationJson>)
      ensures Valid()
      ensures this.generated == generated && this.baseId == baseId
      ensures this.writable == writable && this.svcAttached == svcAttached
      ensures this.json == json && kind == Unknown && memberCreator.None?
      ensures log == [] && retrievals == []
    {
      this.generated := generated;
      this.baseId := baseId;
      this.writable := writable;
      this.svcAttached := svcAttached;
      this.json := json;
      kind := Unknown;
      memberCreator := None;
      params := map[];
      log := [];
      retrievals := [];
    }

    function Path(): string
    {
      Endpoints.Join(generated)
    }

    /** The snapshot's Id while there is one, otherwise the base Id. */
    function Id(): (r: string)
      reads this
      ensures json.Some? ==> r == json.value.id
      ensures json.None? ==> r == baseId
    {
      if json.Some? then json.value.id else baseId
    }

    /** The call did what `e` says and touched nothing else. */
    twostate predicate Applied(e: Effect<NotificationJson>, outcome: Outcome)
      reads this
    {
      && outcome == e.outcome && json == e.snapshot && log == old(log) + e.requests
      && params == map[] && kind == old(kind) && memberCreator == old(memberCreator)
      && retrievals == old(retrievals)
    }

    method SetIsUnread(value: Option<bool>) returns (outcome: Outcome)
      requires Valid()
      modifies this
      ensures Valid()
      ensures Applied(IsUnreadEffect(writable, Path(), old(json), value), outcome)
    {
      if !writable { return Failed(ReadOnly); }
      if value.None? { return Failed(ArgumentNull); }
      if json.None? { return Done; }
      if json.value.unread == value { return Done; }
      json := Some(json.value.(unread := value));
      params := params["unread" := LowerBool(value.value)];
      Put();
      return Done;
    }

    /** Sends the accumulated parameters in one PUT and clears them. */
    method Put()
      modifies this`log, this`params
      ensures log == old(log) + [Request(Verb.Put, At(Path()), old(params))]
      ensures params == map[]
    {
      log := log + [Request(Verb.Put, At(Path()), params)];
      params := map[];
    }

    /** The creator member: none without a snapshot or creator id; retrieved
        again only when the cache is empty or holds another member and a
        service is attached. `retrieved` is what Svc.Retrieve returns, null
        included; a null result leaves the cache empty. */
    method GetMemberCreator(retrieved: Option<EntityRef>) returns (m: Option<EntityRef>)
      modifies this`memberCreator, this`retrievals
      ensures json.None? || json.value.idMemberCreator.None? ==>
        m.None? && memberCreator == old(memberCreator) && retrievals == old(retrievals)
      ensures json.Some? && json.value.idMemberCreator.Some? ==>
        var id := json.value.idMemberCreator.value;
        if (old(memberCreator).None? || old(memberCreator).value.id != id) && svcAttached
        then m == retrieved && memberCreator == m && retrievals == old(retrievals) + [id]
        else m == old(memberCreator) && memberCreator == old(memberCreator) && retrievals == old(retrievals)
    {
      if json.None? { return None; }
      if json.value.idMemberCreator.None? { return None; }
      var id := json.value.idMemberCreator.value;
      if (memberCreator.None? || memberCreator.value.id != id) && svcAttached {
        retrievals := retrievals + [id];
        memberCreator := retrieved;
      }
      m := memberCreator;
    }

    /** Fetches the snapshot; a null fetch leaves everything but the log as
        it was and reports false. */
    method Refresh(fetched: Option<NotificationJson>) returns (found: bool)
      requires Valid()
      modifies this`json, this`kind, this`log, this`params
      ensures Valid()
      ensures log == old(log) + [Request(Verb.Get, At(Path()), RefreshQuery)]
      ensures found == fetched.Some?
      ensures fetched.None? ==> json == old(json) && kind == old(kind)
      ensures fetched.Some? ==> json == fetched && kind == TypeOf(fetched.value.wireType)
    {
      params := params["fields" := "unread,type,date,data,idMemberCreator"];
      params := params["entities" := "false"];
      params := params["memberCreator" := "false"];
      params := params["board" := "false"];
      params := params["list" := "false"];
      params := params["card" := "false"];
      params := params["organization" := "false"];
      params := params["member" := "false"];
      log := log + [Request(Verb.Get, At(Path()), params)];
      params := map[];
      if fetched.None? { return false; }
      var _ := ApplyJson(fetched);
      return true;
    }

    /** Replaces the whole snapshot, with a null one if given null, and
        recomputes the type from it; a null snapshot makes the type decoding
        fail and leaves the type as it was. */
    method ApplyJson(obj: Option<NotificationJson>) returns (outcome: Outcome)
      modifies this`json, this`kind
      ensures json == obj
      ensures obj.Some? ==> outcome == Done && kind == TypeOf(obj.value.wireType)
      ensures obj.None? ==> outcome == Failed(NullSnapshot) && kind == old(kind)
    {
      json := obj;
      outcome := UpdateType();
    }

    /** Decodes the snapshot's wire string into the type; reading the type
        of a null snapshot fails. */
    method UpdateType() returns (outcome: Outcome)
      modifies this`kind
      ensures json.Some? ==> outcome == Done && kind == TypeOf(json.value.wireType)
      ensures json.None? ==> outcome == Failed(NullSnapshot) && kind == old(kind)
    {
      if json.None? { return Failed(NullSnapshot); }
      kind := TypeOf(json.value.wireType);
      return Done;
    }

    /** Two notifications are equal exactly when their Ids are. */
    function Equals(other: Notification): (r: bool)
      reads this, other
      ensures r <==> Id() == other.Id()
      ensures this == other ==> r
    {
      Id() == other.Id()
    }
  }
}

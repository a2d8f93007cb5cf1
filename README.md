# Manatee.Trello proxy writes, modelled in Dafny

Manatee.Trello is a .NET client for the Trello REST API. Each Trello entity is
a proxy object. A proxy holds a JSON snapshot of the entity, a parameter
accumulator (`Parameters`) and handles on its lazily fetched child
collections. This project models how the proxies for boards, organizations,
notifications and a board's label names turn property writes and
member/creation calls into REST requests. It also models the `Endpoint`
builder that names those requests.

Every property setter runs the same steps in the same order:
1. An `Organization` setter first does nothing at all if the organization
   has been deleted. The other proxies have no such step.
2. The setter checks write access (`Validator.Writable`).
3. It runs the argument checks that come before the snapshot.
4. It does nothing if there is no snapshot.
5. It does nothing if the value is unchanged. `Board`'s Organization setter
   skips this step for null, so clearing the organization always sends a
   PUT.
6. It runs the checks that only apply to a real change.
7. Otherwise it updates the snapshot optimistically and stages exactly one
   parameter.
8. It sends one PUT and clears the accumulator. `Board` and `Organization`
   then mark their `Actions` collection stale; `Notification` and
   `LabelNames` mark nothing. `LabelNames` sends its PUT to its own path
   extended by the colour.

`Protocol.Decide` is that sequence. For each setter, a module-level `...Effect`
function says what one call does: the outcome, the new snapshot and the
requests it sends. Each proxy is a `class`. Its setter methods are tied to the
`...Effect` function by the two-state predicate `Applied`.

The transport is a request log (`log: seq<Request>`). A request records:
- the verb;
- the target;
- the parameters exactly as they were when it was sent.

Collaborators the model cannot see become inputs of the operations that
use them:
- the entity validator's verdict (`accepted`);
- what `Svc.Retrieve` returns (`retrieved`), with each retrieval recorded in
  `retrievals`;
- the member search result (`found`);
- the ids the server assigns (`createdId`);
- what a refresh fetches (`fetched`).

The model also records which child collections were marked for update
(`stale`). An `Organization` also carries its `_isDeleted` flag (`deleted`).
Once that flag is set, the organization's setters, gated getters, member
operations and `Delete` do nothing; `Refresh` and `CreateBoard` are not
gated.

Files:
- `protocol.dfy`: nullable strings, errors, requests, the setter state
  machine and the PUT count;
- `endpoint.dfy`: `Endpoint` and `string.Join` over nullable segments;
- `board.dfy`: `Board`;
- `organization.dfy`: `Organization`;
- `notification.dfy`: `Notification` and its one-to-one table of type names;
- `label_names.dfy`: `LabelNames`.

## Model

| member | source | states |
|---|---|---|
| Protocol.Decide | Manatee.Trello/Organization.cs:89-98 | write access is checked first, then the early argument checks; a missing snapshot or an unchanged value skips (iff); the late check can still reject; write happens iff every step passes |
| Protocol.SetterPutCount | Manatee.Trello/Board.cs:481-487 | a setter effect with at most one request, all PUTs, raises the log's PUT count by exactly its number of requests |
| Protocol.CountConcat | Manatee.Trello/Board.cs:481-487 | the PUT count of a concatenated log is the sum of the counts of its parts |
| Protocol.Count | Manatee.Trello/Board.cs:481-487 | the count is at most the log length, and zero iff no request in the log uses the verb |
| Endpoints.Significant | Manatee.Trello/Internal/Endpoint.cs:37-40 | the kept segments are non-blank and drawn from the input, and there are no more of them than input segments |
| Endpoints.SignificantConcat | Manatee.Trello/Internal/Endpoint.cs:37-40 | filtering distributes over concatenation, so the kept segments stay in their input order |
| Endpoints.SignificantKeepsAll | Manatee.Trello/Internal/Endpoint.cs:37-40 | a list with no null or blank segment is kept whole |
| Endpoints.SignificantDropsAll | Manatee.Trello/Internal/Endpoint.cs:37-40 | a list of only null or blank segments becomes empty |
| Endpoints.Join | Manatee.Trello/Internal/Endpoint.cs:47-50 | no segments join to ""; one segment joins to that segment, with null read as "" |
| Endpoints.JoinConcat | Manatee.Trello/Internal/Endpoint.cs:47-50 | joining two non-empty lists puts exactly one "/" between their joins |
| Endpoints.JoinAppend | Manatee.Trello/Internal/Endpoint.cs:42-50 | appending a segment extends the joined text by "/" and that segment |
| Endpoints.JoinLength | Manatee.Trello/Internal/Endpoint.cs:47-50 | the joined length is the total segment length plus one separator per pair of neighbours |
| Endpoints.Endpoint.FromSequence | Manatee.Trello/Internal/Endpoint.cs:33-36 | the sequence constructor keeps every segment verbatim |
| Endpoints.Endpoint.FromParams | Manatee.Trello/Internal/Endpoint.cs:37-40 | the params constructor keeps exactly the non-blank segments |
| Endpoints.Endpoint.Append | Manatee.Trello/Internal/Endpoint.cs:42-45 | exactly one segment, even null, is added at the end; the rendered path grows by "/" and that segment, or becomes that segment if it was empty |
| Endpoints.Endpoint.ToString | Manatee.Trello/Internal/Endpoint.cs:47-50 | an empty endpoint renders as ""; a single segment renders as itself |
| Boards.WithFlag | Manatee.Trello/Board.cs:116 | replacing one flag leaves the other flags, the id, name, description, organization and URL unchanged |
| Boards.DescriptionEffect | Manatee.Trello/Board.cs:73-81 | read-only fails with no effect; a missing snapshot or equal value is a no-op; otherwise null is stored as "" and exactly one PUT of "desc" is sent |
| Boards.FlagEffect | Manatee.Trello/Board.cs:110-161 | IsClosed, IsPinned and IsSubscribed: read-only, then null rejected, then no-op for a missing snapshot or equal value, else the flag and one PUT of its lower-case text |
| Boards.NameEffect | Manatee.Trello/Board.cs:186-195 | read-only, then null or "" rejected before the snapshot is read, then no-op, else the name and one PUT of "name" |
| Boards.OrganizationEffect | Manatee.Trello/Board.cs:212-228 | a rejected entity fails; null always clears IdOrganization and PUTs ""; a non-null organization with the same Id is a no-op, otherwise it is stored and PUT |
| Boards.NullDescriptionOverEmptyStillPuts | Manatee.Trello/Board.cs:77-80 | setting null over "" stores "" again and still sends a PUT, because null is compared before it is coalesced |
| Boards.NameIdempotent | Manatee.Trello/Board.cs:191 | setting the same name twice sends nothing the second time |
| Boards.ClearOrganizationAlwaysPuts | Manatee.Trello/Board.cs:217-227 | clearing the organization twice sends a PUT of "" on each call |
| Boards.Board.Id | Manatee.Trello/Board.cs:86-95 | the snapshot's Id while there is a snapshot, otherwise the Id kept by the base object |
| Boards.Board.Url | Manatee.Trello/Board.cs:241 | null without a snapshot, else the snapshot's URL |
| Boards.Board.constructor | Manatee.Trello/Board.cs:251-263 | a new board has an empty accumulator, no stale children, no cached organization and an empty log |
| Boards.Board.SetDescription | Manatee.Trello/Board.cs:73-81 | the new state is `DescriptionEffect` of the old snapshot; actions are marked stale iff a PUT was sent |
| Boards.Board.SetFlag | Manatee.Trello/Board.cs:110-161 | the new state is `FlagEffect` of the old snapshot |
| Boards.Board.SetName | Manatee.Trello/Board.cs:186-195 | the new state is `NameEffect` of the old snapshot |
| Boards.Board.SetOrganization | Manatee.Trello/Board.cs:212-228 | the new state is `OrganizationEffect` of the old snapshot |
| Boards.Board.GetOrganization | Manatee.Trello/Board.cs:202-211 | no snapshot gives null; a cache that is empty or holds another Id is refreshed only with a service attached, to null for a blank IdOrganization or else to what one retrieval of that Id returns, null included; otherwise the cache is returned untouched |
| Boards.Board.AddList | Manatee.Trello/Board.cs:271-290 | no service: nothing; read-only or a null/empty name fails; otherwise one POST with name, idBoard and a valid position only, after which Lists and Actions are stale |
| Boards.Board.AddOrUpdateMember | Manatee.Trello/Board.cs:296-308 | no service: nothing; read-only or a rejected member fails; otherwise one PUT of "type" to the member endpoint, after which Memberships and Actions are stale |
| Boards.Board.AddOrUpdateMemberByEmail | Manatee.Trello/Board.cs:315-330 | both strings must be non-empty; no search hit sends nothing and returns null; a hit is added as above and returned |
| Boards.Board.MarkAsViewed | Manatee.Trello/Board.cs:334-342 | one POST with no parameters to the board path extended by "markAsViewed"; actions stale |
| Boards.Board.RemoveMember | Manatee.Trello/Board.cs:358-368 | one DELETE to the member endpoint; Memberships and Actions stale |
| Boards.Board.Equals | Manatee.Trello/Board.cs:385-388 | equal iff the Ids are equal; reflexive |
| Boards.Board.Refresh | Manatee.Trello/Board.cs:438-455 | one GET with the fixed field query; the accumulator is empty afterwards; a null fetch keeps the snapshot and returns false |
| Boards.Board.ApplyJson | Manatee.Trello/Board.cs:473-479 | the snapshot is replaced wholesale, null included |
| Boards.Board.Put | Manatee.Trello/Board.cs:481-487 | one PUT carrying the accumulated parameters, then an empty accumulator and stale actions |
| Organizations.WithText | Manatee.Trello/Organization.cs:73 | replacing one text leaves the other texts and every other field unchanged |
| Organizations.TextEffect | Manatee.Trello/Organization.cs:67-212 | deleted: no effect; then read-only; then no-op for a missing snapshot or equal value; then a null DisplayName or one shorter than 4 fails, and a null or rejected Name fails; otherwise the text (Description and Website coalesced) and one PUT of exactly the stored text |
| Organizations.Ids | Manatee.Trello/Organization.cs:305-308 | one id per member, in member order |
| Organizations.DeletedIsInert | Manatee.Trello/Organization.cs:63-69 | once deleted, every text setter is a no-op and every text getter reports null |
| Organizations.ShortDisplayNameUnchangedIsNoOp | Manatee.Trello/Organization.cs:94-95 | for every non-null display name shorter than 4, setting it unchanged is a silent no-op, while setting it over any other display name is refused |
| Organizations.TextIdempotent | Manatee.Trello/Organization.cs:67-212 | after a successful non-null write, repeating it succeeds with no request, so the two calls send at most one PUT together |
| Organizations.Organization.constructor | Manatee.Trello/Organization.cs:222-231 | a new organization is not deleted, has an empty accumulator and an empty log |
| Organizations.Organization.Id | Manatee.Trello/Organization.cs:103-112 | the snapshot's Id while there is a snapshot, otherwise the Id kept by the base object; not gated by deletion |
| Organizations.Organization.Url | Manatee.Trello/Organization.cs:190 | null without a snapshot, else the snapshot's URL; not gated by deletion |
| Organizations.Organization.IsPaidAccount | Manatee.Trello/Organization.cs:120 | null without a snapshot, else the snapshot's paid-account flag; not gated by deletion |
| Organizations.Organization.GetText | Manatee.Trello/Organization.cs:59-212 | Description, DisplayName, Name and Website read null once deleted or without a snapshot, and otherwise the snapshot field |
| Organizations.Organization.LogoHash | Manatee.Trello/Organization.cs:124-132 | null once deleted or without a snapshot, else the snapshot's logo hash |
| Organizations.Organization.PowerUps | Manatee.Trello/Organization.cs:162-170 | an empty enumeration once deleted, null without a snapshot, else the snapshot's power-ups |
| Organizations.Organization.PremiumFeatures | Manatee.Trello/Organization.cs:178-186 | an empty enumeration once deleted, null without a snapshot, else the snapshot's features |
| Organizations.Organization.Listing | Manatee.Trello/Organization.cs:51-136 | Actions, Boards and Memberships are empty once deleted; InvitedMembers is always shown; everything is shown while not deleted |
| Organizations.Organization.Matches | Manatee.Trello/Organization.cs:451-454 | true iff the Id or the (gated) Name equals the argument, so a deleted organization matches null |
| Organizations.Organization.SetText | Manatee.Trello/Organization.cs:67-212 | the new state is `TextEffect` of the old snapshot; deletion state and member marks are unchanged |
| Organizations.Organization.AddOrUpdateMember | Manatee.Trello/Organization.cs:238-251 | no service or deleted: nothing; then read-only and entity checks; otherwise one PUT of "type", after which Members, Memberships and Actions are stale |
| Organizations.Organization.AddOrUpdateMemberByEmail | Manatee.Trello/Organization.cs:258-274 | gated as above; both strings must be non-empty; a search hit is added and returned, no hit sends nothing |
| Organizations.Organization.CreateBoard | Manatee.Trello/Organization.cs:280-294 | not gated by deletion; one POST with name and idOrganization, after which Boards are stale |
| Organizations.Organization.Delete | Manatee.Trello/Organization.cs:298-313 | no service or already deleted: nothing; read-only fails; otherwise every member's organization list is marked in order, one DELETE is sent, and the organization is deleted |
| Organizations.Organization.RemoveMember | Manatee.Trello/Organization.cs:331-342 | gated as above; one DELETE to the member endpoint; Members, Memberships and Actions stale |
| Organizations.Organization.Equals | Manatee.Trello/Organization.cs:362-365 | equal iff the Ids are equal; reflexive |
| Organizations.Organization.Refresh | Manatee.Trello/Organization.cs:415-430 | one GET with the fixed field query, deleted or not; a null fetch keeps the snapshot and returns false |
| Organizations.Organization.ApplyJson | Manatee.Trello/Organization.cs:444-450 | the snapshot is replaced wholesale, null included |
| Organizations.Organization.Put | Manatee.Trello/Organization.cs:456-462 | one PUT carrying the accumulated parameters, then an empty accumulator and stale actions |
| Notifications.Find | Manatee.Trello/Notification.cs:273-276 | Unknown iff no entry carries the wire string; otherwise the result is paired with it in the table |
| Notifications.TypeOf | Manatee.Trello/Notification.cs:273-276 | null or an unlisted string decodes to Unknown (iff); otherwise to the type paired with it |
| Notifications.TypeMapHasDistinctWires | Manatee.Trello/Notification.cs:124-150 | no two entries of the type table share a wire string |
| Notifications.FindEntry | Manatee.Trello/Notification.cs:273-276 | in a table with distinct wire strings, looking up an entry's string finds that entry's type |
| Notifications.Index | Manatee.Trello/Notification.cs:124-150 | every listed type has a table position holding it |
| Notifications.WireName | Manatee.Trello/Notification.cs:124-150 | the wire string of a listed type is paired with it in the table |
| Notifications.RoundTrip | Manatee.Trello/Notification.cs:124-150 | decoding a listed type's wire string gives that type back |
| Notifications.WireNameInjective | Manatee.Trello/Notification.cs:124-150 | no two listed types share a wire string |
| Notifications.IsUnreadEffect | Manatee.Trello/Notification.cs:83-92 | read-only, then null rejected, then no-op for a missing snapshot or equal value, else the flag and one PUT of "unread" |
| Notifications.IsUnreadIdempotent | Manatee.Trello/Notification.cs:88 | repeating a successful IsUnread write sends nothing |
| Notifications.Notification.constructor | Manatee.Trello/Notification.cs:155-169 | a new notification has an empty accumulator, no cached creator, an empty log and the type `Unknown` |
| Notifications.Notification.Id | Manatee.Trello/Notification.cs:63-72 | the snapshot's Id while there is a snapshot, otherwise the Id kept by the base object |
| Notifications.Notification.SetIsUnread | Manatee.Trello/Notification.cs:83-92 | the new state is `IsUnreadEffect` of the old snapshot |
| Notifications.Notification.GetMemberCreator | Manatee.Trello/Notification.cs:97-107 | null without a snapshot or creator id; retrieves only when the cache is empty or holds another Id and a service is attached, and caches what the retrieval returns, null included |
| Notifications.Notification.Refresh | Manatee.Trello/Notification.cs:231-247 | one GET with the fixed field query; a fetched snapshot is applied and its type decoded; a null fetch changes nothing else |
| Notifications.Notification.ApplyJson | Manatee.Trello/Notification.cs:257-264 | the snapshot is replaced wholesale, null included; a non-null snapshot's type is recomputed, while a null one fails with the type unchanged |
| Notifications.Notification.UpdateType | Manatee.Trello/Notification.cs:273-276 | the type is the decoding of the snapshot's wire string; a null snapshot fails and keeps the type |
| Notifications.Notification.Put | Manatee.Trello/Notification.cs:266-271 | one PUT carrying the accumulated parameters, then an empty accumulator |
| Notifications.Notification.Equals | Manatee.Trello/Notification.cs:178-181 | equal iff the Ids are equal; reflexive |
| Labels.WithField | Manatee.Trello/LabelNames.cs:55 | replacing one colour's name leaves the five others unchanged |
| Labels.NameEffect | Manatee.Trello/LabelNames.cs:43-159 | read-only fails; a missing snapshot or equal value is a no-op; otherwise the name (null as "") and one PUT of "value" to the label-names path extended by the colour |
| Labels.NameEffectFrame | Manatee.Trello/LabelNames.cs:43-159 | setting one colour never changes another colour's name |
| Labels.ColorPathExtends | Manatee.Trello/LabelNames.cs:234-240 | a colour's PUT path is the label-names path, "/" and the colour |
| Labels.LabelNames.constructor | Manatee.Trello/LabelNames.cs:169-177 | a new label-names object has an empty accumulator and an empty log |
| Labels.LabelNames.Name | Manatee.Trello/LabelNames.cs:43-159 | each colour's getter reads null without a snapshot, else that colour's field of the snapshot |
| Labels.LabelNames.Labels | Manatee.Trello/LabelNames.cs:186-197 | six labels, one per colour in palette order, each named by its current getter |
| Labels.LabelNames.SetName | Manatee.Trello/LabelNames.cs:43-159 | the new state is `NameEffect` of the old snapshot |
| Labels.LabelNames.Put | Manatee.Trello/LabelNames.cs:234-240 | one PUT of the accumulated parameters to the path extended by the colour, then an empty accumulator |
| Labels.LabelNames.Refresh | Manatee.Trello/LabelNames.cs:212-219 | one GET with no parameters; a null fetch keeps the snapshot and returns false |
| Labels.LabelNames.ApplyJson | Manatee.Trello/LabelNames.cs:226-232 | the snapshot is replaced wholesale, null included |

## Left out

- Expiry (`ExpiringObject`, `VerifyNotExpired`) and the lazy fetching of child collections are not modelled. Marking a collection for update adds it to `stale`.
- The `Validator` rules are inputs. `Validator.Entity` and `Validator.OrgName` are reduced to an `accepted` verdict. `Validator.MinStringLength` and `Validator.OrgName` are assumed to return their argument unchanged when they pass, and to refuse null. `Validator.Nullable` and `Validator.NonEmptyString` are modelled as their names say.
- `EndpointGenerator` is not part of this model. A proxy's own segments are the constant `generated`. Endpoints for a member of a board or organization, and for a new list or board, are the opaque targets `ForMember` and `ForNew`.
- The public constructors start from an empty (non-null) snapshot. The model's constructors take the initial snapshot as a parameter, which covers that case.
- Errors are returned as `Failed(...)` outcomes instead of thrown exceptions. Transport failures, and the snapshot state after a failed PUT, are not modelled.
- An `Id` is always a string; a null Id is not modelled.
- The membership type is passed as its already lower-cased text, `typeName`.
- A list position is passed as its validity and its wire text.
- The new list or board that `AddList` and `CreateBoard` return is represented by the Id in the POST response, not as a new proxy object.
- The identity cache (`Svc.Configuration.Cache`) and `UpdateService`/`PropagateService` are not modelled.
- The unused `RequestProvider.Create` calls in Board are not modelled.
- `Svc.SearchMembers` is not modelled; its first result is the input `found`.
- `Delete` enumerates `_members`, which may itself fetch from the server. The model takes the enumerated members as the input `members`.
- `InviteMember` and `RescindInvitation` only log "not supported" and are not modelled.
- `CompareTo`, `ToString`, `GetHashCode` and `Equals(object)` of the proxies are not modelled. Equality is modelled only between proxies of the same class, and a null argument, which throws in the source, is not modelled.
- The Notification's `Date` and `Data` fields are not modelled.
- The board's preferences, personal preferences and label-names handles are not modelled.
- The organization's `Preferences` property is not modelled. It returns null once deleted, and its object is outside this model.
- `char.IsWhiteSpace` is modelled by its fixed list of Unicode space, separator and control characters.
- Boards.Board.GetOrganization: which organization `Svc.Retrieve` returns, null included, is an input; only the Id passed to it is recorded.
- Organizations.TextEffect: `Validator.OrgName` is not part of this model. The model assumes it refuses a null name (as `InvalidOrgName`), so a name that passes is always stored and sent as the same non-null text.
- Organizations.TextEffect: string lengths are counted in Unicode scalar values, whereas .NET counts UTF-16 code units. A display name with characters outside the Basic Multilingual Plane can pass `MinStringLength` in .NET and fail in the model. For example, two emoji have .NET length 4 but model length 2.
- Notifications.Notification.ApplyJson: the `NullReferenceException` that `UpdateType` throws on a null snapshot is the outcome `Failed(NullSnapshot)`. The snapshot is already null at that point, and the type keeps its old value.
- Notifications.Notification.constructor: the type starts as `Unknown`. The `NotificationType` declaration is not part of this model, so the model assumes its default value is `Unknown`.
- Notifications.Notification.GetMemberCreator: which member `Svc.Retrieve` returns, null included, is an input; only the Id passed to it is recorded.

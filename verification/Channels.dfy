/**
  Workspace channels: creation under a parent, inheritance of repository IDs and
  configuration, and patching. Creating and patching each take several critical
  sections, so a world also holds the requests that are between two of them.
 */
module Channels {
  import opened Wrappers
  import opened Strings
  import opened RepositoryIDs

  type Config = map<string, string>

  datatype Channel = Channel(
    id: string, workspaceID: string, name: string, parentID: string,
    repositoryID: string, repositoryIDs: seq<string>, config: Config, createdBy: string)

  datatype Patch = Patch(
    name: Option<string>, resourceID: Option<string>, resourceIDs: Option<seq<string>>,
    repositoryID: Option<string>, repositoryIDs: Option<seq<string>>, config: Option<Config>)

  datatype Error = NotFound | Unauthorized | Invalid | Cancelled | PublishFailed

  /** One user, and the workspaces that user may read and write: none for a service without an authorizer. */
  datatype Auth = Auth(userID: string, readable: set<string>, writable: set<string>)

  function Find(channels: map<string, Channel>, id: string): Option<Channel> {
    if id in channels then Some(channels[id]) else None
  }

  function GetChannel(channels: map<string, Channel>, auth: Auth, id: string): Result<Channel, Error> {
    if id !in channels then Err(NotFound)
    else if channels[id].workspaceID !in auth.readable then Err(Unauthorized)
    else Ok(channels[id])
  }

  // ------------------------------------------------------------- inheritance

  function InheritedIDs(ids: seq<string>, parent: Option<Channel>): seq<string> {
    var own := Normalize(ids);
    if own != [] || parent.None? then own
    else
      var up := parent.value;
      Normalize(if up.repositoryIDs == [] && up.repositoryID != "" then [up.repositoryID] else up.repositoryIDs)
  }

  function Head(ids: seq<string>): string {
    if ids == [] then "" else ids[0]
  }

  function SetIDs(c: Channel, ids: seq<string>): Channel {
    c.(repositoryIDs := Normalize(ids), repositoryID := Head(Normalize(ids)))
  }

  function ApplyRepositoryPatch(c: Channel, patch: Patch): Channel {
    var c1 := if patch.repositoryID.Some? then SetIDs(c, [Trim(patch.repositoryID.value)]) else c;
    var c2 := if patch.repositoryIDs.Some? then SetIDs(c1, patch.repositoryIDs.value) else c1;
    var c3 := if patch.resourceID.Some? then SetIDs(c2, [Trim(patch.resourceID.value)]) else c2;
    if patch.resourceIDs.Some? then SetIDs(c3, patch.resourceIDs.value) else c3
  }

  /** A channel left without repositories falls back on its parent's. */
  function FillLists(c: Channel, parent: Option<Channel>): Channel {
    if c.repositoryIDs == [] && c.repositoryID == "" && parent.Some?
    then c.(repositoryIDs := InheritedIDs([], parent), repositoryID := Head(InheritedIDs([], parent)))
    else c
  }

  function ApplyPatch(c: Channel, parent: Option<Channel>, patch: Patch): Result<Channel, Error> {
    if patch.name.Some? && Trim(patch.name.value) == "" then Err(Invalid)
    else
      var named := if patch.name.Some? then c.(name := Trim(patch.name.value)) else c;
      var c1 := ApplyRepositoryPatch(named, patch);
      var c2 := FillLists(c1, parent);
      Ok(if patch.config.Some?
         then c2.(config := if parent.Some? then parent.value.config + patch.config.value else patch.config.value)
         else c2)
  }

  /** The channel a create request makes, still without an ID. */
  function Draft(auth: Auth, workspaceID: string, name: string, parentID: string, parent: Option<Channel>,
                 ids: seq<string>, config: Config): Result<Channel, Error>
  {
    if Trim(auth.userID) == "" || Trim(workspaceID) == "" || Trim(name) == "" then Err(Invalid)
    else if workspaceID !in auth.writable then Err(Unauthorized)
    else if parentID != "" && (parent.None? || parent.value.workspaceID != workspaceID) then Err(NotFound)
    else
      var lists := InheritedIDs(ids, parent);
      Ok(Channel("", workspaceID, Trim(name), parentID, Head(lists), lists,
                 if parent.Some? then parent.value.config + config else config, auth.userID))
  }

  /** The read part of an update: the channel, if this user may update it. */
  function Writable(channels: map<string, Channel>, auth: Auth, workspaceID: string, id: string)
    : Result<Channel, Error>
  {
    if Trim(auth.userID) == "" || Trim(workspaceID) == "" then Err(Invalid)
    else if workspaceID !in auth.writable then Err(Unauthorized)
    else
      match GetChannel(channels, auth, id)
      case Err(e) => Err(e)
      case Ok(c) => if c.workspaceID != workspaceID then Err(NotFound) else Ok(c)
  }

  /** Both parts of an update, with nothing in between. */
  function Updated(channels: map<string, Channel>, auth: Auth, workspaceID: string, id: string, patch: Patch)
    : Result<Channel, Error>
  {
    match Writable(channels, auth, workspaceID, id)
    case Err(e) => Err(e)
    case Ok(c) => ApplyPatch(c, Find(channels, c.parentID), patch)
  }

  // ------------------------------------------- what a create and a patch leave

  /** The repositories a patch gives: the last of its fields that is present. */
  function Given(patch: Patch): Option<seq<string>> {
    match patch
    case Patch(_, _, Some(ids), _, _, _) => Some(ids)
    case Patch(_, Some(id), None, _, _, _) => Some([id])
    case Patch(_, None, None, _, Some(ids), _) => Some(ids)
    case Patch(_, None, None, Some(id), None, _) => Some([id])
    case Patch(_, None, None, None, None, _) => None
  }

  /** Own repositories in their normal form, or else the parent's; the legacy field is the first. */
  ghost predicate HasRepositories(c: Channel, own: seq<string>, parent: Option<Channel>) {
    && c.repositoryIDs == (if own == [] && parent.Some? then parent.value.repositoryIDs else own)
    && c.repositoryID == (if c.repositoryIDs == [] then "" else c.repositoryIDs[0])
  }

  /** Key by key: what is given, and the parent's for the others. */
  ghost predicate HasConfig(config: Config, given: Config, parent: Option<Channel>) {
    forall key: string ::
      if key in given then key in config && config[key] == given[key]
      else if parent.Some? && key in parent.value.config
      then key in config && config[key] == parent.value.config[key]
      else key !in config
  }

  ghost predicate Patches(c: Channel, parent: Option<Channel>, patch: Patch, r: Channel) {
    && r.id == c.id && r.workspaceID == c.workspaceID && r.parentID == c.parentID && r.createdBy == c.createdBy
    && r.name == (if patch.name.Some? then Trim(patch.name.value) else c.name)
    && HasRepositories(r, if Given(patch).Some? then Normalize(Given(patch).value) else c.repositoryIDs, parent)
    && (patch.config.None? ==> r.config == c.config)
    && (patch.config.Some? ==> HasConfig(r.config, patch.config.value, parent))
  }

  ghost predicate Creates(draft: Channel, userID: string, workspaceID: string, name: string, parentID: string,
                          parent: Option<Channel>, ids: seq<string>, config: Config)
  {
    && draft.workspaceID == workspaceID && draft.name == Trim(name) && draft.parentID == parentID
    && draft.createdBy == userID
    && HasRepositories(draft, Normalize(ids), parent) && HasConfig(draft.config, config, parent)
  }

  // ------------------------------------------------------------- the service

  /** What a call meets: a context done before it, the second on the clock, and whether its event goes out. */
  datatype Call = Call(cancelled: bool, second: string, published: bool)

  /** The last character of a generated ID. */
  function Letter(sequence: nat): char {
    'a' + (sequence % 26) as char
  }

  function GeneratedID(prefix: string, second: string, sequence: nat): string {
    prefix + "_" + second + "_" + [Letter(sequence)]
  }

  /** `order` numbers the channels by creation. */
  datatype Store = Store(channels: map<string, Channel>, order: map<string, nat>, next: nat)

  const EMPTY: Store := Store(map[], map[], 0)

  function Insert(s: Store, id: string, draft: Channel): Store {
    Store(s.channels[id := draft.(id := id)], s.order[id := s.next], s.next + 1)
  }

  function Replace(s: Store, c: Channel): Store {
    s.(channels := s.channels[c.id := c])
  }

  class CollaborationService {
    var channels: map<string, Channel>
    ghost var order: map<string, nat>
    ghost var next: nat
    var sequence: nat

    ghost function State(): Store
      reads this
    {
      Store(channels, order, next)
    }

    constructor ()
      ensures State() == EMPTY && sequence == 0
    {
      channels, order, next, sequence := map[], map[], 0, 0;
    }

    /** The generator of all IDs, which are distinct only while the second or the letter is. */
    method GenerateID(prefix: string, second: string) returns (id: string)
      modifies this`sequence
      ensures sequence == old(sequence) + 1 && id == GeneratedID(prefix, second, sequence)
    {
      sequence := sequence + 1;
      id := prefix + "_" + second + "_" + ['a' + (sequence % 26) as char];
    }

    /** The event of a change takes an ID as well; a publisher that fails fails the call, after the change. */
    method Publish(call: Call) returns (error: Option<Error>)
      modifies this`sequence
      ensures sequence == old(sequence) + 1 && error == if call.published then None else Some(PublishFailed)
    {
      var _ := GenerateID("event", call.second);
      error := if call.published then None else Some(PublishFailed);
    }

    method CreateChannelWithRepositories(call: Call, auth: Auth, workspaceID: string, name: string, parent: string,
                                         ids: seq<string>, config: Config)
      returns (r: Result<Channel, Error>)
      modifies this
      ensures call.cancelled ==> r == Err(Cancelled) && State() == old(State()) && sequence == old(sequence)
      ensures !call.cancelled ==>
                match Draft(auth, workspaceID, name, Trim(parent), Find(old(channels), Trim(parent)), ids, config)
                case Err(e) => r == Err(e) && State() == old(State()) && sequence == old(sequence)
                case Ok(draft) =>
                  var id := GeneratedID("channel", call.second, old(sequence) + 1);
                  && State() == Insert(old(State()), id, draft) && sequence == old(sequence) + 2
                  && r == if call.published then Ok(draft.(id := id)) else Err(PublishFailed)
      ensures (r.Ok? || r.error == PublishFailed) <==>
                && !call.cancelled && Trim(auth.userID) != "" && Trim(workspaceID) != "" && Trim(name) != ""
                && workspaceID in auth.writable
                && (Trim(parent) != "" ==>
                      Trim(parent) in old(channels) && old(channels)[Trim(parent)].workspaceID == workspaceID)
      ensures (r.Ok? || r.error == PublishFailed) && AllGood(old(channels)) ==>
                var id := GeneratedID("channel", call.second, old(sequence) + 1);
                && id in channels && channels == old(channels)[id := channels[id]] && channels[id].id == id
                && Creates(channels[id], auth.userID, workspaceID, name, Trim(parent),
                           Find(old(channels), Trim(parent)), ids, config)
      ensures r.Err? && r.error != PublishFailed ==>
                r.error == if call.cancelled then Cancelled
                           else if Trim(auth.userID) == "" || Trim(workspaceID) == "" || Trim(name) == "" then Invalid
                           else if workspaceID !in auth.writable then Unauthorized else NotFound
    {
      if call.cancelled {
        return Err(Cancelled);
      }
      var drafted := NewChannel(auth, workspaceID, name, Trim(parent), ids, config);
      if drafted.Err? {
        return Err(drafted.error);
      }
      r := StoreChannel(call, drafted.value);
    }

    method StoreChannel(call: Call, draft: Channel) returns (r: Result<Channel, Error>)
      modifies this
      ensures var id := GeneratedID("channel", call.second, old(sequence) + 1);
              && State() == Insert(old(State()), id, draft) && sequence == old(sequence) + 2
              && r == if call.published then Ok(draft.(id := id)) else Err(PublishFailed)
    {
      var id := GenerateID("channel", call.second);
      AddChannel(id, draft);
      var error := Publish(call);
      return if error.Some? then Err(error.value) else Ok(draft.(id := id));
    }

    method AddChannel(id: string, draft: Channel)
      modifies this`channels, this`order, this`next
      ensures State() == Insert(old(State()), id, draft)
    {
      channels := channels[id := draft.(id := id)];
      order := order[id := next];
      next := next + 1;
    }

    /** The new channel, still without its ID. */
    method NewChannel(auth: Auth, workspaceID: string, name: string, parentID: string, ids: seq<string>, config: Config)
      returns (r: Result<Channel, Error>)
      ensures r == Draft(auth, workspaceID, name, parentID, Find(channels, parentID), ids, config)
      ensures r.Ok? <==>
                && Trim(auth.userID) != "" && Trim(workspaceID) != "" && Trim(name) != ""
                && workspaceID in auth.writable
                && (parentID != "" ==> parentID in channels && channels[parentID].workspaceID == workspaceID)
      ensures r.Ok? && AllGood(channels) ==>
                Creates(r.value, auth.userID, workspaceID, name, parentID, Find(channels, parentID), ids, config)
      ensures r.Err? ==>
                r.error == if Trim(auth.userID) == "" || Trim(workspaceID) == "" || Trim(name) == "" then Invalid
                           else if workspaceID !in auth.writable then Unauthorized else NotFound
    {
      if AllGood(channels) {
        DraftIs(auth, workspaceID, name, parentID, Find(channels, parentID), ids, config);
      }
      if Trim(auth.userID) == "" || Trim(workspaceID) == "" || Trim(name) == "" {
        return Err(Invalid);
      }
      if workspaceID !in auth.writable {
        return Err(Unauthorized);
      }
      var hasParent := parentID in channels;
      if parentID != "" && (!hasParent || channels[parentID].workspaceID != workspaceID) {
        return Err(NotFound);
      }
      var lists := NormalizeRepositoryIDs(ids);
      var effective := config;
      if hasParent {
        if lists == [] {
          lists := InheritIDs(channels[parentID]);
        }
        effective := MergeConfig(channels[parentID].config, effective);
      }
      var legacyID := if |lists| > 0 then lists[0] else "";
      return Ok(Channel("", workspaceID, Trim(name), parentID, legacyID, lists, effective, auth.userID));
    }

    method UpdateChannel(call: Call, auth: Auth, workspaceID: string, channelID: string, patch: Patch)
      returns (r: Result<Channel, Error>)
      modifies this
      ensures call.cancelled ==> r == Err(Cancelled) && State() == old(State())
      ensures !call.cancelled ==>
                match Updated(old(channels), auth, workspaceID, channelID, patch)
                case Err(e) => r == Err(e) && State() == old(State())
                case Ok(c) =>
                  State() == Replace(old(State()), c) && r == if call.published then Ok(c) else Err(PublishFailed)
      ensures (r.Ok? || r.error == PublishFailed) <==>
                && !call.cancelled && Trim(auth.userID) != "" && Trim(workspaceID) != ""
                && workspaceID in auth.writable && workspaceID in auth.readable
                && channelID in old(channels) && old(channels)[channelID].workspaceID == workspaceID
                && !(patch.name.Some? && Trim(patch.name.value) == "")
      ensures (r.Ok? || r.error == PublishFailed) && AllGood(old(channels)) ==>
                && channelID in channels && channels == old(channels)[channelID := channels[channelID]]
                && Patches(old(channels)[channelID], Find(old(channels), old(channels)[channelID].parentID), patch,
                           channels[channelID])
      ensures r.Err? && r.error != PublishFailed ==>
                r.error == if call.cancelled then Cancelled
                           else if Trim(auth.userID) == "" || Trim(workspaceID) == "" then Invalid
                           else if workspaceID !in auth.writable then Unauthorized
                           else if channelID !in old(channels) then NotFound
                           else if old(channels)[channelID].workspaceID !in auth.readable then Unauthorized
                           else if old(channels)[channelID].workspaceID != workspaceID then NotFound
                           else Invalid
    {
      if call.cancelled {
        return Err(Cancelled);
      }
      var found := Writable(channels, auth, workspaceID, channelID);
      if found.Err? {
        return Err(found.error);
      }
      var patched := PatchChannel(found.value, Find(channels, found.value.parentID), patch);
      if patched.Err? {
        return Err(patched.error);
      }
      channels := channels[patched.value.id := patched.value];
      var error := Publish(call);
      return if error.Some? then Err(error.value) else Ok(patched.value);
    }
  }

  method PatchChannel(channel: Channel, parent: Option<Channel>, patch: Patch) returns (r: Result<Channel, Error>)
    ensures r == ApplyPatch(channel, parent, patch)
    ensures r.Err? <==> patch.name.Some? && Trim(patch.name.value) == ""
    ensures r.Ok? && Good(channel) && (parent.Some? ==> Good(parent.value)) ==> Patches(channel, parent, patch, r.value)
  {
    if Good(channel) && (parent.Some? ==> Good(parent.value)) {
      PatchIs(channel, parent, patch);
    }
    var c := channel;
    if patch.name.Some? {
      c := c.(name := Trim(patch.name.value));
      if c.name == "" {
        return Err(Invalid);
      }
    }
    c := ApplyRepositoryPatch(c, patch);
    if |c.repositoryIDs| == 0 && c.repositoryID == "" && parent.Some? {
      c := Inherit(c, parent.value);
    }
    if patch.config.Some? {
      var merged := patch.config.value;
      if parent.Some? {
        merged := MergeConfig(parent.value.config, merged);
      }
      c := c.(config := merged);
    }
    return Ok(c);
  }

  method Inherit(c: Channel, parent: Channel) returns (r: Channel)
    requires c.repositoryIDs == [] && c.repositoryID == ""
    ensures r == FillLists(c, Some(parent))
  {
    var lists := InheritIDs(parent);
    r := c.(repositoryIDs := lists);
    if |lists| > 0 {
      r := r.(repositoryID := lists[0]);
    }
  }

  method InheritIDs(parent: Channel) returns (lists: seq<string>)
    ensures lists == InheritedIDs([], Some(parent))
    ensures parent.repositoryIDs == [] && Trim(parent.repositoryID) != "" ==> lists == [Trim(parent.repositoryID)]
    ensures parent.repositoryIDs == [] && Trim(parent.repositoryID) == "" ==> lists == []
    ensures parent.repositoryIDs != [] ==> lists == Normalize(parent.repositoryIDs)
  {
    NormalizeOne(parent.repositoryID);
    lists := parent.repositoryIDs;
    if |lists| == 0 && parent.repositoryID != "" {
      lists := [parent.repositoryID];
    }
    lists := NormalizeRepositoryIDs(lists);
  }

  method MergeConfig(parent: Config, child: Config) returns (output: Config)
    ensures output == parent + child
  {
    output := parent;
    var keys := child.Keys;
    while keys != {}
      invariant keys <= child.Keys
      invariant output.Keys == parent.Keys + (child.Keys - keys)
      invariant forall k :: k in child && k !in keys ==> output[k] == child[k]
      invariant forall k :: k in parent && (k in keys || k !in child) ==> output[k] == parent[k]
      decreases keys
    {
      var key :| key in keys;
      output := output[key := child[key]];
      keys := keys - {key};
    }
    assert output.Keys == (parent + child).Keys;
  }

  // --------------------------------------------------------- what stays true

  /** The repository list is normal, and the legacy field is its head. */
  ghost predicate Good(c: Channel) {
    Normalized(c.repositoryIDs) && c.repositoryID == Head(c.repositoryIDs)
  }

  /** Parent links stay inside a workspace and always point to an earlier channel. */
  ghost predicate Forest(s: Store) {
    && s.order.Keys == s.channels.Keys
    && (forall id :: id in s.channels ==> s.order[id] < s.next)
    && (forall id :: id in s.channels && s.channels[id].parentID != "" ==>
          && s.channels[id].parentID in s.channels
          && s.order[s.channels[id].parentID] < s.order[id]
          && s.channels[s.channels[id].parentID].workspaceID == s.channels[id].workspaceID)
  }

  ghost predicate AllGood(channels: map<string, Channel>) {
    forall id :: id in channels ==> id != "" && channels[id].id == id && Good(channels[id])
  }

  ghost predicate StoreInv(s: Store) {
    Forest(s) && AllGood(s.channels)
  }

  /** A normal list inherits nothing; an empty one inherits the parent's. */
  lemma InheritedGood(ids: seq<string>, parent: Option<Channel>)
    requires parent.Some? ==> Good(parent.value)
    ensures Normalized(InheritedIDs(ids, parent))
    ensures InheritedIDs(ids, parent) ==
            if Normalize(ids) != [] || parent.None? then Normalize(ids) else parent.value.repositoryIDs
  {
    NormalizeKeepsFirsts(ids);
    if parent.Some? {
      NormalizeFixpoint(parent.value.repositoryIDs);
    }
  }

  /** A created channel's configuration: its own keys, and the parent's for all others. */
  lemma DraftConfig(auth: Auth, ws: string, name: string, parentID: string, parent: Option<Channel>,
                    ids: seq<string>, config: Config, key: string)
    ensures var d := Draft(auth, ws, name, parentID, parent, ids, config);
            d.Ok? ==>
              if key in config then key in d.value.config && d.value.config[key] == config[key]
              else if parent.Some? && key in parent.value.config
              then key in d.value.config && d.value.config[key] == parent.value.config[key]
              else key !in d.value.config
  {
  }

  /**
    A created channel has its own list, or else its parent's: it is empty only if it was
    given none and there is no parent or the parent's list is empty too.
   */
  lemma DraftLists(auth: Auth, ws: string, name: string, parentID: string, parent: Option<Channel>,
                   ids: seq<string>, config: Config)
    requires parent.Some? ==> Good(parent.value)
    ensures var d := Draft(auth, ws, name, parentID, parent, ids, config);
            d.Ok? ==> && Good(d.value)
                      && (d.value.repositoryIDs == [] <==>
                            Normalize(ids) == [] && (parent.None? || parent.value.repositoryIDs == []))
  {
    InheritedGood(ids, parent);
  }

  lemma SetIDsGood(c: Channel, ids: seq<string>)
    ensures Good(SetIDs(c, ids))
  {
    NormalizeKeepsFirsts(ids);
  }

  /** Setting the repositories of a channel changes nothing else. */
  ghost predicate SameBut(c: Channel, r: Channel) {
    r == c.(repositoryIDs := r.repositoryIDs, repositoryID := r.repositoryID)
  }

  lemma RepositoryPatchGood(c: Channel, patch: Patch)
    requires Good(c)
    ensures Good(ApplyRepositoryPatch(c, patch)) && SameBut(c, ApplyRepositoryPatch(c, patch))
  {
    forall c, ids ensures Good(SetIDs(c, ids)) {
      SetIDsGood(c, ids);
    }
  }

  lemma FillGood(c: Channel, parent: Option<Channel>)
    requires Good(c) && (parent.Some? ==> Good(parent.value))
    ensures var r := FillLists(c, parent);
            && Good(r) && SameBut(c, r)
            && (r.repositoryIDs == [] ==> parent.None? || parent.value.repositoryIDs == [])
  {
    InheritedGood([], parent);
  }

  /** An update whose parent resolves leaves an empty list only if the parent's list is empty. */
  lemma PatchLists(c: Channel, parent: Option<Channel>, patch: Patch)
    requires Good(c) && (parent.Some? ==> Good(parent.value))
    ensures var r := ApplyPatch(c, parent, patch);
            r.Ok? ==> && Good(r.value)
                      && r.value.id == c.id && r.value.parentID == c.parentID && r.value.workspaceID == c.workspaceID
                      && (r.value.repositoryIDs == [] ==> parent.None? || parent.value.repositoryIDs == [])
  {
    var named := if patch.name.Some? then c.(name := Trim(patch.name.value)) else c;
    RepositoryPatchGood(named, patch);
    FillGood(ApplyRepositoryPatch(named, patch), parent);
  }

  lemma NormalizeOne(id: string)
    ensures Normalize([Trim(id)]) == Normalize([id])
  {
    TrimCuts(id);
    TrimCuts(Trim(id));
    assert [id][..0] == [] && [Trim(id)][..0] == [];
  }

  /** The four repository fields one after the other come to the last one present. */
  lemma RepositoryPatchIs(c: Channel, patch: Patch)
    requires Good(c)
    ensures ApplyRepositoryPatch(c, patch).repositoryIDs
            == if Given(patch).Some? then Normalize(Given(patch).value) else c.repositoryIDs
  {
    if patch.repositoryID.Some? {
      NormalizeOne(patch.repositoryID.value);
    }
    if patch.resourceID.Some? {
      NormalizeOne(patch.resourceID.value);
    }
  }

  lemma FillIs(c: Channel, parent: Option<Channel>)
    requires Good(c) && (parent.Some? ==> Good(parent.value))
    ensures HasRepositories(FillLists(c, parent), c.repositoryIDs, parent)
  {
    InheritedGood([], parent);
    assert Normalize([]) == [];
  }

  /** A patch leaves exactly what it says, and everything else as it was. */
  lemma PatchIs(c: Channel, parent: Option<Channel>, patch: Patch)
    requires Good(c) && (parent.Some? ==> Good(parent.value))
    ensures var r := ApplyPatch(c, parent, patch);
            && (r.Err? <==> patch.name.Some? && Trim(patch.name.value) == "")
            && (r.Err? ==> r.error == Invalid)
            && (r.Ok? ==> Patches(c, parent, patch, r.value))
  {
    var named := if patch.name.Some? then c.(name := Trim(patch.name.value)) else c;
    RepositoryPatchGood(named, patch);
    RepositoryPatchIs(named, patch);
    FillGood(ApplyRepositoryPatch(named, patch), parent);
    FillIs(ApplyRepositoryPatch(named, patch), parent);
  }

  /** A create makes exactly the channel it is asked for. */
  lemma DraftIs(auth: Auth, ws: string, name: string, parentID: string, parent: Option<Channel>,
                ids: seq<string>, config: Config)
    requires parent.Some? ==> Good(parent.value)
    ensures var d := Draft(auth, ws, name, parentID, parent, ids, config);
            && (d.Ok? <==>
                  && Trim(auth.userID) != "" && Trim(ws) != "" && Trim(name) != "" && ws in auth.writable
                  && (parentID != "" ==> parent.Some? && parent.value.workspaceID == ws))
            && (d.Ok? ==> Creates(d.value, auth.userID, ws, name, parentID, parent, ids, config))
  {
    InheritedGood(ids, parent);
  }

  /**
    A configuration patch keeps the keys it does not mention if and only if the channel
    agreed with its parent on all of them: the patch is laid over the parent's
    configuration, so what the channel itself had set is lost, although the comment on
    `ChannelPatch` says that only supplied keys are replaced.
   */
  lemma ConfigPatchKeepsIff(c: Channel, parent: Option<Channel>, patch: Patch)
    requires patch.config.Some? && ApplyPatch(c, parent, patch).Ok?
    ensures var before := c.config; var after := ApplyPatch(c, parent, patch).value.config;
            var base := if parent.Some? then parent.value.config else map[];
            var given := patch.config.value;
            && (forall k :: k in given ==> k in after && after[k] == given[k])
            && (after == before + given <==>
                  forall k :: k !in given ==>
                    (k in before <==> k in base) && (k in before && k in base ==> before[k] == base[k]))
  {
    var before, base, given := c.config, if parent.Some? then parent.value.config else map[], patch.config.value;
    var after := ApplyPatch(c, parent, patch).value.config;
    assert after == base + given;
    OverlayKeepsIff(before, base, given);
  }

  lemma OverlayKeepsIff(before: Config, base: Config, given: Config)
    ensures base + given == before + given <==>
              forall k :: k !in given ==>
                (k in before <==> k in base) && (k in before && k in base ==> before[k] == base[k])
  {
    if base + given == before + given {
      forall k | k !in given
        ensures (k in before <==> k in base) && (k in before && k in base ==> before[k] == base[k])
      {
        assert k in before + given <==> k in base + given;
        if k in before {
          assert (before + given)[k] == (base + given)[k];
        }
      }
    }
  }

  /** A top-level channel that has set one key loses it when another one is patched. */
  lemma PatchLosesOwn(c: Channel, own: string, given: string, value: string)
    requires own in c.config && own != given
    ensures var r := ApplyPatch(c, None, Patch(None, None, None, None, None, Some(map[given := value])));
            r.Ok? && r.value.config == map[given := value] && own !in r.value.config
  {
  }

  // ---------------------------------------------------- over all interleavings

  /** A request between two critical sections. */
  datatype Pending =
    | Creating(draft: Channel)
    | Editing(snapshot: Channel, patch: Patch)
    | Patched(channel: Channel)

  datatype World = World(store: Store, pending: seq<Pending>)

  datatype Step =
    | BeginCreate(auth: Auth, workspaceID: string, name: string, parentID: string, ids: seq<string>, config: Config)
    | CommitCreate(i: nat, id: string)
    | BeginEdit(auth: Auth, workspaceID: string, channelID: string, patch: Patch)
    | ApplyEdit(i: nat)
    | CommitEdit(i: nat)

  function Done(w: World, i: nat): seq<Pending>
    requires i < |w.pending|
  {
    w.pending[..i] + w.pending[i + 1..]
  }

  function Next(w: World, step: Step): World {
    match step
    case BeginCreate(auth, ws, name, parentID, ids, config) =>
      (match Draft(auth, ws, name, Trim(parentID), Find(w.store.channels, Trim(parentID)), ids, config)
       case Err(_) => w
       case Ok(draft) => w.(pending := w.pending + [Creating(draft)]))
    case CommitCreate(i, id) =>
      if i < |w.pending| && w.pending[i].Creating?
      then World(Insert(w.store, id, w.pending[i].draft), Done(w, i)) else w
    case BeginEdit(auth, ws, channelID, patch) =>
      (match Writable(w.store.channels, auth, ws, channelID)
       case Err(_) => w
       case Ok(c) => w.(pending := w.pending + [Editing(c, patch)]))
    case ApplyEdit(i) =>
      if i < |w.pending| && w.pending[i].Editing? then
        var c := w.pending[i].snapshot;
        match ApplyPatch(c, Find(w.store.channels, c.parentID), w.pending[i].patch)
        case Err(_) => w.(pending := Done(w, i))
        case Ok(updated) => w.(pending := w.pending[i := Patched(updated)])
      else w
    case CommitEdit(i) =>
      if i < |w.pending| && w.pending[i].Patched?
      then World(Replace(w.store, w.pending[i].channel), Done(w, i)) else w
  }

  function Run(w: World, steps: seq<Step>): World
    decreases |steps|
  {
    if steps == [] then w else Run(Next(w, steps[0]), steps[1..])
  }

  /** Every ID generated during the run is new at that moment. */
  ghost predicate FreshIDs(w: World, steps: seq<Step>)
    decreases |steps|
  {
    steps != [] ==>
      && (steps[0].CommitCreate? ==> steps[0].id != "" && steps[0].id !in w.store.channels)
      && FreshIDs(Next(w, steps[0]), steps[1..])
  }

  /** A channel about to be written still has the links of the stored one. */
  ghost predicate Relinks(s: Store, c: Channel) {
    && Good(c) && c.id in s.channels
    && c.parentID == s.channels[c.id].parentID && c.workspaceID == s.channels[c.id].workspaceID
  }

  ghost predicate PendingInv(s: Store, p: Pending) {
    match p
    case Creating(d) =>
      Good(d) && (d.parentID != "" ==>
                    d.parentID in s.channels && s.channels[d.parentID].workspaceID == d.workspaceID)
    case Editing(c, _) => Relinks(s, c)
    case Patched(c) => Relinks(s, c)
  }

  ghost predicate WorldInv(w: World) {
    StoreInv(w.store) && forall i :: 0 <= i < |w.pending| ==> PendingInv(w.store, w.pending[i])
  }

  /** Links are never changed: what a later store knows about an earlier channel. */
  ghost predicate KeepsLinks(s: Store, t: Store) {
    forall id :: id in s.channels ==>
      && id in t.channels && t.channels[id].parentID == s.channels[id].parentID
      && t.channels[id].workspaceID == s.channels[id].workspaceID
  }

  lemma PendingLasts(s: Store, t: Store, p: Pending)
    requires PendingInv(s, p) && KeepsLinks(s, t)
    ensures PendingInv(t, p)
  {
  }

  lemma StoreGood(channels: map<string, Channel>, c: Channel)
    requires AllGood(channels) && c.id != "" && Good(c)
    ensures AllGood(channels[c.id := c])
  {
  }

  lemma InsertForest(s: Store, id: string, draft: Channel)
    requires Forest(s) && id !in s.channels
    requires draft.parentID != "" ==>
               draft.parentID in s.channels && s.channels[draft.parentID].workspaceID == draft.workspaceID
    ensures Forest(Insert(s, id, draft))
  {
    var t := Insert(s, id, draft);
    forall x | x in t.channels && t.channels[x].parentID != ""
      ensures var up := t.channels[x].parentID;
              up in t.channels && t.order[up] < t.order[x] && t.channels[up].workspaceID == t.channels[x].workspaceID
    {
      assert x != id ==> x in s.channels;
    }
  }

  lemma InsertKeeps(s: Store, id: string, draft: Channel)
    requires StoreInv(s) && id != "" && id !in s.channels && PendingInv(s, Creating(draft))
    ensures StoreInv(Insert(s, id, draft)) && KeepsLinks(s, Insert(s, id, draft))
  {
    InsertForest(s, id, draft);
    StoreGood(s.channels, draft.(id := id));
  }

  lemma ReplaceLinks(s: Store, c: Channel)
    requires Relinks(s, c)
    ensures KeepsLinks(s, Replace(s, c)) && Replace(s, c).channels.Keys == s.channels.Keys
  {
  }

  lemma ReplaceKeeps(s: Store, c: Channel)
    requires StoreInv(s) && Relinks(s, c)
    ensures StoreInv(Replace(s, c)) && KeepsLinks(s, Replace(s, c))
  {
    ReplaceLinks(s, c);
    ForestLasts(s, Replace(s, c));
    StoreGood(s.channels, c);
  }

  /** A forest depends only on the links and the creation order. */
  lemma ForestLasts(s: Store, t: Store)
    requires Forest(s) && KeepsLinks(s, t)
    requires t.channels.Keys == s.channels.Keys && t.order == s.order && t.next == s.next
    ensures Forest(t)
  {
  }

  lemma BeginCreateKeeps(w: World, step: Step)
    requires WorldInv(w) && step.BeginCreate?
    ensures WorldInv(Next(w, step)) && Next(w, step).store == w.store
  {
    var parent := Find(w.store.channels, Trim(step.parentID));
    DraftLists(step.auth, step.workspaceID, step.name, Trim(step.parentID), parent, step.ids, step.config);
  }

  lemma ApplyEditKeeps(w: World, i: nat)
    requires WorldInv(w)
    ensures WorldInv(Next(w, ApplyEdit(i))) && Next(w, ApplyEdit(i)).store == w.store
  {
    if i < |w.pending| && w.pending[i].Editing? {
      assert PendingInv(w.store, w.pending[i]);
      var c := w.pending[i].snapshot;
      PatchLists(c, Find(w.store.channels, c.parentID), w.pending[i].patch);
    }
  }

  lemma BeginEditKeeps(w: World, step: Step)
    requires WorldInv(w) && step.BeginEdit?
    ensures WorldInv(Next(w, step)) && Next(w, step).store == w.store
  {
    var found := Writable(w.store.channels, step.auth, step.workspaceID, step.channelID);
    if found.Ok? {
      assert PendingInv(w.store, Editing(found.value, step.patch));
    }
  }

  /** A request that is done, and a store that kept its links. */
  lemma OthersLast(w: World, i: nat, store: Store)
    requires WorldInv(w) && i < |w.pending| && StoreInv(store) && KeepsLinks(w.store, store)
    ensures WorldInv(World(store, Done(w, i)))
  {
    var rest := Done(w, i);
    forall j | 0 <= j < |rest| ensures PendingInv(store, rest[j]) {
      assert rest[j] == w.pending[if j < i then j else j + 1];
      PendingLasts(w.store, store, rest[j]);
    }
  }

  lemma CommitKeeps(w: World, step: Step)
    requires WorldInv(w) && (step.CommitCreate? || step.CommitEdit?)
    requires step.CommitCreate? ==> step.id != "" && step.id !in w.store.channels
    ensures WorldInv(Next(w, step)) && KeepsLinks(w.store, Next(w, step).store)
  {
    var i, store := step.i, Next(w, step).store;
    if i < |w.pending| {
      assert PendingInv(w.store, w.pending[i]);
      if step.CommitCreate? && w.pending[i].Creating? {
        InsertKeeps(w.store, step.id, w.pending[i].draft);
        OthersLast(w, i, store);
      } else if step.CommitEdit? && w.pending[i].Patched? {
        ReplaceKeeps(w.store, w.pending[i].channel);
        OthersLast(w, i, store);
      }
    }
  }

  lemma NextKeeps(w: World, step: Step)
    requires WorldInv(w)
    requires step.CommitCreate? ==> step.id != "" && step.id !in w.store.channels
    ensures WorldInv(Next(w, step)) && KeepsLinks(w.store, Next(w, step).store)
  {
    match step
    case BeginCreate(_, _, _, _, _, _) => BeginCreateKeeps(w, step);
    case BeginEdit(_, _, _, _) => BeginEditKeeps(w, step);
    case ApplyEdit(i) => ApplyEditKeeps(w, i);
    case CommitCreate(_, _) => CommitKeeps(w, step);
    case CommitEdit(_) => CommitKeeps(w, step);
  }

  /**
    In every interleaving of creates and updates with fresh IDs, every list is normal
    with the legacy ID at its head, the parent links form a forest ordered by creation
    inside one workspace, and no channel ever changes its parent or its workspace.
   */
  lemma {:induction false} RunKeeps(w: World, steps: seq<Step>)
    requires WorldInv(w) && FreshIDs(w, steps)
    ensures WorldInv(Run(w, steps)) && KeepsLinks(w.store, Run(w, steps).store)
    decreases |steps|
  {
    if steps != [] {
      NextKeeps(w, steps[0]);
      RunKeeps(Next(w, steps[0]), steps[1..]);
    }
  }

  lemma ReachableInv(steps: seq<Step>)
    requires FreshIDs(World(EMPTY, []), steps)
    ensures StoreInv(Run(World(EMPTY, []), steps).store)
  {
    RunKeeps(World(EMPTY, []), steps);
  }

  // ------------------------------------------------------------ parent chains

  /** The channel and its ancestors, nearest first. */
  function Chain(s: Store, id: string): (chain: seq<string>)
    requires Forest(s) && id in s.channels
    ensures chain != [] && chain[0] == id
    ensures forall c :: c in chain ==> c in s.channels
    decreases s.order[id]
  {
    [id] + if s.channels[id].parentID == "" then [] else Chain(s, s.channels[id].parentID)
  }

  /** A chain never meets a channel twice and stays in one workspace. */
  lemma {:induction false} ChainDescends(s: Store, id: string)
    requires Forest(s) && id in s.channels
    ensures forall i, j :: 0 <= i < j < |Chain(s, id)| ==> s.order[Chain(s, id)[j]] < s.order[Chain(s, id)[i]]
    ensures forall c :: c in Chain(s, id) ==> s.channels[c].workspaceID == s.channels[id].workspaceID
    ensures forall i :: 0 <= i < |Chain(s, id)| ==> s.order[Chain(s, id)[i]] <= s.order[id]
    decreases s.order[id]
  {
    if s.channels[id].parentID != "" {
      ChainDescends(s, s.channels[id].parentID);
    }
  }

  /** Some ranking goes down along every parent link, so every walk to the root ends. */
  ghost predicate Acyclic(channels: map<string, Channel>) {
    exists rank: map<string, nat> :: RanksDown(channels, rank)
  }

  ghost predicate RanksDown(channels: map<string, Channel>, rank: map<string, nat>) {
    && channels.Keys <= rank.Keys
    && forall id :: id in channels && channels[id].parentID != "" ==>
         channels[id].parentID in channels && rank[channels[id].parentID] < rank[id]
  }

  /**
    Parent links stay acyclic after a create if and only if the new channel's ID is not
    on the chain of its parent.
   */
  lemma InsertAcyclicIff(s: Store, id: string, draft: Channel)
    requires Forest(s) && id != "" && (draft.parentID != "" ==> draft.parentID in s.channels)
    ensures Acyclic(Insert(s, id, draft).channels)
            <==> draft.parentID == "" || id !in Chain(s, draft.parentID)
  {
    var channels := Insert(s, id, draft).channels;
    if draft.parentID == "" || id !in Chain(s, draft.parentID) {
      OffChainAcyclic(s, id, draft);
    } else if Acyclic(channels) {
      var rank: map<string, nat> :| RanksDown(channels, rank);
      ChainRanksDown(s, id, draft, rank, draft.parentID);
    }
  }

  /** Ranks every channel under `id` above all others. */
  function Lifted(s: Store, id: string, x: string): nat
    requires Forest(s) && x in s.channels
  {
    if id in Chain(s, x) then s.next + s.order[x] + 1 else s.order[x]
  }

  lemma OffChainAcyclic(s: Store, id: string, draft: Channel)
    requires Forest(s) && id != ""
    requires draft.parentID == "" || (draft.parentID in s.channels && id !in Chain(s, draft.parentID))
    ensures Acyclic(Insert(s, id, draft).channels)
  {
    var channels := Insert(s, id, draft).channels;
    var rank: map<string, nat> :=
      map x | x in channels.Keys :: if x == id then s.next else Lifted(s, id, x);
    forall x | x in channels && channels[x].parentID != ""
      ensures channels[x].parentID in channels && rank[channels[x].parentID] < rank[x]
    {
      if x != id {
        var up := s.channels[x].parentID;
        assert Chain(s, x) == [x] + Chain(s, up);
        assert up == id ==> id in Chain(s, x);
      }
    }
    assert RanksDown(channels, rank);
  }

  /** Walking up the old chain to `id` follows links the insertion did not touch. */
  lemma {:induction false} ChainRanksDown(s: Store, id: string, draft: Channel, rank: map<string, nat>, x: string)
    requires Forest(s) && x in s.channels && id in Chain(s, x)
    requires RanksDown(Insert(s, id, draft).channels, rank)
    ensures rank[id] <= rank[x]
    decreases s.order[x]
  {
    if x != id {
      ChainRanksDown(s, id, draft, rank, s.channels[x].parentID);
    }
  }

  // ------------------------------------------------------------ generated IDs

  /** Two generated IDs are the same if and only if their seconds are and their numbers agree modulo 26. */
  lemma IDsRepeatIff(prefix: string, s1: string, n1: nat, s2: string, n2: nat)
    ensures GeneratedID(prefix, s1, n1) == GeneratedID(prefix, s2, n2) <==> s1 == s2 && n1 % 26 == n2 % 26
  {
    var a, b := GeneratedID(prefix, s1, n1), GeneratedID(prefix, s2, n2);
    var head := prefix + "_";
    if a == b {
      assert a[|a| - 1] == Letter(n1) && b[|b| - 1] == Letter(n2);
      assert a[|head|..|a| - 2] == s1 && b[|head|..|b| - 2] == s2;
    }
  }

  lemma GeneratedTrimmed(second: string, n: nat)
    ensures var id := GeneratedID("channel", second, n); id != "" && Trim(id) == id
  {
    var id := GeneratedID("channel", second, n);
    assert id[0] == 'c' && id[|id| - 1] == Letter(n);
    TrimCuts(id);
  }

  /** The steps of one create that nothing interrupts. */
  function CreateSteps(auth: Auth, ws: string, name: string, parentID: string, id: string): seq<Step> {
    [BeginCreate(auth, ws, name, parentID, [], map[]), CommitCreate(0, id)]
  }

  lemma CreateRuns(w: World, auth: Auth, ws: string, name: string, parentID: string, id: string)
    requires w.pending == []
    requires Trim(auth.userID) != "" && Trim(ws) != "" && Trim(name) != "" && ws in auth.writable
    requires Trim(parentID) == "" ||
               (Trim(parentID) in w.store.channels && w.store.channels[Trim(parentID)].workspaceID == ws)
    ensures var r := Run(w, CreateSteps(auth, ws, name, parentID, id));
            && r.pending == [] && id in r.store.channels
            && r.store.channels[id].parentID == Trim(parentID) && r.store.channels[id].workspaceID == ws
  {
    var steps := CreateSteps(auth, ws, name, parentID, id);
    var middle := Next(w, steps[0]);
    assert steps[1..] == [steps[1]] && steps[1..][1..] == [];
    assert middle.store == w.store && |middle.pending| == 1 && middle.pending[0].Creating?;
    assert Done(middle, 0) == [];
    assert Run(middle, steps[1..]) == Next(middle, steps[1]);
  }

  lemma {:induction false} RunJoin(w: World, xs: seq<Step>, ys: seq<Step>)
    ensures Run(w, xs + ys) == Run(Run(w, xs), ys)
    decreases |xs|
  {
    if xs == [] {
      assert xs + ys == ys;
    } else {
      assert (xs + ys)[1..] == xs[1..] + ys;
      RunJoin(Next(w, xs[0]), xs[1..], ys);
    }
  }

  /**
    Why fresh IDs are a premise: after 26 more IDs in the same second the generator repeats
    itself, and a child created with its parent's ID takes the parent's place with a link
    to itself.
   */
  lemma SelfLinkReachable(auth: Auth, ws: string, name: string, second: string, n: nat)
    requires Trim(auth.userID) != "" && Trim(ws) != "" && Trim(name) != "" && ws in auth.writable
    ensures var id, again := GeneratedID("channel", second, n), GeneratedID("channel", second, n + 26);
            var steps := CreateSteps(auth, ws, name, "", id) + CreateSteps(auth, ws, name, id, again);
            var r := Run(World(EMPTY, []), steps);
            again == id && id in r.store.channels && r.store.channels[id].parentID == id
  {
    var start, id := World(EMPTY, []), GeneratedID("channel", second, n);
    IDsRepeatIff("channel", second, n, second, n + 26);
    GeneratedTrimmed(second, n);
    RunJoin(start, CreateSteps(auth, ws, name, "", id), CreateSteps(auth, ws, name, id, id));
    CreateRuns(start, auth, ws, name, "", id);
    CreateRuns(Run(start, CreateSteps(auth, ws, name, "", id)), auth, ws, name, id, id);
  }

  // ---------------------------------------------------------- edits in sections

  lemma RunStep(w: World, step: Step, rest: seq<Step>)
    ensures Run(w, [step] + rest) == Run(Next(w, step), rest)
  {
    assert ([step] + rest)[1..] == rest;
  }

  /** The last two sections of the edit at position `i`, with nothing in between. */
  lemma EditFinishes(w: World, i: nat)
    requires i < |w.pending| && w.pending[i].Editing?
    ensures var c := w.pending[i].snapshot;
            Run(w, [ApplyEdit(i)] + [CommitEdit(i)]) ==
            match ApplyPatch(c, Find(w.store.channels, c.parentID), w.pending[i].patch)
            case Err(_) => Next(World(w.store, Done(w, i)), CommitEdit(i))
            case Ok(r) => World(Replace(w.store, r), Done(w, i))
  {
    RunStep(w, ApplyEdit(i), [CommitEdit(i)]);
    var middle := Next(w, ApplyEdit(i));
    RunStep(middle, CommitEdit(i), []);
    assert [CommitEdit(i)] + [] == [CommitEdit(i)];
    assert middle.pending != Done(w, i) ==> Done(middle, i) == Done(w, i);
  }

  /** An update whose sections nothing interrupts does exactly what the whole call does. */
  lemma EditRuns(w: World, auth: Auth, ws: string, id: string, patch: Patch)
    ensures var i := |w.pending|;
            Run(w, [BeginEdit(auth, ws, id, patch)] + ([ApplyEdit(i)] + [CommitEdit(i)])) ==
            match Updated(w.store.channels, auth, ws, id, patch)
            case Err(_) => w
            case Ok(c) => World(Replace(w.store, c), w.pending)
  {
    var i, begun := |w.pending|, Next(w, BeginEdit(auth, ws, id, patch));
    RunStep(w, BeginEdit(auth, ws, id, patch), [ApplyEdit(i)] + [CommitEdit(i)]);
    if begun == w {
      RunStep(w, ApplyEdit(i), [CommitEdit(i)]);
      RunStep(w, CommitEdit(i), []);
      assert [CommitEdit(i)] + [] == [CommitEdit(i)];
    } else {
      assert begun.pending[i].Editing? && Done(begun, i) == w.pending;
      EditFinishes(begun, i);
    }
  }

  /**
    Of two updates that read the same channel before either writes it, the one that writes
    first is lost: the store ends as if only the other had been made.
   */
  lemma EarlierEditLost(w: World, a1: Auth, p1: Patch, a2: Auth, p2: Patch, ws: string, id: string)
    requires StoreInv(w.store)
    requires Updated(w.store.channels, a1, ws, id, p1).Ok? && Updated(w.store.channels, a2, ws, id, p2).Ok?
    ensures var n := |w.pending|;
            Run(w, [BeginEdit(a1, ws, id, p1)] + ([BeginEdit(a2, ws, id, p2)]
                   + ([ApplyEdit(n)] + [CommitEdit(n)] + ([ApplyEdit(n)] + [CommitEdit(n)])))) ==
            World(Replace(w.store, Updated(w.store.channels, a2, ws, id, p2).value), w.pending)
  {
    var n, c := |w.pending|, w.store.channels[id];
    var finish := [ApplyEdit(n)] + [CommitEdit(n)];
    var one := World(w.store, w.pending + [Editing(c, p1)]);
    RunStep(w, BeginEdit(a1, ws, id, p1), [BeginEdit(a2, ws, id, p2)] + (finish + finish));
    RunStep(one, BeginEdit(a2, ws, id, p2), finish + finish);
    BothFinish(w, id, p1, p2);
  }

  lemma BothFinish(w: World, id: string, p1: Patch, p2: Patch)
    requires StoreInv(w.store) && id in w.store.channels
    requires var c := w.store.channels[id]; var parent := Find(w.store.channels, c.parentID);
             ApplyPatch(c, parent, p1).Ok? && ApplyPatch(c, parent, p2).Ok?
    ensures var n, c := |w.pending|, w.store.channels[id];
            var both := World(w.store, w.pending + [Editing(c, p1)] + [Editing(c, p2)]);
            var finish := [ApplyEdit(n)] + [CommitEdit(n)];
            var second := ApplyPatch(c, Find(w.store.channels, c.parentID), p2).value;
            Run(both, finish + finish) == World(Replace(w.store, second), w.pending)
  {
    var n, c := |w.pending|, w.store.channels[id];
    var both := World(w.store, w.pending + [Editing(c, p1)] + [Editing(c, p2)]);
    var finish := [ApplyEdit(n)] + [CommitEdit(n)];
    var first := ApplyPatch(c, Find(w.store.channels, c.parentID), p1).value;
    var late := World(Replace(w.store, first), w.pending + [Editing(c, p2)]);
    RunJoin(both, finish, finish);
    assert Done(both, n) == w.pending + [Editing(c, p2)];
    EditFinishes(both, n);
    assert Done(late, n) == w.pending;
    EditFinishes(late, n);
    PatchKeepsID(c, Find(w.store.channels, c.parentID), p1);
    PatchKeepsID(c, Find(w.store.channels, c.parentID), p2);
    OverwriteSame(w.store, c, first, ApplyPatch(c, Find(w.store.channels, c.parentID), p2).value);
  }

  lemma PatchKeepsID(c: Channel, parent: Option<Channel>, patch: Patch)
    ensures ApplyPatch(c, parent, patch).Ok? ==> ApplyPatch(c, parent, patch).value.id == c.id
  {
  }

  /** Of two writes to a channel the second is left, and neither touches its parent. */
  lemma OverwriteSame(s: Store, c: Channel, first: Channel, second: Channel)
    requires Forest(s) && c.id in s.channels && s.channels[c.id] == c && first.id == c.id && second.id == c.id
    ensures Find(Replace(s, first).channels, c.parentID) == Find(s.channels, c.parentID) || c.parentID == ""
    ensures Replace(Replace(s, first), second) == Replace(s, second)
  {
  }

  // ------------------------------------------------------------ walks to the root

  /** Where a walk up the parent links is after `n` links; `None` once it has ended. */
  function UpFrom(channels: map<string, Channel>, id: string, n: nat): Option<string>
    decreases n
  {
    if id !in channels then None
    else if n == 0 then Some(id)
    else if channels[id].parentID == "" then None
    else UpFrom(channels, channels[id].parentID, n - 1)
  }

  ghost predicate WalkEnds(channels: map<string, Channel>, id: string) {
    exists n: nat :: UpFrom(channels, id, n).None?
  }

  lemma {:induction false} RankedWalkEnds(channels: map<string, Channel>, rank: map<string, nat>, id: string)
    requires RanksDown(channels, rank) && id in channels
    ensures UpFrom(channels, id, rank[id] + 1) == None
    decreases rank[id]
  {
    if channels[id].parentID != "" {
      var up := channels[id].parentID;
      RankedWalkEnds(channels, rank, up);
      EndsLater(channels, up, rank[up] + 1, rank[id]);
    }
  }

  lemma {:induction false} EndsLater(channels: map<string, Channel>, id: string, n: nat, m: nat)
    requires UpFrom(channels, id, n) == None && n <= m
    ensures UpFrom(channels, id, m) == None
    decreases n
  {
    if id in channels && channels[id].parentID != "" {
      EndsLater(channels, channels[id].parentID, n - 1, m - 1);
    }
  }

  /** A channel on the way from the new channel's parent up to the ID that is taken again. */
  ghost predicate OnLoop(s: Store, id: string, x: string)
    requires Forest(s)
  {
    x in s.channels && id in Chain(s, x)
  }

  /** A walk that is on the loop stays on it. */
  lemma {:induction false} LoopWalk(s: Store, id: string, draft: Channel, x: string, n: nat)
    requires Forest(s) && draft.parentID != "" && OnLoop(s, id, draft.parentID) && OnLoop(s, id, x)
    ensures UpFrom(Insert(s, id, draft).channels, x, n).Some?
    ensures OnLoop(s, id, UpFrom(Insert(s, id, draft).channels, x, n).value)
    decreases n
  {
    if n > 0 {
      LoopWalk(s, id, draft, if x == id then draft.parentID else s.channels[x].parentID, n - 1);
    }
  }

  /**
    When a create leaves every walk to the root finite: if and only if its ID is not on the
    chain of its parent. Otherwise no number of links ends the walk from that ID.
   */
  lemma WalksEndIff(s: Store, id: string, draft: Channel)
    requires Forest(s) && id != "" && (draft.parentID != "" ==> draft.parentID in s.channels)
    ensures (forall x :: x in Insert(s, id, draft).channels ==> WalkEnds(Insert(s, id, draft).channels, x))
            <==> draft.parentID == "" || id !in Chain(s, draft.parentID)
    ensures draft.parentID != "" && id in Chain(s, draft.parentID) ==>
              forall n: nat :: UpFrom(Insert(s, id, draft).channels, id, n).Some?
  {
    var channels := Insert(s, id, draft).channels;
    if draft.parentID == "" || id !in Chain(s, draft.parentID) {
      InsertAcyclicIff(s, id, draft);
      var rank: map<string, nat> :| RanksDown(channels, rank);
      forall x | x in channels ensures WalkEnds(channels, x) {
        RankedWalkEnds(channels, rank, x);
      }
    } else {
      forall n: nat ensures UpFrom(channels, id, n).Some? {
        LoopWalk(s, id, draft, id, n);
      }
      assert !WalkEnds(channels, id);
    }
  }
}

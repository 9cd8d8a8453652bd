/**
  Channel secrets: an in-memory cache over a durable table, looked up along the parent
  chain so that a channel's value shadows its ancestors'. Sealing is an opaque pair of
  inverses, so a sealed value is written `Sealed(plain)` and opened by reading it.
 */
module Secrets {
  import opened Wrappers
  import opened Strings
  import opened Channels

  datatype Sealed = Sealed(plain: string)

  datatype Entry = Entry(sealed: Sealed, updated: int)

  datatype Metadata = Metadata(name: string, updated: int, source: string, inherited: bool)

  datatype SecretError = Denied(error: Error) | InvalidSecret | SecretNotFound | StoreFailed

  type Memory = map<string, map<string, Entry>>

  type Table = map<(string, string), Entry>

  /** The service's state: `durable` is `None` when no store is attached. */
  datatype Vault = Vault(memory: Memory, durable: Option<Table>)

  function Cached(m: Memory, channel: string, name: string): Option<Entry> {
    if channel in m && name in m[channel] then Some(m[channel][name]) else None
  }

  function Stored(v: Vault, channel: string, name: string): Option<Entry> {
    if v.durable.Some? && (channel, name) in v.durable.value then Some(v.durable.value[(channel, name)]) else None
  }

  /** The vault as reads see it when they fail for the channels in `failing`: those seem to have no rows. */
  function Through(v: Vault, failing: set<string>): Vault {
    if v.durable.None? then v
    else v.(durable := Some(map k | k in v.durable.value && k.0 !in failing :: v.durable.value[k]))
  }

  /** What one channel itself defines: the cache first, then the table. */
  function Lookup(v: Vault, channel: string, name: string): Option<Entry> {
    var cached := Cached(v.memory, channel, name);
    if cached.Some? then cached else Stored(v, channel, name)
  }

  function Remember(m: Memory, channel: string, name: string, e: Entry): Memory {
    m[channel := (if channel in m then m[channel] else map[])[name := e]]
  }

  function Forget(m: Memory, channel: string, name: string): Memory {
    if channel in m then m[channel := m[channel] - {name}] else m
  }

  /** A request's context: it may be done by the time of the call's `calls`-th reading of a channel, from 0. */
  datatype Context = Alive | DoneAfter(calls: nat)

  predicate Expired(ctx: Context) {
    ctx == DoneAfter(0)
  }

  /** The context once a channel has been read. */
  function Spend(ctx: Context): Context
    requires !Expired(ctx)
  {
    match ctx
    case Alive => Alive
    case DoneAfter(calls) => DoneAfter(calls - 1)
  }

  /** As much of a walk as the context lasts for. */
  function Within(chain: seq<string>, ctx: Context): seq<string> {
    if ctx.DoneAfter? && ctx.calls < |chain| then chain[..ctx.calls] else chain
  }

  function Authorize(s: Store, auth: Auth, id: string, write: bool, ctx: Context): Option<SecretError> {
    if Expired(ctx) then Some(Denied(Cancelled))
    else
    match GetChannel(s.channels, auth, id)
    case Err(e) => Some(Denied(e))
    case Ok(c) => if write && c.workspaceID !in auth.writable then Some(Denied(Unauthorized)) else None
  }

  /** The first entry for a name along some channels. */
  function ResolveAlong(v: Vault, chain: seq<string>, name: string): Option<Entry>
    decreases |chain|
  {
    if chain == [] then None
    else if Lookup(v, chain[0], name).Some? then Lookup(v, chain[0], name)
    else ResolveAlong(v, chain[1..], name)
  }

  /** The first channel that defines a name. */
  function Nearest(v: Vault, chain: seq<string>, name: string): Option<string>
    decreases |chain|
  {
    if chain == [] then None
    else if Lookup(v, chain[0], name).Some? then Some(chain[0])
    else Nearest(v, chain[1..], name)
  }

  /** The channels a lookup visits: up the parent links until one cannot be read. */
  function Walk(s: Store, auth: Auth, id: string): seq<string>
    requires Forest(s) && id in s.channels
    decreases s.order[id]
  {
    var parent := s.channels[id].parentID;
    [id] + if parent == "" || GetChannel(s.channels, auth, parent).Err? then [] else Walk(s, auth, parent)
  }

  /** Names a channel adds to a listing, skipping those already listed. */
  function AddEntries(listed: map<string, Metadata>, entries: map<string, Entry>, channel: string, inherited: bool)
    : map<string, Metadata>
  {
    listed + map n | n in entries && n !in listed :: Metadata(n, entries[n].updated, channel, inherited)
  }

  function StoredEntries(v: Vault, channel: string): map<string, Entry> {
    if v.durable.None? then map[]
    else map k | k in v.durable.value && k.0 == channel :: k.1 := v.durable.value[k]
  }

  function CachedEntries(m: Memory, channel: string): map<string, Entry> {
    if channel in m then m[channel] else map[]
  }

  function AddChannel(v: Vault, listed: map<string, Metadata>, channel: string, inherited: bool)
    : map<string, Metadata>
  {
    AddEntries(AddEntries(listed, StoredEntries(v, channel), channel, inherited),
               CachedEntries(v.memory, channel), channel, inherited)
  }

  /** The listing for `top`, visiting `chain` after what is already listed. */
  function ListAlong(v: Vault, top: string, chain: seq<string>, listed: map<string, Metadata>): map<string, Metadata>
    decreases |chain|
  {
    if chain == [] then listed
    else ListAlong(v, top, chain[1..], AddChannel(v, listed, chain[0], chain[0] != top))
  }

  /** Writing to the cache, and to the table if it is attached and the call succeeds. */
  function SetEntry(v: Vault, channel: string, name: string, e: Entry, storeOk: bool): Vault {
    Vault(Remember(v.memory, channel, name, e),
          if v.durable.Some? && storeOk then Some(v.durable.value[(channel, name) := e]) else v.durable)
  }

  function DeleteEntry(v: Vault, channel: string, name: string, storeOk: bool): Vault {
    Vault(Forget(v.memory, channel, name),
          if v.durable.Some? && storeOk then Some(v.durable.value - {(channel, name)}) else v.durable)
  }

  /** The table's delete fails when there is no such row, and the service then trusts the cache. */
  predicate DeleteFound(v: Vault, channel: string, name: string, storeOk: bool) {
    || Cached(v.memory, channel, name).Some?
    || (storeOk && Stored(v, channel, name).Some?)
  }

  class SecretService {
    var forest: Store
    var memory: Memory
    var durable: Option<Table>

    ghost function State(): Vault
      reads this
    {
      Vault(memory, durable)
    }

    constructor (forest: Store, durable: Option<Table>)
      ensures this.forest == forest && State() == Vault(map[], durable)
    {
      this.forest, memory, this.durable := forest, map[], durable;
    }

    /** `storeOk` is whether the call to the durable store succeeds. */
    method Set(ctx: Context, auth: Auth, channelID: string, name: string, value: string, now: int, storeOk: bool)
      returns (error: Option<SecretError>)
      modifies this`memory, this`durable
      ensures var denied := Authorize(forest, auth, channelID, true, ctx);
              if denied.Some? then error == denied && State() == old(State())
              else if Trim(name) == "" || value == "" then error == Some(InvalidSecret) && State() == old(State())
              else && State() == SetEntry(old(State()), channelID, Trim(name), Entry(Sealed(value), now), storeOk)
                   && error == if durable.Some? && !storeOk then Some(StoreFailed) else None
      ensures error.Some? && error.value.Denied? <==>
                || ctx == DoneAfter(0) || channelID !in forest.channels
                || forest.channels[channelID].workspaceID !in auth.readable
                || forest.channels[channelID].workspaceID !in auth.writable
      ensures error.Some? && error.value.Denied? ==>
                && State() == old(State())
                && error.value.error == if ctx == DoneAfter(0) then Cancelled
                                        else if channelID !in forest.channels then NotFound else Unauthorized
    {
      var denied := Authorize(forest, auth, channelID, true, ctx);
      if denied.Some? {
        return denied;
      }
      var key := Trim(name);
      if key == "" || value == "" {
        return Some(InvalidSecret);
      }
      var e := Entry(Sealed(value), now);
      if channelID !in memory {
        memory := memory[channelID := map[]];
      }
      memory := memory[channelID := memory[channelID][key := e]];
      if durable.Some? {
        if !storeOk {
          return Some(StoreFailed);
        }
        durable := Some(durable.value[(channelID, key) := e]);
      }
      return None;
    }

    /** A failing durable read is passed over; a context that is done ends the walk. */
    method Resolve(ctx: Context, auth: Auth, channelID: string, name: string, failing: set<string>)
      returns (r: Result<string, SecretError>)
      requires Forest(forest)
      ensures var denied := Authorize(forest, auth, channelID, false, ctx);
              if denied.Some? then r == Err(denied.value)
              else if Trim(name) == "" then r == Err(InvalidSecret)
              else match ResolveAlong(Through(State(), failing), Within(Walk(forest, auth, channelID), ctx), Trim(name))
                   case None => r == Err(SecretNotFound)
                   case Some(e) => r == Ok(e.sealed.plain)
      ensures r.Err? && r.error.Denied? <==>
                || ctx == DoneAfter(0) || channelID !in forest.channels
                || forest.channels[channelID].workspaceID !in auth.readable
      ensures r.Err? && r.error.Denied? ==>
                r.error.error == if ctx == DoneAfter(0) then Cancelled
                                 else if channelID !in forest.channels then NotFound else Unauthorized
    {
      var denied := Authorize(forest, auth, channelID, false, ctx);
      if denied.Some? {
        return Err(denied.value);
      }
      var key := Trim(name);
      if key == "" {
        return Err(InvalidSecret);
      }
      var current := Some(channelID);
      ghost var seen := Through(State(), failing);
      ghost var all := Within(Walk(forest, auth, channelID), ctx);
      ghost var rest := all;
      var lasts := ctx;
      while current.Some?
        invariant current.Some? ==> current.value in forest.channels && !Expired(lasts)
        invariant rest == if current.None? then [] else Within(Walk(forest, auth, current.value), lasts)
        invariant ResolveAlong(seen, all, key) == ResolveAlong(seen, rest, key)
        decreases |rest|
      {
        var id := current.value;
        var own := LookUp(id, key, failing);
        if own.Some? {
          return Ok(own.value.sealed.plain);
        }
        WithinNext(forest, auth, id, lasts);
        lasts := Spend(lasts);
        current := Parent(forest, auth, id, lasts);
        rest := rest[1..];
      }
      return Err(SecretNotFound);
    }

    /** One channel's part of a lookup. */
    method LookUp(id: string, key: string, failing: set<string>) returns (entry: Option<Entry>)
      ensures entry == Lookup(Through(State(), failing), id, key)
    {
      ThroughStored(State(), failing, id, key);
      if id in memory && key in memory[id] {
        return Some(memory[id][key]);
      }
      if durable.Some? && id !in failing && (id, key) in durable.value {
        return Some(durable.value[(id, key)]);
      }
      return None;
    }

    /** A failing durable listing leaves out that channel's stored names. */
    method List(ctx: Context, auth: Auth, channelID: string, failing: set<string>)
      returns (r: Result<map<string, Metadata>, SecretError>)
      requires Forest(forest)
      ensures var denied := Authorize(forest, auth, channelID, false, ctx);
              if denied.Some? then r == Err(denied.value)
              else r == Ok(ListAlong(Through(State(), failing), channelID,
                                     Within(Walk(forest, auth, channelID), ctx), map[]))
      ensures r.Err? && r.error.Denied? <==>
                || ctx == DoneAfter(0) || channelID !in forest.channels
                || forest.channels[channelID].workspaceID !in auth.readable
      ensures r.Err? && r.error.Denied? ==>
                r.error.error == if ctx == DoneAfter(0) then Cancelled
                                 else if channelID !in forest.channels then NotFound else Unauthorized
    {
      var denied := Authorize(forest, auth, channelID, false, ctx);
      if denied.Some? {
        return Err(denied.value);
      }
      var result: map<string, Metadata> := map[];
      var current := Some(channelID);
      ghost var rest := Within(Walk(forest, auth, channelID), ctx);
      ghost var seen := Through(State(), failing);
      ghost var all := ListAlong(seen, channelID, rest, map[]);
      var lasts := ctx;
      while current.Some?
        invariant current.Some? ==> current.value in forest.channels && !Expired(lasts)
        invariant rest == if current.None? then [] else Within(Walk(forest, auth, current.value), lasts)
        invariant ListAlong(seen, channelID, rest, result) == all
        decreases |rest|
      {
        var id := current.value;
        result := ListChannel(result, id, id != channelID, failing);
        WithinNext(forest, auth, id, lasts);
        lasts := Spend(lasts);
        current := Parent(forest, auth, id, lasts);
        rest := rest[1..];
      }
      return Ok(result);
    }

    /** Adds one channel's names to a listing: the table's first, then those only cached. */
    method ListChannel(listed: map<string, Metadata>, id: string, inherited: bool, failing: set<string>)
      returns (result: map<string, Metadata>)
      ensures result == AddChannel(Through(State(), failing), listed, id, inherited)
    {
      ThroughEntries(State(), failing, id);
      result := listed;
      if durable.Some? && id !in failing {
        result := AddNames(result, StoredEntries(Vault(memory, durable), id), id, inherited);
      } else {
        AddNothing(listed, id, inherited);
      }
      if id in memory {
        result := AddNames(result, memory[id], id, inherited);
      } else {
        AddNothing(result, id, inherited);
      }
    }

    method Delete(ctx: Context, auth: Auth, channelID: string, name: string, storeOk: bool)
      returns (error: Option<SecretError>)
      modifies this`memory, this`durable
      ensures var denied := Authorize(forest, auth, channelID, true, ctx); var key := Trim(name);
              if denied.Some? then error == denied && State() == old(State())
              else && State() == DeleteEntry(old(State()), channelID, key, storeOk)
                   && error == if DeleteFound(old(State()), channelID, key, storeOk) then None else Some(SecretNotFound)
      ensures error.Some? && error.value.Denied? <==>
                || ctx == DoneAfter(0) || channelID !in forest.channels
                || forest.channels[channelID].workspaceID !in auth.readable
                || forest.channels[channelID].workspaceID !in auth.writable
      ensures error.Some? && error.value.Denied? ==>
                && State() == old(State())
                && error.value.error == if ctx == DoneAfter(0) then Cancelled
                                        else if channelID !in forest.channels then NotFound else Unauthorized
      ensures error.None? && storeOk ==> Lookup(old(State()), channelID, Trim(name)).Some?
      ensures error == Some(SecretNotFound) && storeOk ==> Lookup(old(State()), channelID, Trim(name)).None?
      ensures error.None? && !storeOk ==> Cached(old(memory), channelID, Trim(name)).Some?
      ensures error == Some(SecretNotFound) && !storeOk ==> Cached(old(memory), channelID, Trim(name)).None?
    {
      var denied := Authorize(forest, auth, channelID, true, ctx);
      if denied.Some? {
        return denied;
      }
      var key := Trim(name);
      var found := channelID in memory && key in memory[channelID];
      if channelID in memory {
        memory := memory[channelID := memory[channelID] - {key}];
      }
      if durable.Some? {
        var failed := !storeOk || (channelID, key) !in durable.value;
        if storeOk {
          durable := Some(durable.value - {(channelID, key)});
        }
        if failed && !found {
          return Some(SecretNotFound);
        }
      } else if !found {
        return Some(SecretNotFound);
      }
      return None;
    }

    /** A restart loses the cache and keeps the table. */
    method Restart()
      modifies this`memory
      ensures State() == Vault(map[], old(durable))
    {
      memory := map[];
    }
  }

  /** The parent to visit next, if there is one and it can be read. */
  function Parent(s: Store, auth: Auth, id: string, ctx: Context): Option<string> {
    if Expired(ctx) || id !in s.channels || s.channels[id].parentID == "" then None
    else if GetChannel(s.channels, auth, s.channels[id].parentID).Err? then None
    else Some(s.channels[id].parentID)
  }

  /** One channel of a walk, and the rest of it. */
  lemma WithinNext(s: Store, auth: Auth, id: string, ctx: Context)
    requires Forest(s) && id in s.channels && !Expired(ctx)
    ensures var up := Parent(s, auth, id, Spend(ctx)); var walk := Within(Walk(s, auth, id), ctx);
            && walk != [] && walk[0] == id
            && walk[1..] == if up.None? then [] else Within(Walk(s, auth, up.value), Spend(ctx))
  {
    var whole, parent := Walk(s, auth, id), s.channels[id].parentID;
    if parent != "" && GetChannel(s.channels, auth, parent).Ok? {
      assert whole[1..] == Walk(s, auth, parent);
    }
  }

  method AddNames(listed: map<string, Metadata>, entries: map<string, Entry>, channel: string, inherited: bool)
    returns (result: map<string, Metadata>)
    ensures result == AddEntries(listed, entries, channel, inherited)
  {
    result := listed;
    var names := entries.Keys;
    while names != {}
      invariant names <= entries.Keys
      invariant result.Keys == listed.Keys + (entries.Keys - names)
      invariant forall n :: n in listed ==> result[n] == listed[n]
      invariant forall n :: n in result && n !in listed ==>
                  result[n] == Metadata(n, entries[n].updated, channel, inherited)
      decreases names
    {
      var n :| n in names;
      var e := entries[n];
      if n !in result {
        result := result[n := Metadata(n, e.updated, channel, inherited)];
      }
      names := names - {n};
    }
    AddedAll(result, listed, entries, channel, inherited);
  }

  lemma AddedAll(result: map<string, Metadata>, listed: map<string, Metadata>, entries: map<string, Entry>,
                 channel: string, inherited: bool)
    requires result.Keys == listed.Keys + entries.Keys
    requires forall n :: n in listed ==> result[n] == listed[n]
    requires forall n :: n in result && n !in listed ==>
               result[n] == Metadata(n, entries[n].updated, channel, inherited)
    ensures result == AddEntries(listed, entries, channel, inherited)
  {
  }

  lemma AddNothing(listed: map<string, Metadata>, channel: string, inherited: bool)
    ensures AddEntries(listed, map[], channel, inherited) == listed
  {
  }

  lemma ThroughStored(v: Vault, failing: set<string>, channel: string, name: string)
    ensures Stored(Through(v, failing), channel, name) == if channel in failing then None else Stored(v, channel, name)
  {
  }

  lemma ThroughEntries(v: Vault, failing: set<string>, channel: string)
    ensures StoredEntries(Through(v, failing), channel) ==
            if channel in failing then map[] else StoredEntries(v, channel)
  {
    var w := Through(v, failing);
    if v.durable.Some? && channel !in failing {
      assert forall k :: k in w.durable.value && k.0 == channel <==> k in v.durable.value && k.0 == channel;
    }
  }

  // ------------------------------------------------------ the walk is a chain

  /** A user who may read a channel may read all its ancestors, so the walk is the whole chain. */
  lemma {:induction false} WalkIsChain(s: Store, auth: Auth, id: string)
    requires Forest(s) && id in s.channels && s.channels[id].workspaceID in auth.readable
    ensures Walk(s, auth, id) == Chain(s, id)
    decreases s.order[id]
  {
    if s.channels[id].parentID != "" {
      WalkIsChain(s, auth, s.channels[id].parentID);
    }
  }

  // ------------------------------------------------- resolving against listing

  /** Resolving takes the nearest definition. */
  lemma {:induction false} ResolvesNearest(v: Vault, chain: seq<string>, name: string)
    ensures match Nearest(v, chain, name)
            case None => ResolveAlong(v, chain, name) == None && forall c :: c in chain ==> Lookup(v, c, name).None?
            case Some(c) => ResolveAlong(v, chain, name) == Lookup(v, c, name) && Lookup(v, c, name).Some?
                            && exists i :: 0 <= i < |chain| && chain[i] == c
                                 && forall j :: 0 <= j < i ==> Lookup(v, chain[j], name).None?
    decreases |chain|
  {
    if chain != [] {
      ResolvesNearest(v, chain[1..], name);
      assert chain == [chain[0]] + chain[1..];
      if Lookup(v, chain[0], name).None? {
        match Nearest(v, chain[1..], name)
        case None =>
        case Some(c) =>
          var i :| 0 <= i < |chain[1..]| && chain[1..][i] == c
                     && forall j :: 0 <= j < i ==> Lookup(v, chain[1..][j], name).None?;
          forall j | 0 <= j < i + 1 ensures Lookup(v, chain[j], name).None? {
            assert j > 0 ==> chain[1..][j - 1] == chain[j];
          }
      }
    }
  }

  /** The entry whose time a listing shows: the table's if it has one. */
  function Seen(v: Vault, channel: string, name: string): Entry
    requires Lookup(v, channel, name).Some?
  {
    if Stored(v, channel, name).Some? then Stored(v, channel, name).value else Cached(v.memory, channel, name).value
  }

  lemma AddChannelNames(v: Vault, listed: map<string, Metadata>, channel: string, inherited: bool, name: string)
    ensures var r := AddChannel(v, listed, channel, inherited);
            && (name in r <==> name in listed || Lookup(v, channel, name).Some?)
            && (name in listed ==> r[name] == listed[name])
            && (name !in listed && name in r ==>
                  && r[name].name == name && r[name].source == channel && r[name].inherited == inherited
                  && r[name].updated == Seen(v, channel, name).updated)
  {
    var stored := StoredEntries(v, channel);
    if v.durable.Some? {
      if name in stored {
        var k :| k in v.durable.value && k.0 == channel && k.1 == name;
        assert k == (channel, name);
      }
      if (channel, name) in v.durable.value {
        assert (channel, name).1 in stored;
      }
    }
  }

  lemma {:induction false} ListAlongNames(
      v: Vault, top: string, chain: seq<string>, listed: map<string, Metadata>, name: string)
    ensures var r := ListAlong(v, top, chain, listed);
            && (name in r <==> name in listed || Nearest(v, chain, name).Some?)
            && (name in listed ==> r[name] == listed[name])
            && (name !in listed && name in r ==>
                  && r[name].name == name && Nearest(v, chain, name) == Some(r[name].source)
                  && r[name].inherited == (r[name].source != top)
                  && Lookup(v, r[name].source, name).Some?
                  && r[name].updated == Seen(v, r[name].source, name).updated)
    decreases |chain|
  {
    if chain != [] {
      AddChannelNames(v, listed, chain[0], chain[0] != top, name);
      ListAlongNames(v, top, chain[1..], AddChannel(v, listed, chain[0], chain[0] != top), name);
    }
  }

  /**
    Resolve and List agree. A name resolves from a channel exactly when the channel's
    listing has it, and the value is the one defined by the listing's source channel,
    which is the nearest channel on the parent chain that defines the name.
   */
  lemma ResolveAgreesWithList(s: Store, auth: Auth, v: Vault, id: string, name: string)
    requires Forest(s) && id in s.channels && s.channels[id].workspaceID in auth.readable
    ensures var listing := ListAlong(v, id, Walk(s, auth, id), map[]);
            var resolved := ResolveAlong(v, Walk(s, auth, id), name);
            && (resolved.Some? <==> name in listing)
            && (name in listing ==>
                  && Nearest(v, Chain(s, id), name) == Some(listing[name].source)
                  && resolved == Lookup(v, listing[name].source, name)
                  && listing[name].inherited == (listing[name].source != id)
                  && resolved.Some?
                  && listing[name].updated == Seen(v, listing[name].source, name).updated)
  {
    WalkIsChain(s, auth, id);
    ListAlongNames(v, id, Chain(s, id), map[], name);
    ResolvesNearest(v, Chain(s, id), name);
  }

  // -------------------------------------------------------- scoping of writes

  lemma SetLookup(v: Vault, c: string, n: string, e: Entry, ok: bool, d: string, m: string)
    ensures Lookup(SetEntry(v, c, n, e, ok), d, m) == if d == c && m == n then Some(e) else Lookup(v, d, m)
  {
  }

  /** After deleting, the channel defines nothing, unless the table still has a row that was not deleted. */
  lemma DeleteLookup(v: Vault, c: string, n: string, ok: bool, d: string, m: string)
    ensures Lookup(DeleteEntry(v, c, n, ok), d, m) ==
            if d == c && m == n then (if ok then None else Stored(v, c, n)) else Lookup(v, d, m)
  {
  }

  lemma {:induction false} SameLookups(v: Vault, w: Vault, chain: seq<string>, name: string)
    requires forall c :: c in chain ==> Lookup(v, c, name) == Lookup(w, c, name)
    ensures ResolveAlong(v, chain, name) == ResolveAlong(w, chain, name)
    ensures Nearest(v, chain, name) == Nearest(w, chain, name)
    decreases |chain|
  {
    if chain != [] {
      SameLookups(v, w, chain[1..], name);
    }
  }

  lemma {:induction false} SetAlong(v: Vault, c: string, n: string, e: Entry, ok: bool, chain: seq<string>)
    ensures var w := SetEntry(v, c, n, e, ok);
            ResolveAlong(w, chain, n) == if Nearest(w, chain, n) == Some(c) then Some(e) else ResolveAlong(v, chain, n)
    decreases |chain|
  {
    if chain != [] {
      SetAlong(v, c, n, e, ok, chain[1..]);
      SetLookup(v, c, n, e, ok, chain[0], n);
    }
  }

  lemma SetElsewhere(v: Vault, c: string, n: string, e: Entry, ok: bool, chain: seq<string>, m: string)
    requires m != n
    ensures ResolveAlong(SetEntry(v, c, n, e, ok), chain, m) == ResolveAlong(v, chain, m)
  {
    forall x | x in chain ensures Lookup(v, x, m) == Lookup(SetEntry(v, c, n, e, ok), x, m) {
      SetLookup(v, c, n, e, ok, x, m);
    }
    SameLookups(v, SetEntry(v, c, n, e, ok), chain, m);
  }

  lemma DeleteOther(v: Vault, c: string, n: string, ok: bool, chain: seq<string>, m: string)
    requires m != n
    ensures ResolveAlong(DeleteEntry(v, c, n, ok), chain, m) == ResolveAlong(v, chain, m)
  {
    forall x | x in chain ensures Lookup(v, x, m) == Lookup(DeleteEntry(v, c, n, ok), x, m) {
      DeleteLookup(v, c, n, ok, x, m);
    }
    SameLookups(v, DeleteEntry(v, c, n, ok), chain, m);
  }

  /**
    A write is scoped. After `Set(c, n, value)`, every channel `d` of the forest resolves
    every name `m` as before, except that it resolves to the new value exactly when `m` is
    `n` and `c` is now the nearest channel on `d`'s chain that defines `n`.
   */
  lemma SetIsScoped(s: Store, v: Vault, c: string, n: string, e: Entry, ok: bool, d: string, m: string)
    requires Forest(s) && d in s.channels
    ensures var w := SetEntry(v, c, n, e, ok);
            ResolveAlong(w, Chain(s, d), m) ==
            if m == n && Nearest(w, Chain(s, d), n) == Some(c) then Some(e) else ResolveAlong(v, Chain(s, d), m)
  {
    if m == n {
      SetAlong(v, c, n, e, ok, Chain(s, d));
    } else {
      SetElsewhere(v, c, n, e, ok, Chain(s, d), m);
    }
  }

  lemma {:induction false} DeleteAlong(s: Store, v: Vault, c: string, n: string, d: string)
    requires Forest(s) && d in s.channels && Nearest(v, Chain(s, d), n) == Some(c) && c in s.channels
    ensures ResolveAlong(DeleteEntry(v, c, n, true), Chain(s, d), n)
            == ResolveAlong(v, Chain(s, c)[1..], n)
    decreases s.order[d]
  {
    var w := DeleteEntry(v, c, n, true);
    DeleteLookup(v, c, n, true, d, n);
    ChainDescends(s, d);
    if d == c {
      var above := Chain(s, c)[1..];
      forall x | x in above ensures Lookup(v, x, n) == Lookup(w, x, n) {
        var i :| 0 <= i < |above| && above[i] == x;
        assert Chain(s, c)[i + 1] == x;
        DeleteLookup(v, c, n, true, x, n);
      }
      SameLookups(v, w, above, n);
    } else {
      assert Chain(s, d) == [d] + Chain(s, d)[1..];
      assert s.channels[d].parentID != "";
      assert Chain(s, d)[1..] == Chain(s, s.channels[d].parentID);
      DeleteAlong(s, v, c, n, s.channels[d].parentID);
    }
  }

  /**
    A delete is scoped. A channel that resolved `n` from `c` now resolves it from the
    next ancestor of `c` that defines it; everything else resolves as before.
   */
  lemma DeleteExposesNext(s: Store, v: Vault, c: string, n: string, d: string, m: string)
    requires Forest(s) && d in s.channels && c in s.channels
    ensures var w := DeleteEntry(v, c, n, true);
            ResolveAlong(w, Chain(s, d), m) ==
            if m == n && Nearest(v, Chain(s, d), n) == Some(c) then ResolveAlong(v, Chain(s, c)[1..], n)
            else ResolveAlong(v, Chain(s, d), m)
  {
    if m == n {
      if Nearest(v, Chain(s, d), n) == Some(c) {
        DeleteAlong(s, v, c, n, d);
      } else {
        DeleteElsewhere(v, c, n, Chain(s, d));
      }
    } else {
      DeleteOther(v, c, n, true, Chain(s, d), m);
    }
  }

  lemma {:induction false} DeleteElsewhere(v: Vault, c: string, n: string, chain: seq<string>)
    requires Nearest(v, chain, n) != Some(c)
    ensures ResolveAlong(DeleteEntry(v, c, n, true), chain, n) == ResolveAlong(v, chain, n)
    decreases |chain|
  {
    if chain != [] {
      DeleteLookup(v, c, n, true, chain[0], n);
      if Lookup(v, chain[0], n).None? {
        DeleteElsewhere(v, c, n, chain[1..]);
      }
    }
  }

  /** Setting and then deleting a name the channel did not define restores every resolution. */
  lemma SetThenDelete(s: Store, v: Vault, c: string, n: string, e: Entry, d: string, m: string)
    requires Forest(s) && d in s.channels && Lookup(v, c, n).None?
    ensures ResolveAlong(DeleteEntry(SetEntry(v, c, n, e, true), c, n, true), Chain(s, d), m)
            == ResolveAlong(v, Chain(s, d), m)
  {
    var w := SetEntry(v, c, n, e, true);
    forall x | x in Chain(s, d) ensures Lookup(DeleteEntry(w, c, n, true), x, m) == Lookup(v, x, m) {
      DeleteLookup(w, c, n, true, x, m);
      SetLookup(v, c, n, e, true, x, m);
    }
    SameLookups(DeleteEntry(w, c, n, true), v, Chain(s, d), m);
  }

  // ------------------------------------------------------ restarts and failures

  /** Every cached entry is the durable one. */
  ghost predicate Coherent(v: Vault) {
    v.durable.Some? && forall c, n :: Cached(v.memory, c, n).Some? ==> Stored(v, c, n) == Cached(v.memory, c, n)
  }

  datatype Op = SetOp(channel: string, name: string, entry: Entry, storeOk: bool)
              | DeleteOp(channel: string, name: string, storeOk: bool)
              | RestartOp

  function ApplyOp(v: Vault, op: Op): Vault {
    match op
    case SetOp(c, n, e, ok) => SetEntry(v, c, n, e, ok)
    case DeleteOp(c, n, ok) => DeleteEntry(v, c, n, ok)
    case RestartOp => v.(memory := map[])
  }

  function RunOps(v: Vault, ops: seq<Op>): Vault
    decreases |ops|
  {
    if ops == [] then v else RunOps(ApplyOp(v, ops[0]), ops[1..])
  }

  /** A set keeps the cache coherent if and only if the durable write succeeds or would change nothing. */
  lemma SetCoherentIff(v: Vault, c: string, n: string, e: Entry, ok: bool)
    requires Coherent(v)
    ensures Coherent(SetEntry(v, c, n, e, ok)) <==> ok || Stored(v, c, n) == Some(e)
  {
    var w := SetEntry(v, c, n, e, ok);
    assert Cached(w.memory, c, n) == Some(e);
    forall d, m | Cached(w.memory, d, m).Some? && (d, m) != (c, n)
      ensures Cached(w.memory, d, m) == Cached(v.memory, d, m) && Stored(w, d, m) == Cached(w.memory, d, m)
    {
    }
  }

  lemma DeleteCoherent(v: Vault, c: string, n: string, ok: bool)
    requires Coherent(v)
    ensures Coherent(DeleteEntry(v, c, n, ok))
  {
    var w := DeleteEntry(v, c, n, ok);
    forall d, m | Cached(w.memory, d, m).Some?
      ensures Cached(w.memory, d, m) == Cached(v.memory, d, m) && Stored(w, d, m) == Cached(w.memory, d, m)
    {
      assert (d, m) != (c, n);
    }
  }

  /** Starting with an empty cache, durable writes that succeed keep every cached entry equal to the durable one. */
  lemma {:induction false} RunCoherent(v: Vault, ops: seq<Op>)
    requires Coherent(v) && forall i :: 0 <= i < |ops| && ops[i].SetOp? ==> ops[i].storeOk
    ensures Coherent(RunOps(v, ops))
    decreases |ops|
  {
    if ops != [] {
      match ops[0] {
        case SetOp(c, n, e, ok) => SetCoherentIff(v, c, n, e, ok);
        case DeleteOp(c, n, ok) => DeleteCoherent(v, c, n, ok);
        case RestartOp =>
      }
      RunCoherent(ApplyOp(v, ops[0]), ops[1..]);
    }
  }

  lemma {:induction false} ListSame(v: Vault, w: Vault, top: string, chain: seq<string>, listed: map<string, Metadata>)
    requires forall c, l: map<string, Metadata>, i :: c in chain ==> AddChannel(v, l, c, i) == AddChannel(w, l, c, i)
    ensures ListAlong(v, top, chain, listed) == ListAlong(w, top, chain, listed)
    decreases |chain|
  {
    if chain != [] {
      ListSame(v, w, top, chain[1..], AddChannel(v, listed, chain[0], chain[0] != top));
    }
  }

  lemma DroppedAdds(v: Vault, listed: map<string, Metadata>, channel: string, inherited: bool)
    requires Coherent(v)
    ensures AddChannel(v, listed, channel, inherited) == AddChannel(v.(memory := map[]), listed, channel, inherited)
  {
    var stored, cached := StoredEntries(v, channel), CachedEntries(v.memory, channel);
    forall n | n in cached ensures n in stored {
      assert Cached(v.memory, channel, n).Some?;
      assert (channel, n) in v.durable.value;
      assert (channel, n).1 in stored;
    }
    var once := AddEntries(listed, stored, channel, inherited);
    assert AddEntries(once, cached, channel, inherited) == once;
    assert AddEntries(once, map[], channel, inherited) == once;
  }

  /**
    Restart transparency. As long as durable writes succeed, dropping the cache at any
    moment of any run changes no resolution and no listing, from any channel.
   */
  lemma RestartTransparent(s: Store, table: Table, ops: seq<Op>, d: string, name: string)
    requires Forest(s) && d in s.channels
    requires forall i :: 0 <= i < |ops| && ops[i].SetOp? ==> ops[i].storeOk
    ensures var v := RunOps(Vault(map[], Some(table)), ops); var w := v.(memory := map[]);
            && ResolveAlong(w, Chain(s, d), name) == ResolveAlong(v, Chain(s, d), name)
            && ListAlong(w, d, Chain(s, d), map[]) == ListAlong(v, d, Chain(s, d), map[])
  {
    RunCoherent(Vault(map[], Some(table)), ops);
    var v := RunOps(Vault(map[], Some(table)), ops);
    var w := v.(memory := map[]);
    forall c | c in Chain(s, d) ensures Lookup(w, c, name) == Lookup(v, c, name) {
      assert Cached(v.memory, c, name).Some? ==> Stored(v, c, name) == Cached(v.memory, c, name);
    }
    SameLookups(w, v, Chain(s, d), name);
    forall c, l, i | c in Chain(s, d) ensures AddChannel(w, l, c, i) == AddChannel(v, l, c, i) {
      DroppedAdds(v, l, c, i);
    }
    ListSame(w, v, d, Chain(s, d), map[]);
  }

  /**
    A lookup whose durable reads fail for some channels still takes the nearest definition
    if and only if that channel's read works or the value is cached. Otherwise the lookup
    passes it over without an error and takes an ancestor's value, or finds none.
   */
  lemma {:induction false} FailuresHideIff(v: Vault, failing: set<string>, chain: seq<string>, name: string)
    ensures Nearest(Through(v, failing), chain, name) == Nearest(v, chain, name)
            <==> match Nearest(v, chain, name)
                 case None => true
                 case Some(c) => c !in failing || Cached(v.memory, c, name).Some?
    decreases |chain|
  {
    if chain != [] {
      ThroughStored(v, failing, chain[0], name);
      FailuresHideIff(v, failing, chain[1..], name);
      if Lookup(v, chain[0], name).Some? && Lookup(Through(v, failing), chain[0], name).None? {
        NearestDefines(Through(v, failing), chain[1..], name);
      }
    }
  }

  lemma {:induction false} NearestDefines(v: Vault, chain: seq<string>, name: string)
    ensures Nearest(v, chain, name).Some? ==> Lookup(v, Nearest(v, chain, name).value, name).Some?
    decreases |chain|
  {
    if chain != [] {
      NearestDefines(v, chain[1..], name);
    }
  }

  // --------------------------------------------------- lookups without an end

  /** The channel a lookup visits after `n` others; `None` if its context or the parents run out first. */
  function Visited(s: Store, auth: Auth, ctx: Context, id: string, n: nat): Option<string>
    decreases n
  {
    if Expired(ctx) then None
    else if n == 0 then Some(id)
    else match Parent(s, auth, id, Spend(ctx))
         case None => None
         case Some(up) => Visited(s, auth, Spend(ctx), up, n - 1)
  }

  /** The context is still there for reading the channel after `n` others. */
  predicate Lasts(ctx: Context, n: nat) {
    ctx.Alive? || n < ctx.calls
  }

  /** The walk of a lookup, as far as its context lasts, is what a lookup visits one by one. */
  lemma {:induction false} WithinVisits(s: Store, auth: Auth, ctx: Context, id: string, n: nat)
    requires Forest(s) && id in s.channels
    ensures Visited(s, auth, ctx, id, n) ==
            if n < |Within(Walk(s, auth, id), ctx)| then Some(Within(Walk(s, auth, id), ctx)[n]) else None
    decreases n
  {
    if !Expired(ctx) {
      WithinNext(s, auth, id, ctx);
      var up, walk := Parent(s, auth, id, Spend(ctx)), Within(Walk(s, auth, id), ctx);
      if n > 0 {
        if up.Some? {
          WithinVisits(s, auth, Spend(ctx), up.value, n - 1);
        }
        assert n < |walk| ==> walk[1..][n - 1] == walk[n];
      }
    }
  }

  /** A context that lasts cuts nothing off, and one that is done after some channels cuts there. */
  lemma WithinLasts(chain: seq<string>, ctx: Context, n: nat)
    ensures n < |Within(chain, ctx)| <==> n < |chain| && Lasts(ctx, n)
  {
  }

  /** A channel of the new channel's ancestry, up to the one whose ID is taken again. */
  ghost predicate InLoop(s: Store, id: string, draft: Channel, c: string)
    requires Forest(s) && draft.parentID in s.channels
  {
    c in Chain(s, draft.parentID) && OnLoop(s, id, c)
  }

  lemma {:induction false} ChainUp(s: Store, top: string, c: string)
    requires Forest(s) && top in s.channels && c in Chain(s, top) && s.channels[c].parentID != ""
    ensures s.channels[c].parentID in Chain(s, top)
    decreases s.order[top]
  {
    if c != top {
      ChainUp(s, s.channels[top].parentID, c);
    }
  }

  /** One link of the loop, for a user who may read the workspace. */
  lemma LoopParent(s: Store, auth: Auth, id: string, draft: Channel, c: string, ctx: Context)
    requires Forest(s) && draft.parentID in s.channels && draft.parentID != "" && InLoop(s, id, draft, c)
    requires id in Chain(s, draft.parentID) && !Expired(ctx)
    requires draft.workspaceID == s.channels[draft.parentID].workspaceID && draft.workspaceID in auth.readable
    ensures var up := if c == id then draft.parentID else s.channels[c].parentID;
            Parent(Insert(s, id, draft), auth, c, ctx) == Some(up) && InLoop(s, id, draft, up)
  {
    var t, up := Insert(s, id, draft), if c == id then draft.parentID else s.channels[c].parentID;
    assert InLoop(s, id, draft, up) && up in s.channels by {
      if c != id {
        ChainUp(s, draft.parentID, c);
        LinkUp(s, id, c);
      }
    }
    SameWorkspace(s, draft.parentID, up);
    assert t.channels[c].parentID == up && up != "" && t.channels[up].workspaceID in auth.readable;
  }

  lemma SameWorkspace(s: Store, top: string, c: string)
    requires Forest(s) && top in s.channels && c in Chain(s, top)
    ensures s.channels[c].workspaceID == s.channels[top].workspaceID
  {
    ChainDescends(s, top);
  }

  lemma LinkUp(s: Store, id: string, c: string)
    requires Forest(s) && OnLoop(s, id, c) && c != id
    ensures s.channels[c].parentID != "" && OnLoop(s, id, s.channels[c].parentID)
  {
  }

  /** On the loop a lookup visits exactly as many channels as its context lasts for, all of the loop. */
  lemma {:induction false} LoopVisited(
      s: Store, auth: Auth, id: string, draft: Channel, ctx: Context, c: string, n: nat)
    requires Forest(s) && draft.parentID in s.channels && draft.parentID != "" && InLoop(s, id, draft, c)
    requires id in Chain(s, draft.parentID)
    requires draft.workspaceID == s.channels[draft.parentID].workspaceID && draft.workspaceID in auth.readable
    ensures var at := Visited(Insert(s, id, draft), auth, ctx, c, n);
            && (at.Some? <==> Lasts(ctx, n)) && (at.Some? ==> InLoop(s, id, draft, at.value))
    decreases n
  {
    if n > 0 && Lasts(ctx, 1) {
      var up := if c == id then draft.parentID else s.channels[c].parentID;
      LoopParent(s, auth, id, draft, c, Spend(ctx));
      LoopVisited(s, auth, id, draft, Spend(ctx), up, n - 1);
    }
  }

  /** A walk up the old chain meets every channel of the loop. */
  lemma {:induction false} LoopReached(s: Store, auth: Auth, id: string, draft: Channel, from: string, c: string)
    returns (n: nat)
    requires Forest(s) && draft.parentID in s.channels && draft.parentID != "" && id in Chain(s, draft.parentID)
    requires draft.workspaceID == s.channels[draft.parentID].workspaceID && draft.workspaceID in auth.readable
    requires InLoop(s, id, draft, from) && c in Chain(s, from) && OnLoop(s, id, c)
    ensures Visited(Insert(s, id, draft), auth, Alive, from, n) == Some(c)
    decreases s.order[from]
  {
    n := 0;
    if c != from {
      NotAbove(s, id, from, c);
      LoopParent(s, auth, id, draft, from, Alive);
      n := LoopReached(s, auth, id, draft, s.channels[from].parentID, c);
      n := n + 1;
    }
  }

  /** On the way up to the loop's end, a channel above another is above its parent. */
  lemma NotAbove(s: Store, id: string, from: string, c: string)
    requires Forest(s) && from in s.channels && c in Chain(s, from) && c != from && OnLoop(s, id, c)
    ensures from != id && s.channels[from].parentID != "" && c in Chain(s, s.channels[from].parentID)
  {
    InTail(s, from, c);
    ChainBelow(s, s.channels[from].parentID, c);
    ChainBelow(s, c, id);
    assert s.order[s.channels[from].parentID] < s.order[from];
  }

  lemma InTail(s: Store, from: string, c: string)
    requires Forest(s) && from in s.channels && c in Chain(s, from) && c != from
    ensures s.channels[from].parentID != "" && c in Chain(s, s.channels[from].parentID)
  {
  }

  lemma {:induction false} ChainBelow(s: Store, top: string, c: string)
    requires Forest(s) && top in s.channels && c in Chain(s, top)
    ensures s.order[c] <= s.order[top]
    decreases s.order[top]
  {
    if c != top {
      InTail(s, top, c);
      ChainBelow(s, s.channels[top].parentID, c);
    }
  }

  /** A lookup that has visited `n` channels is visiting another and does not find the name. */
  ghost predicate Unfound(s: Store, auth: Auth, v: Vault, id: string, name: string, n: nat) {
    var at := Visited(s, auth, Alive, id, n);
    at.Some? && Lookup(v, at.value, name).None?
  }

  /**
    What a repeated channel ID does to secrets. When a create is given an ID on the chain of
    its parent, a lookup from that channel goes on without end, for as long as the request's
    context is not done, if and only if no channel from the new channel's parent up to that
    ID defines the name.
   */
  lemma LookupEndlessIff(s: Store, auth: Auth, v: Vault, id: string, draft: Channel, name: string)
    requires Forest(s) && draft.parentID in s.channels && draft.parentID != "" && id in Chain(s, draft.parentID)
    requires draft.workspaceID == s.channels[draft.parentID].workspaceID && draft.workspaceID in auth.readable
    ensures (forall n: nat :: Unfound(Insert(s, id, draft), auth, v, id, name, n))
            <==> (forall c :: c in Chain(s, draft.parentID) && OnLoop(s, id, c) ==> Lookup(v, c, name).None?)
  {
    var t := Insert(s, id, draft);
    assert InLoop(s, id, draft, id);
    if forall c :: c in Chain(s, draft.parentID) && OnLoop(s, id, c) ==> Lookup(v, c, name).None? {
      forall n: nat ensures Unfound(t, auth, v, id, name, n) {
        LoopVisited(s, auth, id, draft, Alive, id, n);
      }
    } else {
      var c :| c in Chain(s, draft.parentID) && OnLoop(s, id, c) && Lookup(v, c, name).Some?;
      var n := LoopReached(s, auth, id, draft, draft.parentID, c);
      LoopParent(s, auth, id, draft, id, Alive);
      assert Visited(t, auth, Alive, id, n + 1) == Some(c);
      assert !Unfound(t, auth, v, id, name, n + 1);
    }
  }

  /**
    A delete that reports success has removed the name from the channel if and only if
    the durable call succeeded or the table had no such row: a failing durable delete of
    a cached secret is reported as success, and the table's value shows through.
   */
  lemma DeletedIffStored(v: Vault, c: string, n: string, ok: bool)
    requires DeleteFound(v, c, n, ok)
    ensures Lookup(DeleteEntry(v, c, n, ok), c, n).None? <==> ok || Stored(v, c, n).None?
  {
    DeleteLookup(v, c, n, ok, c, n);
  }

  // ---------------------------------------------------- what a failing store does

  /** A write whose durable half fails is used at once and gone after a restart. */
  lemma FailedSetForgotten(c: string, n: string, e: Entry)
    ensures var v := SetEntry(Vault(map[], Some(map[])), c, n, e, false);
            && !Coherent(v)
            && ResolveAlong(v, [c], n) == Some(e) && ResolveAlong(v.(memory := map[]), [c], n) == None
  {
    SetCoherentIff(Vault(map[], Some(map[])), c, n, e, false);
  }

  /** When a channel's read fails, its ancestor's value is taken for its own. */
  lemma FailedReadExposes(c: string, above: string, n: string, own: Entry, other: Entry)
    requires c != above && own != other
    ensures var v := Vault(map[], Some(map[(c, n) := own, (above, n) := other]));
            && ResolveAlong(v, [c, above], n) == Some(own)
            && ResolveAlong(Through(v, {c}), [c, above], n) == Some(other)
  {
    var v := Vault(map[], Some(map[(c, n) := own, (above, n) := other]));
    ThroughStored(v, {c}, c, n);
    ThroughStored(v, {c}, above, n);
    assert [c, above][1..] == [above];
  }

  /** A delete whose durable half fails is reported as success, and the value is still there. */
  lemma FailedDeleteReported(c: string, n: string, e: Entry)
    ensures var v := SetEntry(Vault(map[], Some(map[])), c, n, e, true);
            DeleteFound(v, c, n, false) && ResolveAlong(DeleteEntry(v, c, n, false), [c], n) == Some(e)
  {
    var v := SetEntry(Vault(map[], Some(map[])), c, n, e, true);
    SetLookup(Vault(map[], Some(map[])), c, n, e, true, c, n);
    DeleteLookup(v, c, n, false, c, n);
  }
}

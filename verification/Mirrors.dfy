/**
  The host agent's mirror index: a flat map from a joined user and resource key to a
  path, which has to agree with the nested configuration.
 */
module Mirrors {
  import opened Wrappers
  import opened Strings

  const NUL: char := '\0'

  datatype Binding = Binding(path: string, resourceID: string)

  /** A user's resources, by resource ID. */
  type Resources = map<string, Binding>

  type Users = map<string, Resources>

  /** A user and a resource. */
  type Pair = (string, string)

  datatype Server = Server(users: Users, mirrors: map<string, string>)

  function Key(userID: string, resourceID: string): string {
    userID + [NUL] + resourceID
  }

  function KeyOf(p: Pair): string {
    Key(p.0, p.1)
  }

  predicate NulFree(s: string) {
    NUL !in s
  }

  function Pairs(users: Users): set<Pair> {
    set u, r | u in users && r in users[u] :: (u, r)
  }

  predicate InConfig(users: Users, p: Pair) {
    p.0 in users && p.1 in users[p.0]
  }

  /** The nested configuration, flattened without joining keys. */
  function Flat(users: Users): map<Pair, string> {
    map p | p in Pairs(users) && InConfig(users, p) :: users[p.0][p.1].path
  }

  lemma FlatAt(users: Users, p: Pair)
    ensures p in Flat(users) <==> InConfig(users, p)
    ensures InConfig(users, p) ==> Flat(users)[p] == users[p.0][p.1].path
  {
    assert p == (p.0, p.1);
  }

  /** The index has every pair's path under the pair's key. */
  ghost predicate Covers(mirrors: map<string, string>, flat: map<Pair, string>) {
    forall p :: p in flat ==> KeyOf(p) in mirrors && mirrors[KeyOf(p)] == flat[p]
  }

  /** Every entry of the index is the path of some pair with that key. */
  ghost predicate Backed(mirrors: map<string, string>, flat: map<Pair, string>) {
    forall k :: k in mirrors ==> exists p :: p in flat && k == KeyOf(p) && mirrors[k] == flat[p]
  }

  /** No two pairs share a key. */
  ghost predicate KeysApart(flat: map<Pair, string>) {
    forall p, q :: p in flat && q in flat && KeyOf(p) == KeyOf(q) ==> p == q
  }

  /** Every binding's path is in the index under the binding's key, and nothing else is. */
  ghost predicate Agrees(s: Server) {
    Covers(s.mirrors, Flat(s.users)) && Backed(s.mirrors, Flat(s.users))
  }

  /** Pairs with the same key have the same path. */
  ghost predicate PathsShared(flat: map<Pair, string>) {
    forall p, q :: p in flat && q in flat && KeyOf(p) == KeyOf(q) ==> flat[p] == flat[q]
  }

  function UserResources(users: Users, userID: string): Resources {
    if userID in users then users[userID] else map[]
  }

  function Approve(s: Server, userID: string, b: Binding): Server {
    Server(s.users[userID := UserResources(s.users, userID)[b.resourceID := b]],
           s.mirrors[Key(userID, b.resourceID) := b.path])
  }

  /** A configuration as decoded: a user may be null, and the users may be missing. */
  datatype LocalConfig = LocalConfig(version: int, deviceID: string, users: map<string, Option<Resources>>)

  const CONFIG_VERSION := 1

  /** What reading the configuration file gives. */
  datatype ConfigFile = Missing | Unreadable | Malformed | Decoded(config: LocalConfig)

  datatype LoadOutcome = Migrated | Loaded | Failed | LoadCrashed

  /** The users made of a legacy folder list, by resource ID. */
  function MigratedUsers(legacy: map<string, string>): Users {
    if legacy == map[] then map[] else map["admin" := map id | id in legacy :: Binding(legacy[id], id)]
  }

  function PresentUsers(users: map<string, Option<Resources>>): Users {
    map u | u in users && users[u].Some? :: users[u].value
  }

  datatype ImportOutcome = Imported | Rejected | Crashed

  class HostServer {
    var users: Users
    var mirrors: map<string, string>

    ghost function State(): Server
      reads this
    {
      Server(users, mirrors)
    }

    constructor ()
      ensures State() == Server(map[], map[])
    {
      users, mirrors := map[], map[];
    }

    method ApproveMirror(userID: string, binding: Binding)
      modifies this
      ensures State() == Approve(old(State()), userID, binding)
      ensures Flat(users) == Flat(old(users))[(userID, binding.resourceID) := binding.path]
      ensures mirrors == old(mirrors)[Key(userID, binding.resourceID) := binding.path]
    {
      FlatApprove(State(), userID, binding);
      if userID !in users {
        users := users[userID := map[]];
      }
      users := users[userID := users[userID][binding.resourceID := binding]];
      mirrors := mirrors[Key(userID, binding.resourceID) := binding.path];
    }

    /** Start-up: without a file the migrated users are installed and the index is left as it is. */
    method EnableApprovalPersistence(file: ConfigFile, legacy: map<string, string>) returns (outcome: LoadOutcome)
      modifies this
      ensures outcome == match file
                         case Missing => Migrated
                         case Unreadable => Failed
                         case Malformed => Failed
                         case Decoded(c) =>
                           if c.version != CONFIG_VERSION || Trim(c.deviceID) == "" then Failed
                           else if None in c.users.Values then LoadCrashed else Loaded
      ensures outcome == Migrated ==> State() == Server(MigratedUsers(legacy), old(mirrors))
      ensures outcome == Failed || outcome == LoadCrashed ==> State() == old(State())
      ensures outcome == Loaded ==>
                && users == (if file.config.users == map[] then MigratedUsers(legacy)
                             else PresentUsers(file.config.users))
                && Rebuilt(mirrors, Flat(users))
      ensures outcome == Migrated || (outcome == Loaded && file.config.users == map[]) ==>
                && (users == map[] <==> legacy == map[])
                && forall p: Pair :: (p in Flat(users) <==> p.0 == "admin" && p.1 in legacy)
                                     && (p in Flat(users) ==> Flat(users)[p] == legacy[p.1])
      ensures outcome == Loaded && file.config.users != map[] ==>
                && users.Keys == file.config.users.Keys
                && forall u :: u in users ==> file.config.users[u] == Some(users[u])
    {
      MigratedIs(legacy);
      match file {
        case Missing =>
          users := MigratedUsers(legacy);
          return Migrated;
        case Unreadable => return Failed;
        case Malformed => return Failed;
        case Decoded(c) =>
          if c.version != CONFIG_VERSION || Trim(c.deviceID) == "" {
            return Failed;
          }
          if None in c.users.Values {
            return LoadCrashed;
          }
          users := if |c.users| == 0 then MigratedUsers(legacy) else PresentUsers(c.users);
          RebuildMirrorIndex();
          return Loaded;
      }
    }

    /** `config` is the decoded body, `None` if it does not decode; normalizing it crashes on a null user. */
    method ImportConfig(userID: string, config: Option<LocalConfig>) returns (outcome: ImportOutcome)
      modifies this
      ensures outcome == if userID == "" || config.None? || config.value.version != CONFIG_VERSION
                            || userID !in config.value.users || config.value.users[userID].None? then Rejected
                         else if None in config.value.users.Values then Crashed else Imported
      ensures outcome != Imported ==> State() == old(State())
      ensures outcome == Imported ==>
                users == old(users)[userID := config.value.users[userID].value] && Rebuilt(mirrors, Flat(users))
    {
      if userID == "" || config.None? || config.value.version != CONFIG_VERSION
         || userID !in config.value.users || config.value.users[userID].None? {
        return Rejected;
      }
      if None in config.value.users.Values {
        return Crashed;
      }
      users := users[userID := config.value.users[userID].value];
      RebuildMirrorIndex();
      return Imported;
    }

    /** Refills the index from the configuration, in whatever order Go's map iteration takes. */
    method RebuildMirrorIndex()
      modifies this`mirrors
      ensures Rebuilt(mirrors, Flat(users))
    {
      mirrors := map[];
      FinishedNone(users);
      var todo := users.Keys;
      while todo != {}
        invariant todo <= users.Keys
        invariant Filled(mirrors, Flat(users), Finished(Flat(users), todo))
        decreases todo
      {
        var userID :| userID in todo;
        AddUser(userID, Finished(Flat(users), todo));
        FinishedGrows(Flat(users), todo, userID);
        todo := todo - {userID};
      }
      FinishedAll(users);
    }

    /** The inner loop: adds one user's resources. */
    method AddUser(userID: string, ghost done: set<Pair>)
      requires userID in users && Filled(mirrors, Flat(users), done)
      modifies this`mirrors
      ensures Filled(mirrors, Flat(users), done + Visited(Flat(users), userID, {}))
    {
      var resources := users[userID];
      var left := resources.Keys;
      VisitedNone(users, userID);
      assert done + {} == done;
      while left != {}
        invariant left <= resources.Keys
        invariant Filled(mirrors, Flat(users), done + Visited(Flat(users), userID, left))
        decreases left
      {
        var resourceID :| resourceID in left;
        VisitedGrows(users, userID, left, resourceID);
        UnionAssoc(done, Visited(Flat(users), userID, left), {(userID, resourceID)});
        AddOne(userID, resourceID, done + Visited(Flat(users), userID, left));
        left := left - {resourceID};
      }
    }

    method AddOne(userID: string, resourceID: string, ghost done: set<Pair>)
      requires userID in users && resourceID in users[userID] && Filled(mirrors, Flat(users), done)
      modifies this`mirrors
      ensures Filled(mirrors, Flat(users), done + {(userID, resourceID)})
    {
      FlatAt(users, (userID, resourceID));
      FilledExtends(mirrors, Flat(users), done, (userID, resourceID));
      mirrors := mirrors[Key(userID, resourceID) := users[userID][resourceID].path];
    }
  }

  /** The pairs of the users that are no longer waiting. */
  ghost function Finished(flat: map<Pair, string>, todo: set<string>): set<Pair> {
    set p | p in flat && p.0 !in todo
  }

  lemma FinishedNone(users: Users)
    ensures Finished(Flat(users), users.Keys) == {}
  {
    forall p | p in Flat(users) ensures p.0 in users {
      FlatAt(users, p);
    }
  }

  lemma FinishedGrows(flat: map<Pair, string>, todo: set<string>, userID: string)
    requires userID in todo
    ensures Finished(flat, todo - {userID}) == Finished(flat, todo) + Visited(flat, userID, {})
  {
  }

  lemma FinishedAll(users: Users)
    ensures Finished(Flat(users), {}) == Flat(users).Keys
  {
  }

  /** One user's pairs whose resources are no longer waiting. */
  ghost function Visited(flat: map<Pair, string>, userID: string, left: set<string>): set<Pair> {
    set p | p in flat && p.0 == userID && p.1 !in left
  }

  lemma UnionAssoc(a: set<Pair>, b: set<Pair>, c: set<Pair>)
    ensures a + (b + c) == a + b + c
  {
  }

  lemma VisitedGrows(users: Users, userID: string, left: set<string>, resourceID: string)
    requires userID in users && resourceID in users[userID] && resourceID in left
    ensures Visited(Flat(users), userID, left - {resourceID})
            == Visited(Flat(users), userID, left) + {(userID, resourceID)}
  {
    FlatAt(users, (userID, resourceID));
  }

  lemma VisitedNone(users: Users, userID: string)
    requires userID in users
    ensures Visited(Flat(users), userID, users[userID].Keys) == {}
  {
    forall p | p in Flat(users) && p.0 == userID ensures p.1 in users[userID] {
      FlatAt(users, p);
    }
  }

  /** The index holds exactly the keys of some pairs, each with the path of one of them. */
  ghost predicate Filled(mirrors: map<string, string>, flat: map<Pair, string>, done: set<Pair>) {
    && done <= flat.Keys
    && (forall p :: p in done ==> KeyOf(p) in mirrors)
    && (forall k :: k in mirrors ==> exists p :: p in done && k == KeyOf(p) && mirrors[k] == flat[p])
  }

  /** A refilled index has every pair's key, with the path of the pair that was written last. */
  ghost predicate Rebuilt(mirrors: map<string, string>, flat: map<Pair, string>) {
    Filled(mirrors, flat, flat.Keys)
  }

  lemma FilledExtends(mirrors: map<string, string>, flat: map<Pair, string>, done: set<Pair>, p: Pair)
    requires p in flat && Filled(mirrors, flat, done)
    ensures Filled(mirrors[KeyOf(p) := flat[p]], flat, done + {p})
  {
    var m, d := mirrors[KeyOf(p) := flat[p]], done + {p};
    forall k | k in m ensures exists q :: q in d && k == KeyOf(q) && m[k] == flat[q] {
      if k == KeyOf(p) {
        assert p in d;
      } else {
        var q :| q in done && k == KeyOf(q) && mirrors[k] == flat[q];
        assert q in d;
      }
    }
  }

  // ------------------------------------------------------------------ the keys

  /** Where the first NUL of a string is. */
  function FirstNul(s: string): nat {
    if s == "" || s[0] == NUL then 0 else 1 + FirstNul(s[1..])
  }

  lemma {:induction false} FirstNulAfter(s: string, rest: string)
    requires NulFree(s)
    ensures FirstNul(s + [NUL] + rest) == |s|
  {
    if s != "" {
      assert (s + [NUL] + rest)[1..] == s[1..] + [NUL] + rest;
      FirstNulAfter(s[1..], rest);
    }
  }

  /** For NUL-free user IDs the joined key determines the pair. */
  lemma KeyInjective(u: string, r: string, v: string, t: string)
    requires NulFree(u) && NulFree(v)
    ensures Key(u, r) == Key(v, t) <==> u == v && r == t
  {
    FirstNulAfter(u, r);
    FirstNulAfter(v, t);
    if Key(u, r) == Key(v, t) {
      assert Key(u, r)[..|u|] == u && Key(v, t)[..|v|] == v;
      assert Key(u, r)[|u| + 1..] == r && Key(v, t)[|v| + 1..] == t;
    }
  }

  /** One user ID is the other, a NUL and more, and the resource IDs make up for it. */
  ghost predicate Overlap(p: Pair, q: Pair) {
    exists x :: p.0 == q.0 + [NUL] + x && q.1 == x + [NUL] + p.1
  }

  lemma OverlapCollides(p: Pair, q: Pair)
    requires Overlap(p, q)
    ensures KeyOf(p) == KeyOf(q) && p != q
  {
    var x :| p.0 == q.0 + [NUL] + x && q.1 == x + [NUL] + p.1;
    assert q.0 + [NUL] + x + [NUL] + p.1 == q.0 + [NUL] + (x + [NUL] + p.1);
  }

  lemma LongerOverlaps(p: Pair, q: Pair)
    requires KeyOf(p) == KeyOf(q) && |q.0| < |p.0|
    ensures Overlap(p, q)
  {
    var key, n := KeyOf(p), |q.0|;
    assert p.0 == key[..|p.0|] && q.0 == key[..n] && key[n] == NUL;
    assert p.1 == key[|p.0| + 1..] && q.1 == key[n + 1..];
    var x := p.0[n + 1..];
    assert p.0[..n] == q.0 && p.0[n] == NUL;
    assert p.0 == q.0 + [NUL] + x;
    assert key[n + 1..] == key[n + 1..|p.0|] + [NUL] + key[|p.0| + 1..];
    assert x == key[n + 1..|p.0|];
  }

  /** Exactly which two pairs share a joined key. */
  lemma CollideIff(p: Pair, q: Pair)
    ensures KeyOf(p) == KeyOf(q) && p != q <==> Overlap(p, q) || Overlap(q, p)
  {
    if Overlap(p, q) {
      OverlapCollides(p, q);
    } else if Overlap(q, p) {
      OverlapCollides(q, p);
    } else if KeyOf(p) == KeyOf(q) {
      if |q.0| < |p.0| {
        LongerOverlaps(p, q);
      } else if |p.0| < |q.0| {
        LongerOverlaps(q, p);
      } else {
        SameLengthSame(p, q);
      }
    }
  }

  lemma SameLengthSame(p: Pair, q: Pair)
    requires KeyOf(p) == KeyOf(q) && |p.0| == |q.0|
    ensures p == q
  {
    assert KeyOf(p)[..|p.0|] == p.0 && KeyOf(q)[..|q.0|] == q.0;
    assert KeyOf(p)[|p.0| + 1..] == p.1 && KeyOf(q)[|q.0| + 1..] == q.1;
    assert p == (p.0, p.1) && q == (q.0, q.1);
  }

  ghost predicate NulFreeUsers(users: Users) {
    forall u :: u in users ==> NulFree(u)
  }

  lemma UsersKeysApart(users: Users)
    requires NulFreeUsers(users)
    ensures KeysApart(Flat(users))
  {
    forall p, q | p in Flat(users) && q in Flat(users) && KeyOf(p) == KeyOf(q) ensures p == q {
      KeyInjective(p.0, p.1, q.0, q.1);
    }
  }

  /**
    However the map iteration goes, a rebuilt index agrees with the configuration if and
    only if pairs that share a joined key have the same path.
   */
  lemma RebuildAgreesIff(mirrors: map<string, string>, users: Users)
    requires Rebuilt(mirrors, Flat(users))
    ensures Agrees(Server(users, mirrors)) <==> PathsShared(Flat(users))
  {
    if PathsShared(Flat(users)) {
      RebuildCovers(mirrors, Flat(users));
    }
  }

  lemma RebuildCovers(mirrors: map<string, string>, flat: map<Pair, string>)
    requires Rebuilt(mirrors, flat) && PathsShared(flat)
    ensures Covers(mirrors, flat)
  {
    forall p | p in flat ensures KeyOf(p) in mirrors && mirrors[KeyOf(p)] == flat[p] {
      var q :| q in flat.Keys && KeyOf(p) == KeyOf(q) && mirrors[KeyOf(p)] == flat[q];
    }
  }

  /** And it has one entry for each pair if and only if no two pairs share a key. */
  lemma RebuildCountsIff(mirrors: map<string, string>, users: Users)
    requires Rebuilt(mirrors, Flat(users))
    ensures |mirrors| == |Flat(users)| <==> KeysApart(Flat(users))
  {
    RebuiltKeys(mirrors, Flat(users));
    CountKeys(Flat(users).Keys);
    assert |mirrors| == |mirrors.Keys| && |Flat(users)| == |Flat(users).Keys|;
  }

  function KeysOf(ps: set<Pair>): set<string> {
    set p | p in ps :: KeyOf(p)
  }

  lemma RebuiltKeys(mirrors: map<string, string>, flat: map<Pair, string>)
    requires Rebuilt(mirrors, flat)
    ensures mirrors.Keys == KeysOf(flat.Keys)
  {
  }

  ghost predicate Apart(ps: set<Pair>) {
    forall p, q :: p in ps && q in ps && KeyOf(p) == KeyOf(q) ==> p == q
  }

  /** A joined key counts as many as the pairs if and only if the pairs have distinct keys. */
  lemma {:induction false} CountKeys(ps: set<Pair>)
    ensures |KeysOf(ps)| <= |ps|
    ensures |KeysOf(ps)| == |ps| <==> Apart(ps)
    decreases |ps|
  {
    if ps != {} {
      var p :| p in ps;
      var rest := ps - {p};
      CountKeys(rest);
      assert KeysOf(ps) == KeysOf(rest) + {KeyOf(p)};
      if KeyOf(p) in KeysOf(rest) {
        assert KeysOf(ps) == KeysOf(rest);
      } else if Apart(rest) {
        forall q, r | q in ps && r in ps && KeyOf(q) == KeyOf(r) ensures q == r {
          assert q != p ==> KeyOf(q) in KeysOf(rest);
          assert r != p ==> KeyOf(r) in KeysOf(rest);
        }
      } else {
        var q, r :| q in rest && r in rest && KeyOf(q) == KeyOf(r) && q != r;
        assert q in ps && r in ps;
      }
    }
  }

  /** A user ID with a NUL, which a query parameter can carry, can collide with another user's resource. */
  lemma CollidingKeys()
    ensures Key("a", "b" + [NUL] + "c") == Key("a" + [NUL] + "b", "c")
    ensures var users: Users := map["a" := map["b" + [NUL] + "c" := Binding("/x", "b" + [NUL] + "c")],
                                    "a" + [NUL] + "b" := map["c" := Binding("/y", "c")]];
            forall mirrors :: !Covers(mirrors, Flat(users))
  {
    var x: Pair, y: Pair := ("a", "b" + [NUL] + "c"), ("a" + [NUL] + "b", "c");
    assert KeyOf(x) == KeyOf(y);
    var users: Users := map["a" := map["b" + [NUL] + "c" := Binding("/x", "b" + [NUL] + "c")],
                            "a" + [NUL] + "b" := map["c" := Binding("/y", "c")]];
    assert "a" != "a" + [NUL] + "b";
    var flat := Flat(users);
    assert x in flat && flat[x] == "/x";
    assert y in flat && flat[y] == "/y";
    forall mirrors: map<string, string> ensures !Covers(mirrors, flat) {
      assert flat[x][1] != flat[y][1];
    }
  }

  // ----------------------------------------------------------------- every state

  lemma ApproveAt(s: Server, userID: string, b: Binding, q: Pair)
    ensures var after := Flat(Approve(s, userID, b).users);
            && (q in after <==> q in Flat(s.users) || q == (userID, b.resourceID))
            && (q in after ==> after[q] == if q == (userID, b.resourceID) then b.path else Flat(s.users)[q])
  {
    FlatAt(Approve(s, userID, b).users, q);
    FlatAt(s.users, q);
  }

  lemma FlatApprove(s: Server, userID: string, b: Binding)
    ensures Flat(Approve(s, userID, b).users) == Flat(s.users)[(userID, b.resourceID) := b.path]
  {
    var before, after, p: Pair := Flat(s.users), Flat(Approve(s, userID, b).users), (userID, b.resourceID);
    forall q: Pair
      ensures q in after <==> q in before || q == p
      ensures q in after ==> after[q] == if q == p then b.path else before[q]
    {
      ApproveAt(s, userID, b, q);
    }
    SameMap(after, before[p := b.path]);
  }

  lemma SameMap(m: map<Pair, string>, n: map<Pair, string>)
    requires forall q: Pair :: q in m <==> q in n
    requires forall q: Pair :: q in m ==> m[q] == n[q]
    ensures m == n
  {
  }

  /** Adding one pair to both sides keeps every key of the index backed by some pair. */
  lemma RebuiltExtend(mirrors: map<string, string>, flat: map<Pair, string>, p: Pair, path: string)
    requires Rebuilt(mirrors, flat)
    ensures Rebuilt(mirrors[KeyOf(p) := path], flat[p := path])
  {
    var m, after := mirrors[KeyOf(p) := path], flat[p := path];
    forall k | k in m ensures exists q :: q in after.Keys && k == KeyOf(q) && m[k] == after[q] {
      if k == KeyOf(p) {
        assert p in after.Keys;
      } else {
        var q :| q in flat.Keys && k == KeyOf(q) && mirrors[k] == flat[q];
        assert q in after.Keys;
      }
    }
  }

  /** Whatever the user IDs are, approving leaves an index that a rebuild could have left. */
  lemma ApproveKeepsRebuilt(s: Server, userID: string, b: Binding)
    requires Rebuilt(s.mirrors, Flat(s.users))
    ensures Rebuilt(Approve(s, userID, b).mirrors, Flat(Approve(s, userID, b).users))
  {
    FlatApprove(s, userID, b);
    RebuiltExtend(s.mirrors, Flat(s.users), (userID, b.resourceID), b.path);
  }

  /** No other pair shares this pair's key, except with the same path. */
  ghost predicate Unclashing(flat: map<Pair, string>, p: Pair, path: string) {
    forall q :: q in flat && q != p && KeyOf(q) == KeyOf(p) ==> flat[q] == path
  }

  lemma AgreesIsRebuilt(s: Server)
    requires Agrees(s)
    ensures Rebuilt(s.mirrors, Flat(s.users)) && PathsShared(Flat(s.users))
  {
    var flat := Flat(s.users);
    forall k | k in s.mirrors ensures exists p :: p in flat.Keys && k == KeyOf(p) && s.mirrors[k] == flat[p] {
      var p :| p in flat && k == KeyOf(p) && s.mirrors[k] == flat[p];
      assert p in flat.Keys;
    }
  }

  lemma SharedExtendIff(flat: map<Pair, string>, p: Pair, path: string)
    requires PathsShared(flat)
    ensures PathsShared(flat[p := path]) <==> Unclashing(flat, p, path)
  {
    var after := flat[p := path];
    if PathsShared(after) {
      forall q | q in flat && q != p && KeyOf(q) == KeyOf(p) ensures flat[q] == path {
        assert q in after && p in after && after[q] == after[p];
      }
    }
  }

  /** Approving a binding keeps the agreement if and only if every other pair with its key has its path. */
  lemma ApproveAgreesIff(s: Server, userID: string, b: Binding)
    requires Agrees(s)
    ensures Agrees(Approve(s, userID, b)) <==> Unclashing(Flat(s.users), (userID, b.resourceID), b.path)
  {
    var t := Approve(s, userID, b);
    AgreesIsRebuilt(s);
    ApproveKeepsRebuilt(s, userID, b);
    RebuildAgreesIff(t.mirrors, t.users);
    FlatApprove(s, userID, b);
    SharedExtendIff(Flat(s.users), (userID, b.resourceID), b.path);
  }

  /** In particular it does when no user ID has a NUL. */
  lemma ApproveKeeps(s: Server, userID: string, b: Binding)
    requires Agrees(s) && NulFreeUsers(s.users) && NulFree(userID)
    ensures Agrees(Approve(s, userID, b)) && NulFreeUsers(Approve(s, userID, b).users)
  {
    var t := Approve(s, userID, b);
    UsersKeysApart(t.users);
    AgreesIsRebuilt(s);
    ApproveKeepsRebuilt(s, userID, b);
    RebuildAgreesIff(t.mirrors, t.users);
  }

  datatype Op =
    | ApproveOp(userID: string, binding: Binding)
    | ImportOp(userID: string, resources: Resources)

  /** What an operation can leave: importing rebuilds the index in an arbitrary order. */
  ghost predicate After(s: Server, op: Op, t: Server) {
    match op
    case ApproveOp(u, b) => t == Approve(s, u, b)
    case ImportOp(u, rs) => t.users == s.users[u := rs] && Rebuilt(t.mirrors, Flat(t.users))
  }

  lemma OpKeeps(s: Server, op: Op, t: Server)
    requires Rebuilt(s.mirrors, Flat(s.users)) && After(s, op, t)
    ensures Rebuilt(t.mirrors, Flat(t.users))
  {
    if op.ApproveOp? {
      ApproveKeepsRebuilt(s, op.userID, op.binding);
    }
  }

  /** A new server, or one that has just loaded and indexed its configuration. */
  ghost predicate Started(s: Server) {
    s == Server(map[], map[]) || Rebuilt(s.mirrors, Flat(s.users))
  }

  lemma StartRebuilt(s: Server)
    requires Started(s)
    ensures Rebuilt(s.mirrors, Flat(s.users))
  {
    if s == Server(map[], map[]) {
      assert Flat(s.users) == map[];
    }
  }

  /** A run: each state follows from the one before by an operation. */
  ghost predicate IsRun(states: seq<Server>, ops: seq<Op>) {
    |states| == |ops| + 1 && forall i :: 0 <= i < |ops| ==> StepAt(states, ops, i)
  }

  ghost predicate StepAt(states: seq<Server>, ops: seq<Op>, i: nat)
    requires i < |ops| && i + 1 < |states|
  {
    After(states[i], ops[i], states[i + 1])
  }

  /** What every operation keeps, every run keeps. */
  lemma {:induction false} RunInduction(states: seq<Server>, ops: seq<Op>, k: nat, keeps: Server -> bool)
    requires IsRun(states, ops) && k < |states| && keeps(states[0])
    requires forall s, op, t :: After(s, op, t) && keeps(s) ==> keeps(t)
    ensures keeps(states[k])
  {
    if k > 0 {
      RunInduction(states, ops, k - 1, keeps);
      assert StepAt(states, ops, k - 1);
    }
  }

  lemma RunKeeps(states: seq<Server>, ops: seq<Op>, k: nat)
    requires IsRun(states, ops) && k < |states| && Rebuilt(states[0].mirrors, Flat(states[0].users))
    ensures Rebuilt(states[k].mirrors, Flat(states[k].users))
  {
    forall s, op, t | After(s, op, t) && Rebuilt(s.mirrors, Flat(s.users)) ensures Rebuilt(t.mirrors, Flat(t.users)) {
      OpKeeps(s, op, t);
    }
    RunInduction(states, ops, k, (s: Server) => Rebuilt(s.mirrors, Flat(s.users)));
  }

  lemma {:induction false} RunNulFree(states: seq<Server>, ops: seq<Op>, k: nat)
    requires IsRun(states, ops) && k < |states| && NulFreeUsers(states[0].users)
    requires forall i :: 0 <= i < |ops| ==> NulFree(ops[i].userID)
    ensures NulFreeUsers(states[k].users)
  {
    if k > 0 {
      RunNulFree(states, ops, k - 1);
      assert StepAt(states, ops, k - 1);
      NulFreeStep(states[k - 1], ops[k - 1], states[k]);
    }
  }

  lemma NulFreeStep(s: Server, op: Op, t: Server)
    requires After(s, op, t) && NulFreeUsers(s.users) && NulFree(op.userID)
    ensures NulFreeUsers(t.users)
  {
  }

  /**
    When the index is right. From an empty server, or one that has just loaded and indexed
    its configuration, in every state of every run, whatever the user IDs: the index agrees
    with the configuration if and only if pairs that share a joined key have the same path,
    and it has one entry per (user, resource) if and only if no two pairs share a key.
   */
  lemma IndexAgreesIff(states: seq<Server>, ops: seq<Op>, k: nat)
    requires IsRun(states, ops) && k < |states| && Started(states[0])
    ensures Agrees(states[k]) <==> PathsShared(Flat(states[k].users))
    ensures |states[k].mirrors| == |Flat(states[k].users)| <==> KeysApart(Flat(states[k].users))
  {
    StartRebuilt(states[0]);
    RunKeeps(states, ops, k);
    RebuildAgreesIff(states[k].mirrors, states[k].users);
    RebuildCountsIff(states[k].mirrors, states[k].users);
  }

  /** So with user IDs that have no NUL it always agrees, with exactly one entry per (user, resource). */
  lemma IndexAgrees(states: seq<Server>, ops: seq<Op>, k: nat)
    requires IsRun(states, ops) && k < |states| && Started(states[0])
    requires NulFreeUsers(states[0].users) && forall i :: 0 <= i < |ops| ==> NulFree(ops[i].userID)
    ensures Agrees(states[k]) && |states[k].mirrors| == |Flat(states[k].users)|
  {
    RunNulFree(states, ops, k);
    UsersKeysApart(states[k].users);
    IndexAgreesIff(states, ops, k);
  }

  /** The migrated users are the administrator, with every legacy folder under its resource ID. */
  lemma MigratedIs(legacy: map<string, string>)
    ensures MigratedUsers(legacy) == map[] <==> legacy == map[]
    ensures forall p: Pair :: (p in Flat(MigratedUsers(legacy)) <==> p.0 == "admin" && p.1 in legacy)
                              && (p in Flat(MigratedUsers(legacy)) ==> Flat(MigratedUsers(legacy))[p] == legacy[p.1])
  {
    var users := MigratedUsers(legacy);
    assert legacy != map[] ==> "admin" in users;
    forall p: Pair
      ensures p in Flat(users) <==> p.0 == "admin" && p.1 in legacy
      ensures p in Flat(users) ==> Flat(users)[p] == legacy[p.1]
    {
      FlatAt(users, p);
    }
  }

  lemma MigratedFlat(legacy: map<string, string>)
    ensures Flat(MigratedUsers(legacy)) == map[] <==> legacy == map[]
  {
    MigratedIs(legacy);
    if legacy != map[] {
      var id :| id in legacy;
      assert ("admin", id) in Flat(MigratedUsers(legacy));
    }
  }

  /**
    The branch of a first start without a configuration file installs the migrated users
    and leaves the new server's index empty, so they agree only if nothing was migrated.
   */
  lemma MigratedAgreesIff(legacy: map<string, string>)
    ensures Agrees(Server(MigratedUsers(legacy), map[])) <==> legacy == map[]
  {
    var none: map<string, string> := map[];
    var flat := Flat(MigratedUsers(legacy));
    MigratedFlat(legacy);
    if legacy != map[] {
      var p :| p in flat;
      assert KeyOf(p) !in none;
    }
  }
}

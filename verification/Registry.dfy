/** Swarm configuration: servers, bots and groups, each call validated on the spot.

    `Valid` is the invariant of the builder: the two bot maps are inverse to each other,
    every reference resolves, every limit is respected, and the automatic id is fresh.
    Text is a string of UTF-8 bytes, one character per byte, so lengths count bytes. */
module Registry {
  import opened Basics

  const MAX_BOTS: nat := 20_000
  const MAX_GROUPS: nat := 4_000
  const MAX_BOTS_PER_GROUP: nat := 20_000
  const MAX_NAME_LEN: nat := 256
  const MAX_USERNAME_LEN: nat := 64
  const MAX_LABEL_LEN: nat := 256

  datatype ServerDef = ServerDef(name: string, host: string, port: nat, viewDistance: int)

  datatype BotDef = BotDef(id: U32, username: string, server: string, proxy: Option<string>, tag: Option<string>)

  datatype BotSpec = BotSpec(id: Option<U32>, username: string, server: string, proxy: Option<string>, tag: Option<string>)

  datatype GroupDef = GroupDef(name: string, botIds: seq<U32>)

  datatype RegistryError =
    | DuplicateServer(name: string)
    | DuplicateBotId(id: U32)
    | DuplicateUsername(username: string)
    | DuplicateGroup(name: string)
    | UnknownServer(name: string)
    | UnknownProxy(name: string)
    | InvalidConfiguration

  datatype Result<T> = Ok(value: T) | Err(error: RegistryError)

  function SaturatingNext(id: U32): U32 {
    if id == U32_MAX then U32_MAX else id + 1
  }

  // ---------------------------------------------------------------------- invariants

  type Servers = map<string, ServerDef>
  type Bots = map<U32, BotDef>
  type Usernames = map<string, U32>
  type Groups = map<string, GroupDef>

  predicate BotListed(bots: Bots, names: Usernames, id: U32) {
    id in bots ==> bots[id].id == id && bots[id].username in names && names[bots[id].username] == id
  }

  predicate NameListed(bots: Bots, names: Usernames, u: string) {
    u in names ==> names[u] in bots && bots[names[u]].username == u
  }

  /** The two bot maps are inverse to each other. */
  ghost predicate Inverse(bots: Bots, names: Usernames) {
    (forall id: U32 :: BotListed(bots, names, id)) && (forall u: string :: NameListed(bots, names, u))
  }

  predicate GoodServer(s: ServerDef) {
    0 < |s.name| <= MAX_NAME_LEN && s.host != "" && 2 <= s.viewDistance <= 32
  }

  predicate GoodBot(b: BotDef, servers: Servers, proxies: set<string>) {
    && 0 < |b.username| <= MAX_USERNAME_LEN
    && (b.tag.Some? ==> |b.tag.value| <= MAX_LABEL_LEN)
    && b.server in servers
    && (b.proxy.Some? ==> b.proxy.value in proxies)
  }

  ghost predicate GoodGroup(g: GroupDef, bots: Bots) {
    0 < |g.name| <= MAX_NAME_LEN && |g.botIds| <= MAX_BOTS_PER_GROUP && forall id <- g.botIds :: id in bots
  }

  predicate ServerOk(servers: Servers, n: string) {
    n in servers ==> servers[n].name == n && GoodServer(servers[n])
  }

  predicate BotOk(servers: Servers, proxies: set<string>, bots: Bots, id: U32) {
    id in bots ==> GoodBot(bots[id], servers, proxies)
  }

  ghost predicate GroupOk(groups: Groups, bots: Bots, n: string) {
    n in groups ==> groups[n].name == n && GoodGroup(groups[n], bots)
  }

  ghost predicate GroupsOk(groups: Groups, bots: Bots) {
    forall n: string :: GroupOk(groups, bots, n)
  }

  ghost predicate Consistent(servers: Servers, proxies: set<string>, bots: Bots, names: Usernames, groups: Groups) {
    && (forall n: string :: ServerOk(servers, n))
    && Inverse(bots, names)
    && (forall id: U32 :: BotOk(servers, proxies, bots, id))
    && GroupsOk(groups, bots)
    && |bots| <= MAX_BOTS && |groups| <= MAX_GROUPS
  }

  predicate IdUnder(ids: set<U32>, next: U32, id: U32) {
    id in ids ==> id < next
  }

  /** The automatic id is above all these ids, or has run out of room. */
  ghost predicate Fresh(ids: set<U32>, nextAutoId: U32) {
    nextAutoId == U32_MAX || forall id: U32 :: IdUnder(ids, nextAutoId, id)
  }

  predicate Avoids(groups: Groups, id: U32, n: string) {
    n in groups ==> id !in groups[n].botIds
  }

  ghost predicate InNoGroup(id: U32, groups: Groups) {
    forall n: string :: Avoids(groups, id, n)
  }

  /** The bot map determines the username map. */
  lemma InverseIsUnique(bots: Bots, a: Usernames, b: Usernames)
    requires Inverse(bots, a) && Inverse(bots, b)
    ensures a == b
  {
    forall u
      ensures u in a ==> u in b && b[u] == a[u]
      ensures u in b ==> u in a && b[u] == a[u]
    {
      assert NameListed(bots, a, u) && NameListed(bots, b, u);
      if u in a {
        assert BotListed(bots, b, a[u]);
      }
      if u in b {
        assert BotListed(bots, a, b[u]);
      }
    }
  }

  /** Two bots never share a name, and a name never has two bots. */
  lemma InverseIsBijective(bots: Bots, names: Usernames, i: U32, j: U32)
    requires Inverse(bots, names) && i in bots && j in bots
    ensures bots[i].username == bots[j].username <==> i == j
    ensures |bots| == |names|
  {
    assert BotListed(bots, names, i) && BotListed(bots, names, j);
    forall u: string
      ensures u in names <==> exists id :: id in bots && bots[id].username == u
    {
      assert NameListed(bots, names, u);
      if id: U32 :| id in bots && bots[id].username == u {
        assert BotListed(bots, names, id);
      }
    }
    CardOfNames(bots, bots.Keys, names);
    assert names.Keys == set id | id in bots.Keys :: bots[id].username;
  }

  lemma {:induction false} CardOfNames(bots: Bots, ids: set<U32>, names: Usernames)
    requires Inverse(bots, names) && ids <= bots.Keys
    ensures |set id | id in ids :: bots[id].username| == |ids|
  {
    if ids != {} {
      var id :| id in ids;
      var rest := set x | x in ids - {id} :: bots[x].username;
      CardOfNames(bots, ids - {id}, names);
      forall x | x in ids - {id}
        ensures bots[x].username != bots[id].username
      {
        assert BotListed(bots, names, x) && BotListed(bots, names, id);
      }
      assert (set x | x in ids :: bots[x].username) == rest + {bots[id].username};
    }
  }

  // -------------------------------------------------------- what is wrong with a call

  function ServerProblem(s: ServerDef, servers: Servers): Option<RegistryError> {
    if !GoodServer(s) then Some(InvalidConfiguration)
    else if s.name in servers then Some(DuplicateServer(s.name))
    else None
  }

  function BotProblem(spec: BotSpec, servers: Servers, proxies: set<string>, bots: Bots, names: Usernames): Option<RegistryError> {
    if !(0 < |spec.username| <= MAX_USERNAME_LEN) then Some(InvalidConfiguration)
    else if spec.tag.Some? && |spec.tag.value| > MAX_LABEL_LEN then Some(InvalidConfiguration)
    else if spec.server !in servers then Some(UnknownServer(spec.server))
    else if spec.proxy.Some? && spec.proxy.value !in proxies then Some(UnknownProxy(spec.proxy.value))
    else if spec.username in names then Some(DuplicateUsername(spec.username))
    else if |bots| >= MAX_BOTS then Some(InvalidConfiguration)
    else if spec.id.Some? && spec.id.value in bots then Some(DuplicateBotId(spec.id.value))
    else None
  }

  /** Which error a new bot gets: each says what is wrong, and only if nothing before it is. */
  lemma BotProblemMeans(spec: BotSpec, servers: Servers, proxies: set<string>, bots: Bots, names: Usernames)
    ensures
      var e := BotProblem(spec, servers, proxies, bots, names);
      var named := 1 <= |spec.username| <= 64 && (spec.tag.Some? ==> |spec.tag.value| <= 256);
      var reachable := spec.server in servers && (spec.proxy.Some? ==> spec.proxy.value in proxies);
      && (e == Some(UnknownServer(spec.server)) <==> named && spec.server !in servers)
      && (spec.proxy.Some? ==>
            (e == Some(UnknownProxy(spec.proxy.value)) <==> named && spec.server in servers && spec.proxy.value !in proxies))
      && (e == Some(DuplicateUsername(spec.username)) <==> named && reachable && spec.username in names)
      && (spec.id.Some? ==>
            (e == Some(DuplicateBotId(spec.id.value)) <==>
             named && reachable && spec.username !in names && |bots| < 20000 && spec.id.value in bots))
      && (e == Some(InvalidConfiguration) <==> !named || (reachable && spec.username !in names && |bots| >= 20000))
      && (e == None <==>
            named && reachable && spec.username !in names && |bots| < 20000 && (spec.id.Some? ==> spec.id.value !in bots))
  {
  }

  predicate NewGroupName(name: string, groups: Groups) {
    0 < |name| <= MAX_NAME_LEN && name !in groups && |groups| < MAX_GROUPS
  }

  predicate GroupAcceptable(name: string, ids: seq<U32>, bots: Bots, groups: Groups) {
    NewGroupName(name, groups) && |ids| <= MAX_BOTS_PER_GROUP && forall id <- ids :: id in bots
  }

  // ------------------------------------------------------------------------- builder

  datatype SwarmRegistry = SwarmRegistry(servers: Servers, bots: Bots, usernames: Usernames, groups: Groups)

  class SwarmRegistryBuilder {
    var servers: Servers
    const proxyProfileIds: set<string>
    var bots: Bots
    var usernameToId: Usernames
    var groups: Groups
    var nextAutoId: U32
    /** Every id that was ever given to a bot, removed ones included. */
    ghost var used: set<U32>

    ghost predicate Valid()
      reads this
    {
      && Consistent(servers, proxyProfileIds, bots, usernameToId, groups)
      && bots.Keys <= used && Fresh(used, nextAutoId)
    }

    constructor (proxies: set<string>)
      ensures Valid() && proxyProfileIds == proxies
      ensures servers == map[] && bots == map[] && usernameToId == map[] && groups == map[] && nextAutoId == 0
      ensures used == {}
    {
      proxyProfileIds := proxies;
      servers, bots, usernameToId, groups, nextAutoId, used := map[], map[], map[], map[], 0, {};
    }

    method AddServer(def: ServerDef) returns (r: Result<()>)
      requires Valid()
      modifies `servers
      ensures Valid()
      ensures match ServerProblem(def, old(servers))
              case Some(e) => r == Err(e) && servers == old(servers)
              case None => r == Ok(()) && servers == old(servers)[def.name := def]
      ensures r.Ok? <==> 1 <= |def.name| <= 256 && |def.host| >= 1 && 2 <= def.viewDistance <= 32 && def.name !in old(servers)
      ensures r == Err(DuplicateServer(def.name)) <==>
              1 <= |def.name| <= 256 && |def.host| >= 1 && 2 <= def.viewDistance <= 32 && def.name in old(servers)
    {
      if def.name == "" || |def.name| > MAX_NAME_LEN {
        return Err(InvalidConfiguration);
      }
      if def.host == "" || !(2 <= def.viewDistance <= 32) {
        return Err(InvalidConfiguration);
      }
      if def.name in servers {
        return Err(DuplicateServer(def.name));
      }
      ServerInserted(servers, proxyProfileIds, bots, usernameToId, groups, def);
      servers := servers[def.name := def];
      r := Ok(());
    }

    /** Searches for a free id from `nextAutoId` up.  The first one is taken; an error
        means that none is left. */
    method AllocateId() returns (r: Result<U32>)
      modifies `nextAutoId
      ensures r.Ok? ==>
                && old(nextAutoId) <= r.value && r.value !in bots && nextAutoId == SaturatingNext(r.value)
                && forall id: U32 :: old(nextAutoId) <= id < r.value ==> id in bots
      ensures r.Err? ==> r.error == InvalidConfiguration && nextAutoId == U32_MAX
                         && forall id: U32 :: old(nextAutoId) <= id ==> id in bots
    {
      while true
        invariant old(nextAutoId) <= nextAutoId
        invariant forall id: U32 :: old(nextAutoId) <= id < nextAutoId ==> id in bots
        decreases U32_MAX - nextAutoId
      {
        if nextAutoId !in bots {
          var id := nextAutoId;
          nextAutoId := SaturatingNext(nextAutoId);
          return Ok(id);
        }
        if nextAutoId == U32_MAX {
          return Err(InvalidConfiguration);
        }
        nextAutoId := nextAutoId + 1;
      }
    }

    /** A rejected call changes nothing.  An accepted one adds exactly one bot under a new
        id: the requested one, or else the automatic one, which is free on the first try
        unless ids have run out. */
    method AddBot(spec: BotSpec) returns (r: Result<U32>)
      requires Valid()
      modifies `bots, `usernameToId, `nextAutoId, `used
      ensures Valid()
      ensures r == match BotProblem(spec, servers, proxyProfileIds, old(bots), old(usernameToId))
                   case Some(e) => Err(e)
                   case None =>
                     if spec.id.Some? then Ok(spec.id.value)
                     else if old(nextAutoId) in old(bots) then Err(InvalidConfiguration)
                     else Ok(old(nextAutoId))
      ensures r.Err? ==> bots == old(bots) && usernameToId == old(usernameToId) && nextAutoId == old(nextAutoId)
      ensures r.Ok? ==>
                && r.value !in old(bots)
                && bots == old(bots)[r.value := BotDef(r.value, spec.username, spec.server, spec.proxy, spec.tag)]
                && usernameToId == old(usernameToId)[spec.username := r.value]
                && nextAutoId == if old(nextAutoId) <= r.value then SaturatingNext(r.value) else old(nextAutoId)
      ensures used == if r.Ok? then old(used) + {r.value} else old(used)
      ensures r.Ok? ==> (r.value in old(used) <==> if spec.id.Some? then spec.id.value in old(used) else U32_MAX in old(used))
      ensures spec.id == None && old(nextAutoId) in old(used) ==> old(nextAutoId) == U32_MAX
    {
      AutomaticIsNew(used, nextAutoId);
      var problem := Check(spec);
      if problem.Some? {
        return Err(problem.value);
      }
      var found := PickId(spec.id);
      if found.Err? {
        return found;
      }
      var id := found.value;
      var def := BotDef(id, spec.username, spec.server, spec.proxy, spec.tag);
      BotInserted(servers, proxyProfileIds, bots, usernameToId, groups, def);
      usernameToId := usernameToId[spec.username := id];
      bots, used := bots[id := def], used + {id};
      r := Ok(id);
    }

    /** The checks of a new bot, in the order in which their errors are reported. */
    method Check(spec: BotSpec) returns (problem: Option<RegistryError>)
      ensures problem == BotProblem(spec, servers, proxyProfileIds, bots, usernameToId)
    {
      if spec.username == "" || |spec.username| > MAX_USERNAME_LEN {
        return Some(InvalidConfiguration);
      }
      if spec.tag.Some? && |spec.tag.value| > MAX_LABEL_LEN {
        return Some(InvalidConfiguration);
      }
      if spec.server !in servers {
        return Some(UnknownServer(spec.server));
      }
      if spec.proxy.Some? && spec.proxy.value !in proxyProfileIds {
        return Some(UnknownProxy(spec.proxy.value));
      }
      if spec.username in usernameToId {
        return Some(DuplicateUsername(spec.username));
      }
      if |bots| >= MAX_BOTS {
        return Some(InvalidConfiguration);
      }
      if spec.id.Some? && spec.id.value in bots {
        return Some(DuplicateBotId(spec.id.value));
      }
      problem := None;
    }

    /** The requested id, or the automatic one; afterwards the automatic id is above it. */
    method PickId(wanted: Option<U32>) returns (r: Result<U32>)
      requires bots.Keys <= used && Fresh(used, nextAutoId) && (wanted.Some? ==> wanted.value !in bots)
      modifies `nextAutoId
      ensures r == if wanted.Some? then Ok(wanted.value)
                   else if old(nextAutoId) in bots then Err(InvalidConfiguration)
                   else Ok(old(nextAutoId))
      ensures r.Err? ==> nextAutoId == old(nextAutoId)
      ensures r.Ok? ==>
                && r.value !in bots
                && nextAutoId == (if old(nextAutoId) <= r.value then SaturatingNext(r.value) else old(nextAutoId))
                && Fresh(used + {r.value}, nextAutoId)
      ensures wanted == None && old(nextAutoId) in used ==> old(nextAutoId) == U32_MAX
    {
      AutomaticIsNew(used, nextAutoId);
      match wanted {
        case Some(id) => r := Ok(id);
        case None =>
          r := AllocateId();
          if r.Err? {
            assert old(nextAutoId) in bots;
            return;
          }
      }
      nextAutoId := if nextAutoId <= SaturatingNext(r.value) then SaturatingNext(r.value) else nextAutoId;
      StaysFresh(used, old(nextAutoId), r.value, nextAutoId);
    }

    /** Undoes an addition.  The builder stays consistent exactly when no group names the
        removed bot; the automatic id is not wound back. */
    method RemoveBot(id: U32) returns (removed: bool)
      requires Valid()
      modifies `bots, `usernameToId
      ensures removed == (id in old(bots))
      ensures bots == old(bots) - {id}
      ensures usernameToId == if removed then old(usernameToId) - {old(bots)[id].username} else old(usernameToId)
      ensures Inverse(bots, usernameToId)
      ensures Valid() <==> !removed || InNoGroup(id, groups)
    {
      removed := id in bots;
      if !removed {
        assert bots - {id} == bots;
        return;
      }
      BotDropped(servers, proxyProfileIds, bots, usernameToId, groups, id);
      usernameToId := usernameToId - {bots[id].username};
      bots := bots - {id};
    }

    method AddGroup(name: string, botIds: seq<U32>) returns (r: Result<()>)
      requires Valid()
      modifies `groups
      ensures Valid()
      ensures r.Ok? <==> GroupAcceptable(name, botIds, bots, old(groups))
      ensures r.Ok? <==>
              && 1 <= |name| <= 256 && name !in old(groups) && |old(groups)| < 4_000
              && |botIds| <= 20_000 && forall id <- botIds :: id in bots
      ensures groups == if r.Ok? then old(groups)[name := GroupDef(name, botIds)] else old(groups)
      ensures r.Err? ==>
                r.error == if 0 < |name| <= MAX_NAME_LEN && |botIds| <= MAX_BOTS_PER_GROUP && name in groups
                           then DuplicateGroup(name) else InvalidConfiguration
    {
      if name == "" || |name| > MAX_NAME_LEN || |botIds| > MAX_BOTS_PER_GROUP {
        return Err(InvalidConfiguration);
      }
      if name in groups {
        return Err(DuplicateGroup(name));
      }
      if |groups| >= MAX_GROUPS {
        return Err(InvalidConfiguration);
      }
      for i := 0 to |botIds|
        invariant forall j :: 0 <= j < i ==> botIds[j] in bots
      {
        if botIds[i] !in bots {
          return Err(InvalidConfiguration);
        }
      }
      GroupInserted(servers, proxyProfileIds, bots, usernameToId, groups, GroupDef(name, botIds));
      groups := groups[name := GroupDef(name, botIds)];
      r := Ok(());
    }

    /** The bulk call: `count` bots with numbered names, and a group of them.  It is all or
        nothing: it succeeds exactly when every bot and the group are acceptable, and then
        adds them under consecutive ids; otherwise the bots added so far are removed again,
        and both bot maps and the groups are what they were. */
    method AddGroupOfBots(name: string, count: nat, prefix: string, server: string, proxy: Option<string>,
                          tagPrefix: Option<string>) returns (r: Result<()>)
      requires Valid()
      modifies `bots, `usernameToId, `groups, `nextAutoId, `used
      ensures Valid()
      ensures r.Ok? <==>
              && count <= MAX_BOTS_PER_GROUP
              && BulkAcceptable(Bulk(Numbered(prefix, tagPrefix, count), server, proxy), count, servers, proxyProfileIds,
                                old(bots), old(usernameToId), old(nextAutoId))
              && NewGroupName(name, old(groups))
      ensures r.Err? ==> bots == old(bots) && usernameToId == old(usernameToId) && groups == old(groups)
      ensures r.Ok? ==>
                var bulk := Bulk(Numbered(prefix, tagPrefix, count), server, proxy);
                && BulkDone(bulk, count, old(bots), old(usernameToId), old(nextAutoId), bots, usernameToId)
                && GroupAdded(name, old(nextAutoId), count, old(groups), groups)
    {
      if count > MAX_BOTS_PER_GROUP {
        return Err(InvalidConfiguration);
      }
      NumberedNamesDistinct(prefix, tagPrefix, count);
      r := AddBulk(name, Bulk(Numbered(prefix, tagPrefix, count), server, proxy));
    }

    method AddBulk(name: string, bulk: Bulk) returns (r: Result<()>)
      requires Valid() && Distinct(bulk.members) && |bulk.members| <= MAX_BOTS_PER_GROUP
      modifies `bots, `usernameToId, `groups, `nextAutoId, `used
      ensures Valid()
      ensures r.Ok? <==>
              && BulkAcceptable(bulk, |bulk.members|, servers, proxyProfileIds, old(bots), old(usernameToId), old(nextAutoId))
              && NewGroupName(name, old(groups))
      ensures r.Err? ==> bots == old(bots) && usernameToId == old(usernameToId) && groups == old(groups)
      ensures r.Ok? ==>
                && BulkDone(bulk, |bulk.members|, old(bots), old(usernameToId), old(nextAutoId), bots, usernameToId)
                && GroupAdded(name, old(nextAutoId), |bulk.members|, old(groups), groups)
    {
      var added := AddAll(bulk);
      if added.Err? {
        return Err(added.error);
      }
      r := GroupOrRollBack(name, added.value, old(bots), old(usernameToId));
    }

    /** The group of a finished batch, or no batch. */
    method GroupOrRollBack(name: string, ids: seq<U32>, ghost bots0: Bots, ghost names0: Usernames) returns (r: Result<()>)
      requires Valid() && Batch(bots, bots0, ids, 0) && Inverse(bots0, names0)
      requires |ids| <= MAX_BOTS_PER_GROUP && forall id <- ids :: id in bots
      requires GroupsOk(groups, bots0)
      modifies `bots, `usernameToId, `groups
      ensures Valid() && (r.Ok? <==> NewGroupName(name, old(groups)))
      ensures r.Ok? ==> bots == old(bots) && usernameToId == old(usernameToId)
      ensures r.Err? ==> bots == bots0 && usernameToId == names0
      ensures groups == if r.Ok? then old(groups)[name := GroupDef(name, ids)] else old(groups)
    {
      r := AddGroup(name, ids);
      if r.Err? {
        RollBack(ids, bots0, names0);
      }
    }

    /** All the bots of a bulk call, or none of them. */
    method AddAll(bulk: Bulk) returns (r: Result<seq<U32>>)
      requires Valid() && Distinct(bulk.members)
      modifies `bots, `usernameToId, `nextAutoId, `used
      ensures Valid()
      ensures r.Ok? <==>
              BulkAcceptable(bulk, |bulk.members|, servers, proxyProfileIds, old(bots), old(usernameToId), old(nextAutoId))
      ensures r.Err? ==> bots == old(bots) && usernameToId == old(usernameToId)
      ensures r.Ok? ==>
                && CountsUp(r.value, old(nextAutoId), |bulk.members|)
                && BulkDone(bulk, |bulk.members|, old(bots), old(usernameToId), old(nextAutoId), bots, usernameToId)
                && Batch(bots, old(bots), r.value, 0) && forall id <- r.value :: id in bots
    {
      FewerFresh(bots.Keys, used, nextAutoId);
      var ids, problem := AddWhilePossible(bulk);
      BulkIsBatch(bulk, old(bots), old(nextAutoId), ids);
      if problem.Some? {
        BulkStuck(bulk, |ids| + 1, servers, proxyProfileIds, old(bots), old(usernameToId), old(nextAutoId));
        RollBack(ids, old(bots), old(usernameToId));
        r := Err(problem.value);
      } else {
        r := Ok(ids);
      }
    }

    /** `i` bots of a bulk call have been added to what was there before it. */
    ghost predicate Ongoing(bulk: Bulk, i: nat, bots0: Bots, names0: Usernames, next0: U32)
      reads this
    {
      && Valid() && Fresh(bots0.Keys, next0) && Distinct(bulk.members)
      && BulkDone(bulk, i, bots0, names0, next0, bots, usernameToId)
      && BulkAcceptable(bulk, i, servers, proxyProfileIds, bots0, names0, next0)
      && nextAutoId == NextAfter(next0, i)
    }

    /** The loop of a bulk call: adds bots until all are there or one is rejected. */
    method AddWhilePossible(bulk: Bulk) returns (ids: seq<U32>, problem: Option<RegistryError>)
      requires Valid() && Distinct(bulk.members)
      modifies `bots, `usernameToId, `nextAutoId, `used
      ensures Valid() && CountsUp(ids, old(nextAutoId), |ids|)
      ensures BulkDone(bulk, |ids|, old(bots), old(usernameToId), old(nextAutoId), bots, usernameToId)
      ensures BulkAcceptable(bulk, |ids|, servers, proxyProfileIds, old(bots), old(usernameToId), old(nextAutoId))
      ensures problem.None? <==> |ids| == |bulk.members|
      ensures problem.Some? ==>
                !BulkAcceptable(bulk, |ids| + 1, servers, proxyProfileIds, old(bots), old(usernameToId), old(nextAutoId))
    {
      ids, problem := [], None;
      NothingDone(bulk, servers, proxyProfileIds, bots, usernameToId, nextAutoId);
      FewerFresh(bots.Keys, used, nextAutoId);
      while |ids| < |bulk.members|
        invariant problem == None && Added(bulk, ids, old(bots), old(usernameToId), old(nextAutoId))
      {
        ids, problem := AddNext(bulk, ids, old(bots), old(usernameToId), old(nextAutoId));
        if problem.Some? {
          return;
        }
      }
    }

    /** These ids have been given to the first bots of a bulk call. */
    ghost predicate Added(bulk: Bulk, ids: seq<U32>, bots0: Bots, names0: Usernames, next0: U32)
      reads this
    {
      CountsUp(ids, next0, |ids|) && Ongoing(bulk, |ids|, bots0, names0, next0)
    }

    /** One more bot of a bulk call, or the reason why not. */
    method AddNext(bulk: Bulk, ids: seq<U32>, ghost bots0: Bots, ghost names0: Usernames, ghost next0: U32)
      returns (more: seq<U32>, problem: Option<RegistryError>)
      requires Added(bulk, ids, bots0, names0, next0) && |ids| < |bulk.members|
      modifies `bots, `usernameToId, `nextAutoId, `used
      ensures Added(bulk, more, bots0, names0, next0)
      ensures |more| == |ids| + if problem.None? then 1 else 0
      ensures problem.Some? ==> !BulkAcceptable(bulk, |ids| + 1, servers, proxyProfileIds, bots0, names0, next0)
    {
      var added := AddMember(bulk, |ids|, bots0, names0, next0);
      match added
      case Err(e) => more, problem := ids, Some(e);
      case Ok(id) =>
        CountsUpPush(ids, next0, id);
        more, problem := ids + [id], None;
    }

    method AddMember(bulk: Bulk, i: nat, ghost bots0: Bots, ghost names0: Usernames, ghost next0: U32) returns (r: Result<U32>)
      requires Ongoing(bulk, i, bots0, names0, next0) && i < |bulk.members|
      modifies `bots, `usernameToId, `nextAutoId, `used
      ensures r.Ok? <==> BulkAcceptable(bulk, i + 1, servers, proxyProfileIds, bots0, names0, next0)
      ensures r.Err? ==> Ongoing(bulk, i, bots0, names0, next0)
      ensures r.Ok? ==> Ongoing(bulk, i + 1, bots0, names0, next0) && r.value == next0 + i
    {
      BulkStep(bulk, i, servers, proxyProfileIds, bots0, names0, next0);
      IdIsFree(bulk, i, bots0, next0);
      r := AddBot(BulkBot(bulk, i));
      if r.Ok? {
        OneMoreDone(bulk, i, bots0, names0, next0, old(bots), old(usernameToId));
      }
    }

    /** Removes the bots of an unfinished batch. */
    method RollBack(ids: seq<U32>, ghost bots0: Bots, ghost names0: Usernames)
      requires Valid() && Batch(bots, bots0, ids, 0) && Inverse(bots0, names0)
      requires GroupsOk(groups, bots0)
      modifies `bots, `usernameToId
      ensures Valid() && bots == bots0 && usernameToId == names0
    {
      for i := 0 to |ids|
        invariant Valid() && Batch(bots, bots0, ids, i)
      {
        RollBackOne(ids, i, bots0);
      }
      BatchEmpty(bots, bots0, ids);
      InverseIsUnique(bots, usernameToId, names0);
    }

    method RollBackOne(ids: seq<U32>, i: nat, ghost bots0: Bots)
      requires Valid() && i < |ids| && Batch(bots, bots0, ids, i) && GroupsOk(groups, bots0)
      modifies `bots, `usernameToId
      ensures Valid() && Batch(bots, bots0, ids, i + 1)
    {
      BatchOutsideGroups(bots, bots0, ids, i, groups);
      BatchPop(bots, bots0, ids, i);
      var _ := RemoveBot(ids[i]);
    }

    method Build() returns (registry: SwarmRegistry)
      requires Valid()
      ensures registry == SwarmRegistry(servers, bots, usernameToId, groups)
      ensures Consistent(registry.servers, proxyProfileIds, registry.bots, registry.usernames, registry.groups)
    {
      registry := SwarmRegistry(servers, bots, usernameToId, groups);
    }
  }

  ghost predicate BatchOk(bots: Bots, base: Bots, ids: seq<U32>, i: nat, id: U32) {
    if id in base then id in bots && bots[id] == base[id] && !After(ids, i, id) else id in bots ==> After(ids, i, id)
  }

  ghost predicate After(ids: seq<U32>, i: nat, id: U32) {
    exists k :: i <= k < |ids| && ids[k] == id
  }

  /** `bots` is `base` plus bots with ids among `ids[i..]`, none of which is in `base`. */
  ghost predicate Batch(bots: Bots, base: Bots, ids: seq<U32>, i: nat) {
    forall id: U32 :: BatchOk(bots, base, ids, i, id)
  }

  // ----------------------------------------------------------------- bulk additions

  /** What the bots of a bulk call have in common. */
  datatype Bulk = Bulk(members: seq<Member>, server: string, proxy: Option<string>)

  datatype Member = Member(username: string, tag: Option<string>)

  /** Decimal notation. */
  function Decimal(n: nat): string {
    var digit := DIGITS[n % 10];
    if n < 10 then [digit] else Decimal(n / 10) + [digit]
  }

  const DIGITS := ['0', '1', '2', '3', '4', '5', '6', '7', '8', '9']

  lemma {:induction false} DecimalIsInjective(a: nat, b: nat)
    requires Decimal(a) == Decimal(b)
    ensures a == b
  {
    var s := Decimal(a);
    assert s[|s| - 1] == DIGITS[a % 10] && s[|s| - 1] == DIGITS[b % 10];
    assert a % 10 == b % 10;
    DecimalNotEmpty(a / 10);
    DecimalNotEmpty(b / 10);
    if a >= 10 && b >= 10 {
      assert s[..|s| - 1] == Decimal(a / 10) && s[..|s| - 1] == Decimal(b / 10);
      DecimalIsInjective(a / 10, b / 10);
    }
  }

  lemma DecimalNotEmpty(n: nat)
    ensures |Decimal(n)| > 0
  {
  }

  function DigitValue(c: char): int {
    c as int - '0' as int
  }

  /** What a string of decimal digits denotes. */
  function Denotes(s: string): int {
    if s == "" then 0 else Denotes(s[..|s| - 1]) * 10 + DigitValue(s[|s| - 1])
  }

  /** Decimal notation denotes the number, in digits, without leading zeros. */
  lemma {:induction false} DecimalDenotes(n: nat)
    ensures |Decimal(n)| > 0 && Denotes(Decimal(n)) == n
    ensures forall i :: 0 <= i < |Decimal(n)| ==> '0' <= Decimal(n)[i] <= '9'
    ensures Decimal(n)[0] == '0' ==> n == 0
  {
    DigitOf(n % 10);
    if n < 10 {
      assert Denotes("") == 0 && [DIGITS[n]][..0] == "";
    } else {
      DecimalDenotes(n / 10);
      assert Decimal(n)[..|Decimal(n)| - 1] == Decimal(n / 10);
    }
  }

  lemma DigitOf(d: nat)
    requires d < 10
    ensures '0' <= DIGITS[d] <= '9' && DigitValue(DIGITS[d]) == d
  {
  }

  /** The bots of a bulk call: prefixes and a running number. */
  function Numbered(prefix: string, tagPrefix: Option<string>, count: nat): seq<Member> {
    seq(count, k requires 0 <= k < count =>
      Member(prefix + Decimal(k), if tagPrefix.Some? then Some(tagPrefix.value + Decimal(k)) else None))
  }

  predicate Distinct(members: seq<Member>) {
    forall i, j :: 0 <= i < j < |members| ==> members[i].username != members[j].username
  }

  lemma NumberedNamesDistinct(prefix: string, tagPrefix: Option<string>, count: nat)
    ensures Distinct(Numbered(prefix, tagPrefix, count))
  {
    var members := Numbered(prefix, tagPrefix, count);
    forall i, j | 0 <= i < j < count
      ensures members[i].username != members[j].username
    {
      if members[i].username == members[j].username {
        assert members[i].username[|prefix|..] == Decimal(i) && members[j].username[|prefix|..] == Decimal(j);
        DecimalIsInjective(i, j);
      }
    }
  }

  predicate GoodMember(m: Member) {
    0 < |m.username| <= MAX_USERNAME_LEN && (m.tag.Some? ==> |m.tag.value| <= MAX_LABEL_LEN)
  }

  predicate Fits(m: Member, names: Usernames) {
    GoodMember(m) && m.username !in names
  }

  /** The server and the proxy of a bulk call are known. */
  predicate Reachable(bulk: Bulk, servers: Servers, proxies: set<string>) {
    bulk.server in servers && (bulk.proxy.Some? ==> bulk.proxy.value in proxies)
  }

  function BulkBot(bulk: Bulk, k: nat): BotSpec
    requires k < |bulk.members|
  {
    BotSpec(None, bulk.members[k].username, bulk.server, bulk.proxy, bulk.members[k].tag)
  }

  /** `count` ids from `next` on fit below the maximum. */
  predicate Room(next: nat, count: nat) {
    count == 0 || next + count - 1 <= U32_MAX
  }

  /** `ids` is `next`, `next + 1`, and so on, `count` of them. */
  predicate CountsUp(ids: seq<U32>, next: nat, count: nat) {
    |ids| == count && forall k :: 0 <= k < count ==> ids[k] == next + k
  }

  /** The one new group holds `count` ids from `next` on. */
  ghost predicate GroupAdded(name: string, next: nat, count: nat, before: Groups, after: Groups) {
    name in after && after == before[name := after[name]] && CountsUp(after[name].botIds, next, count)
  }

  function NextAfter(next: U32, count: nat): U32
    requires Room(next, count)
  {
    if count == 0 then next else SaturatingNext(next + count - 1)
  }

  function BulkBots(bulk: Bulk, bots: Bots, next: nat, count: nat): Bots
    requires Room(next, count) && count <= |bulk.members|
  {
    if count == 0 then bots
    else
      var k := count - 1;
      BulkBots(bulk, bots, next, k)[next + k := BotDef(next + k, bulk.members[k].username, bulk.server, bulk.proxy, bulk.members[k].tag)]
  }

  function BulkNames(bulk: Bulk, names: Usernames, next: nat, count: nat): Usernames
    requires Room(next, count) && count <= |bulk.members|
  {
    if count == 0 then names else BulkNames(bulk, names, next, count - 1)[bulk.members[count - 1].username := next + count - 1]
  }

  /** When all the bots of a bulk call can be added. */
  ghost predicate BulkAcceptable(bulk: Bulk, count: nat, servers: Servers, proxies: set<string>, bots: Bots, names: Usernames, next: U32)
    requires count <= |bulk.members|
  {
    count == 0 ||
    ( && Reachable(bulk, servers, proxies)
      && (forall k :: 0 <= k < count ==> Fits(bulk.members[k], names))
      && |bots| + count <= MAX_BOTS
      && next !in bots && Room(next, count))
  }

  /** The builder's maps after the first `count` bots of a bulk call. */
  ghost predicate BulkDone(bulk: Bulk, count: nat, bots0: Bots, names0: Usernames, next0: U32, bots: Bots, names: Usernames) {
    && count <= |bulk.members| && Room(next0, count)
    && bots == BulkBots(bulk, bots0, next0, count) && names == BulkNames(bulk, names0, next0, count)
  }

  lemma NothingDone(bulk: Bulk, servers: Servers, proxies: set<string>, bots: Bots, names: Usernames, next: U32)
    ensures BulkDone(bulk, 0, bots, names, next, bots, names) && NextAfter(next, 0) == next
    ensures BulkAcceptable(bulk, 0, servers, proxies, bots, names, next)
  {
  }

  lemma OneMoreDone(bulk: Bulk, i: nat, bots0: Bots, names0: Usernames, next: U32, bots: Bots, names: Usernames)
    requires BulkDone(bulk, i, bots0, names0, next, bots, names) && i < |bulk.members| && Room(next, i + 1)
    ensures
      var spec := BulkBot(bulk, i);
      BulkDone(bulk, i + 1, bots0, names0, next,
               bots[next + i := BotDef(next + i, spec.username, spec.server, spec.proxy, spec.tag)],
               names[spec.username := next + i])
  {
  }

  lemma CountsUpPush(ids: seq<U32>, next: nat, id: U32)
    requires CountsUp(ids, next, |ids|) && id == next + |ids|
    ensures CountsUp(ids + [id], next, |ids| + 1)
  {
  }

  /** If some of the bots are not acceptable, all of them are not. */
  lemma BulkStuck(bulk: Bulk, count: nat, servers: Servers, proxies: set<string>, bots: Bots, names: Usernames, next: U32)
    requires count <= |bulk.members| && !BulkAcceptable(bulk, count, servers, proxies, bots, names, next)
    ensures !BulkAcceptable(bulk, |bulk.members|, servers, proxies, bots, names, next)
  {
  }

  /** The bots after a bulk call: the old ones, and one for each id. */
  lemma {:induction false} BulkMembers(bulk: Bulk, bots: Bots, next: U32, count: nat)
    requires Room(next, count) && Fresh(bots.Keys, next) && (count > 0 ==> next !in bots) && count <= |bulk.members|
    ensures forall id: U32 :: id in BulkBots(bulk, bots, next, count) <==> id in bots || next <= id < next + count
    ensures |BulkBots(bulk, bots, next, count)| == |bots| + count
    ensures forall id <- bots :: BulkBots(bulk, bots, next, count)[id] == bots[id]
  {
    if count > 0 {
      BulkMembers(bulk, bots, next, count - 1);
      assert next == U32_MAX || IdUnder(bots.Keys, next, next + count - 1);
    }
  }

  /** Bot `k` of a bulk call has the `k`-th id, the `k`-th name and label, and the server and
      proxy of the call; and its name leads back to it. */
  lemma {:induction false} BulkBotAt(bulk: Bulk, bots: Bots, names: Usernames, next: U32, count: nat, k: nat)
    requires Room(next, count) && k < count <= |bulk.members| && Distinct(bulk.members)
    ensures next + k in BulkBots(bulk, bots, next, count)
    ensures BulkBots(bulk, bots, next, count)[next + k] ==
            BotDef(next + k, bulk.members[k].username, bulk.server, bulk.proxy, bulk.members[k].tag)
    ensures bulk.members[k].username in BulkNames(bulk, names, next, count)
    ensures BulkNames(bulk, names, next, count)[bulk.members[k].username] == next + k
  {
    if k < count - 1 {
      BulkBotAt(bulk, bots, names, next, count - 1, k);
    }
  }

  lemma BulkIsBatch(bulk: Bulk, bots: Bots, next: U32, ids: seq<U32>)
    requires Room(next, |ids|) && Fresh(bots.Keys, next) && (|ids| > 0 ==> next !in bots) && CountsUp(ids, next, |ids|)
    requires |ids| <= |bulk.members|
    ensures Batch(BulkBots(bulk, bots, next, |ids|), bots, ids, 0)
    ensures forall id <- ids :: id in BulkBots(bulk, bots, next, |ids|)
  {
    BulkMembers(bulk, bots, next, |ids|);
    var more := BulkBots(bulk, bots, next, |ids|);
    forall id: U32
      ensures BatchOk(more, bots, ids, 0, id)
    {
      if id in bots {
        assert next == U32_MAX || IdUnder(bots.Keys, next, id);
      } else if id in more {
        assert ids[id - next] == id;
      }
    }
  }

  lemma {:induction false} BulkNamesMembers(bulk: Bulk, names: Usernames, next: nat, count: nat, u: string)
    requires Room(next, count) && count <= |bulk.members|
    ensures u in BulkNames(bulk, names, next, count) <==>
            u in names || exists k :: 0 <= k < count && u == bulk.members[k].username
  {
    if count > 0 {
      BulkNamesMembers(bulk, names, next, count - 1, u);
    }
  }

  lemma NameIsFree(bulk: Bulk, i: nat, names: Usernames, next: U32)
    requires Room(next, i) && i < |bulk.members| && Distinct(bulk.members)
    ensures bulk.members[i].username in BulkNames(bulk, names, next, i) <==> bulk.members[i].username in names
  {
    BulkNamesMembers(bulk, names, next, i, bulk.members[i].username);
  }

  lemma IdIsFree(bulk: Bulk, i: nat, bots: Bots, next: U32)
    requires Room(next, i) && Fresh(bots.Keys, next) && (i > 0 ==> next !in bots) && i <= |bulk.members|
    ensures |BulkBots(bulk, bots, next, i)| == |bots| + i
    ensures NextAfter(next, i) !in BulkBots(bulk, bots, next, i) <==> next !in bots && Room(next, i + 1)
    ensures Room(next, i + 1) ==> NextAfter(next, i) == next + i
  {
    BulkMembers(bulk, bots, next, i);
    assert next == U32_MAX || IdUnder(bots.Keys, next, NextAfter(next, i));
  }

  /** After `i` bots, the next one is accepted exactly when `i + 1` are acceptable. */
  lemma BulkStep(bulk: Bulk, i: nat, servers: Servers, proxies: set<string>, bots: Bots, names: Usernames, next: U32)
    requires i < |bulk.members| && Distinct(bulk.members) && Room(next, i) && Fresh(bots.Keys, next)
    requires BulkAcceptable(bulk, i, servers, proxies, bots, names, next)
    ensures
      BotProblem(BulkBot(bulk, i), servers, proxies, BulkBots(bulk, bots, next, i), BulkNames(bulk, names, next, i)) == None
      && NextAfter(next, i) !in BulkBots(bulk, bots, next, i)
      <==> BulkAcceptable(bulk, i + 1, servers, proxies, bots, names, next)
  {
    NameIsFree(bulk, i, names, next);
    IdIsFree(bulk, i, bots, next);
    MemberProblem(bulk, i, servers, proxies, BulkBots(bulk, bots, next, i), BulkNames(bulk, names, next, i));
    OneMoreAcceptable(bulk, i, servers, proxies, bots, names, next);
  }

  lemma MemberProblem(bulk: Bulk, i: nat, servers: Servers, proxies: set<string>, bots: Bots, names: Usernames)
    requires i < |bulk.members|
    ensures BotProblem(BulkBot(bulk, i), servers, proxies, bots, names) == None <==>
            Reachable(bulk, servers, proxies) && Fits(bulk.members[i], names) && |bots| < MAX_BOTS
  {
  }

  lemma OneMoreAcceptable(bulk: Bulk, i: nat, servers: Servers, proxies: set<string>, bots: Bots, names: Usernames, next: U32)
    requires i < |bulk.members| && BulkAcceptable(bulk, i, servers, proxies, bots, names, next)
    ensures BulkAcceptable(bulk, i + 1, servers, proxies, bots, names, next) <==>
            && Reachable(bulk, servers, proxies) && Fits(bulk.members[i], names)
            && |bots| + i < MAX_BOTS && next !in bots && Room(next, i + 1)
  {
  }

  lemma BatchPop(bots: Bots, base: Bots, ids: seq<U32>, i: nat)
    requires i < |ids| && Batch(bots, base, ids, i)
    ensures Batch(bots - {ids[i]}, base, ids, i + 1)
  {
    var fewer, j := bots - {ids[i]}, i + 1;
    forall id: U32
      ensures BatchOk(fewer, base, ids, j, id)
    {
      assert BatchOk(bots, base, ids, i, id);
    }
  }

  lemma BatchEmpty(bots: Bots, base: Bots, ids: seq<U32>)
    requires Batch(bots, base, ids, |ids|)
    ensures bots == base
  {
    forall id: U32 | id in bots || id in base
      ensures id in bots && id in base && bots[id] == base[id]
    {
      assert BatchOk(bots, base, ids, |ids|, id);
    }
  }

  lemma BatchOutsideGroups(bots: Bots, base: Bots, ids: seq<U32>, i: nat, groups: Groups)
    requires i < |ids| && Batch(bots, base, ids, i) && GroupsOk(groups, base)
    ensures InNoGroup(ids[i], groups)
  {
    assert BatchOk(bots, base, ids, i, ids[i]);
    forall n: string
      ensures Avoids(groups, ids[i], n)
    {
      assert GroupOk(groups, base, n);
    }
  }

  /** The automatic id was used before exactly when the greatest id was, and then it is that. */
  lemma AutomaticIsNew(ids: set<U32>, next: U32)
    requires Fresh(ids, next)
    ensures next in ids <==> U32_MAX in ids
    ensures next in ids ==> next == U32_MAX
  {
    assert next == U32_MAX || (IdUnder(ids, next, next) && IdUnder(ids, next, U32_MAX));
  }

  lemma FewerFresh(few: set<U32>, ids: set<U32>, next: U32)
    requires few <= ids && Fresh(ids, next)
    ensures Fresh(few, next)
  {
    forall id: U32
      ensures next == U32_MAX || IdUnder(few, next, id)
    {
      assert IdUnder(ids, next, id) || next == U32_MAX;
    }
  }

  lemma StaysFresh(ids: set<U32>, next: U32, id: U32, next': U32)
    requires Fresh(ids, next) && next <= next' && (next' == U32_MAX || id < next')
    ensures Fresh(ids + {id}, next')
  {
    forall x: U32
      ensures next' == U32_MAX || IdUnder(ids + {id}, next', x)
    {
      assert next == U32_MAX || IdUnder(ids, next, x);
    }
  }

  lemma ServerInserted(servers: Servers, proxies: set<string>, bots: Bots, names: Usernames, groups: Groups, def: ServerDef)
    requires Consistent(servers, proxies, bots, names, groups) && GoodServer(def)
    ensures Consistent(servers[def.name := def], proxies, bots, names, groups)
  {
    var more := servers[def.name := def];
    forall n: string
      ensures ServerOk(more, n)
    {
      assert ServerOk(servers, n);
    }
    forall id: U32
      ensures BotOk(more, proxies, bots, id)
    {
      assert BotOk(servers, proxies, bots, id);
    }
  }

  lemma GroupInserted(servers: Servers, proxies: set<string>, bots: Bots, names: Usernames, groups: Groups, def: GroupDef)
    requires Consistent(servers, proxies, bots, names, groups) && GoodGroup(def, bots)
    requires def.name !in groups && |groups| < MAX_GROUPS
    ensures Consistent(servers, proxies, bots, names, groups[def.name := def])
  {
    var more := groups[def.name := def];
    forall n: string
      ensures GroupOk(more, bots, n)
    {
      assert GroupOk(groups, bots, n);
    }
  }

  lemma BotInserted(servers: Servers, proxies: set<string>, bots: Bots, names: Usernames, groups: Groups, def: BotDef)
    requires Consistent(servers, proxies, bots, names, groups)
    requires GoodBot(def, servers, proxies) && def.id !in bots && def.username !in names && |bots| < MAX_BOTS
    ensures Consistent(servers, proxies, bots[def.id := def], names[def.username := def.id], groups)
  {
    InverseInserted(bots, names, def);
    var more := bots[def.id := def];
    forall id: U32
      ensures BotOk(servers, proxies, more, id)
    {
      assert BotOk(servers, proxies, bots, id);
    }
    forall n: string
      ensures GroupOk(groups, more, n)
    {
      assert GroupOk(groups, bots, n);
    }
  }

  lemma InverseInserted(bots: Bots, names: Usernames, def: BotDef)
    requires Inverse(bots, names) && def.id !in bots && def.username !in names
    ensures Inverse(bots[def.id := def], names[def.username := def.id])
  {
    var b, m := bots[def.id := def], names[def.username := def.id];
    forall id: U32
      ensures BotListed(b, m, id)
    {
      assert BotListed(bots, names, id);
    }
    forall u: string
      ensures NameListed(b, m, u)
    {
      assert NameListed(bots, names, u);
    }
  }

  lemma InverseDropped(bots: Bots, names: Usernames, id: U32)
    requires Inverse(bots, names) && id in bots
    ensures Inverse(bots - {id}, names - {bots[id].username})
  {
    var b, m := bots - {id}, names - {bots[id].username};
    assert BotListed(bots, names, id);
    forall x: U32
      ensures BotListed(b, m, x)
    {
      assert BotListed(bots, names, x);
    }
    forall u: string
      ensures NameListed(b, m, u)
    {
      assert NameListed(bots, names, u);
    }
  }

  lemma BotDropped(servers: Servers, proxies: set<string>, bots: Bots, names: Usernames, groups: Groups, id: U32)
    requires Consistent(servers, proxies, bots, names, groups) && id in bots
    ensures Inverse(bots - {id}, names - {bots[id].username})
    ensures Consistent(servers, proxies, bots - {id}, names - {bots[id].username}, groups) <==> InNoGroup(id, groups)
  {
    var b := bots - {id};
    InverseDropped(bots, names, id);
    assert |b| <= |bots| by {
      assert b.Keys == bots.Keys - {id};
    }
    forall x: U32
      ensures BotOk(servers, proxies, b, x)
    {
      assert BotOk(servers, proxies, bots, x);
    }
    GroupsAfterDrop(groups, bots, id);
  }

  lemma GroupsAfterDrop(groups: Groups, bots: Bots, id: U32)
    requires GroupsOk(groups, bots)
    ensures GroupsOk(groups, bots - {id}) <==> InNoGroup(id, groups)
  {
    if InNoGroup(id, groups) {
      forall n: string
        ensures GroupOk(groups, bots - {id}, n)
      {
        assert GroupOk(groups, bots, n) && Avoids(groups, id, n);
      }
    }
    if GroupsOk(groups, bots - {id}) {
      forall n: string
        ensures Avoids(groups, id, n)
      {
        assert GroupOk(groups, bots - {id}, n);
      }
    }
  }

  /** A builder with one bot, under the requested id. */
  method WithOneBot(id: U32) returns (b: SwarmRegistryBuilder)
    ensures fresh(b) && b.Valid() && b.nextAutoId == SaturatingNext(id) && b.groups == map[]
    ensures "s" in b.servers && b.bots.Keys == {id} && b.usernameToId.Keys == {"a"}
  {
    b := new SwarmRegistryBuilder({});
    var server := b.AddServer(ServerDef("s", "h", 25565, 8));
    assert server.Ok?;
    var bot := b.AddBot(BotSpec(Some(id), "a", "s", None, None));
    assert bot.Ok?;
  }

  /** A removed id comes back whenever it is asked for, far below the top of the range. */
  method ARequestedIdComesBack() returns (b: SwarmRegistryBuilder, removed: bool, again: Result<U32>)
    ensures fresh(b) && b.Valid() && removed && again == Ok(5) && b.nextAutoId == 6
  {
    b := WithOneBot(5);
    NoGroups(5);
    removed := b.RemoveBot(5);
    assert b.bots.Keys == {} && "b" !in b.usernameToId;
    again := b.AddBot(BotSpec(Some(5), "b", "s", None, None));
  }

  /** At the top of the range an automatic id can be handed out again after its removal; below
      it never is, by the contract of `AddBot`. */
  method ARemovedIdCanComeBack() returns (b: SwarmRegistryBuilder, first: Result<U32>, again: Result<U32>)
    ensures fresh(b) && b.Valid() && first == again == Ok(U32_MAX)
  {
    b := WithOneBot(U32_MAX - 1);
    first := b.AddBot(BotSpec(None, "b", "s", None, None));
    assert first == Ok(U32_MAX) && b.bots.Keys == {U32_MAX - 1, U32_MAX} && b.usernameToId.Keys == {"a", "b"};
    NoGroups(U32_MAX);
    var _ := b.RemoveBot(U32_MAX);
    assert b.bots.Keys == {U32_MAX - 1} && "c" !in b.usernameToId;
    again := b.AddBot(BotSpec(None, "c", "s", None, None));
  }

  lemma NoGroups(id: U32)
    ensures InNoGroup(id, map[])
  {
  }

  // ------------------------------------------------------------------- spawning bots

  datatype SpawnError = BotWithoutServer(id: U32) | BotWithoutProxy(id: U32)

  datatype SpawnResult = Spawned(clients: map<U32, ClientConfig>) | NotSpawned(error: SpawnError)

  datatype ClientConfig = ClientConfig(host: string, port: nat, username: string, viewDistance: int, proxy: Option<nat>)

  predicate Resolves(b: BotDef, servers: Servers, profiles: map<string, nat>) {
    b.server in servers && (b.proxy.Some? ==> b.proxy.value in profiles)
  }

  function ClientFor(b: BotDef, servers: Servers, profiles: map<string, nat>): ClientConfig
    requires Resolves(b, servers, profiles)
  {
    var s := servers[b.server];
    ClientConfig(s.host, s.port, b.username, s.viewDistance,
                 if b.proxy.Some? then Some(profiles[b.proxy.value]) else None)
  }

  /** Either every bot is spawned with its own server and proxy, or none is. */
  method SpawnAllBots(registry: SwarmRegistry, profiles: map<string, nat>) returns (r: SpawnResult)
    ensures r.Spawned? <==> forall id <- registry.bots :: Resolves(registry.bots[id], registry.servers, profiles)
    ensures r.Spawned? ==>
              && r.clients.Keys == registry.bots.Keys
              && forall id <- r.clients ::
                   && Resolves(registry.bots[id], registry.servers, profiles)
                   && r.clients[id] == ClientFor(registry.bots[id], registry.servers, profiles)
    ensures r.Spawned? ==>
              forall id <- r.clients ::
                var b, c := registry.bots[id], r.clients[id];
                && b.server in registry.servers
                && c.host == registry.servers[b.server].host && c.port == registry.servers[b.server].port
                && c.username == b.username && c.viewDistance == registry.servers[b.server].viewDistance
                && (b.proxy == None ==> c.proxy == None)
                && (b.proxy.Some? ==> b.proxy.value in profiles && c.proxy == Some(profiles[b.proxy.value]))
    ensures r.NotSpawned? ==> r.error.id in registry.bots && !Resolves(registry.bots[r.error.id], registry.servers, profiles)
    ensures r.NotSpawned? ==> (r.error.BotWithoutServer? <==> registry.bots[r.error.id].server !in registry.servers)
  {
    var rest := registry.bots.Keys;
    while rest != {}
      invariant rest <= registry.bots.Keys
      invariant forall id <- registry.bots.Keys - rest :: Resolves(registry.bots[id], registry.servers, profiles)
    {
      var id :| id in rest;
      var bot := registry.bots[id];
      if bot.server !in registry.servers {
        return NotSpawned(BotWithoutServer(id));
      }
      if bot.proxy.Some? && bot.proxy.value !in profiles {
        return NotSpawned(BotWithoutProxy(id));
      }
      rest := rest - {id};
    }
    assert forall id <- registry.bots :: id in registry.bots.Keys - rest;
    var clients: map<U32, ClientConfig> := map[];
    rest := registry.bots.Keys;
    while rest != {}
      invariant rest <= registry.bots.Keys && clients.Keys == registry.bots.Keys - rest
      invariant forall id <- clients :: clients[id] == ClientFor(registry.bots[id], registry.servers, profiles)
    {
      var id :| id in rest;
      clients := clients[id := ClientFor(registry.bots[id], registry.servers, profiles)];
      rest := rest - {id};
    }
    r := Spawned(clients);
  }

  /** On a registry that came out of a builder with the same profile ids, the validation
      pass of spawning cannot fail. */
  lemma BuiltRegistriesSpawn(registry: SwarmRegistry, profiles: map<string, nat>)
    requires Consistent(registry.servers, profiles.Keys, registry.bots, registry.usernames, registry.groups)
    ensures forall id <- registry.bots :: Resolves(registry.bots[id], registry.servers, profiles)
  {
    forall id | id in registry.bots
      ensures Resolves(registry.bots[id], registry.servers, profiles)
    {
      assert BotOk(registry.servers, profiles.Keys, registry.bots, id);
    }
  }
}

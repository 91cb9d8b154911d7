/** Properties of the whole core over time: the invariant every reachable
    state keeps (histories are duplicate-free sets holding the active chat; a
    cache entry belongs to a connected user, names a chat from that user's
    history and expires within 900 seconds), and the connect / resolve /
    disconnect round trips. */
module Invariants {
  import opened Store
  import opened Resolver
  import opened Manager

  /** Everything that can happen to the state: a resolution, a connection
      change, the clock advancing, or another part of the bot rewriting the
      collections the core only reads (`user_list`, `chat_list`,
      `chat_connection_settings`). */
  datatype Op =
    | ResolveOp(m: Message, req: Requirements, fromId: Option<UserId>)
    | SetOp(user: UserId, chatId: Option<ChatId>)
    | Tick(seconds: nat)
    | Observe(userChats: map<UserId, set<ChatId>>, chatTitles: map<ChatId, string>,
              settings: map<ChatId, ConnectionSettings>)

  function Step(s: State, op: Op, isAdmin: AdminOracle): State
  {
    match op
    case ResolveOp(m, req, fromId) => Resolve(s, m, req, fromId, isAdmin).state
    case SetOp(u, c) => SetConnected(s, u, c).state
    case Tick(dt) => Elapse(s, dt)
    case Observe(uc, ct, st) => s.(userChats := uc, chatTitles := ct, settings := st)
  }

  function Apply(s: State, ops: seq<Op>, isAdmin: AdminOracle): State
    decreases |ops|
  {
    if ops == [] then s else Apply(Step(s, ops[0], isAdmin), ops[1..], isAdmin)
  }

  /** A `connections` document: no repeated history entry, and an active chat
      id that is truthy and recorded in the history. */
  predicate ConnectionOk(c: Connection)
  {
    && NoDuplicates(c.history)
    && (c.chatId.Some? ==> c.chatId.value != 0 && c.chatId.value in c.history)
  }

  /** A cache entry of `u`: the user is connected, the cached chat is in the
      user's history, and the entry expires at most 900 seconds from now. */
  predicate CacheEntryOk(s: State, u: UserId)
    requires CacheKey(u) in s.cache
  {
    && ConnectedChat(s, u).Some?
    && s.cache[CacheKey(u)].chatId in HistoryOf(s, u)
    && s.cache[CacheKey(u)].expiresAt <= s.now + CacheTtl
  }

  ghost predicate Inv(s: State)
  {
    && (forall u :: u in s.connections ==> ConnectionOk(s.connections[u]))
    && (forall u :: CacheKey(u) in s.cache ==> CacheEntryOk(s, u))
  }

  /** A fresh deployment: no connection documents and no cached resolution. */
  lemma InitialInv(s: State)
    requires s.connections == map[] && s.cache == map[]
    ensures Inv(s)
  {
  }

  lemma ResolvePreservesInv(s: State, m: Message, req: Requirements, fromId: Option<UserId>,
                            isAdmin: AdminOracle)
    requires Inv(s)
    ensures Inv(Resolve(s, m, req, fromId, isAdmin).state)
  {
    var r := Resolve(s, m, req, fromId, isAdmin);
    var u := ActingUser(m, fromId);
    if r.state != s {
      forall v | CacheKey(v) in r.state.cache
        ensures CacheEntryOk(r.state, v)
      {
        CacheKeyInjective(u, v);
        if v == u {
          var c := r.outcome.res.chatId;
          assert ConnectedChat(s, u) == Some(c);
          assert ConnectionOk(s.connections[u]);
        } else {
          assert CacheEntryOk(s, v);
        }
      }
    }
  }

  lemma SetConnectedPreservesInv(s: State, u: UserId, chatId: Option<ChatId>)
    requires Inv(s)
    ensures Inv(SetConnected(s, u, chatId).state)
  {
    var s' := SetConnected(s, u, chatId).state;
    forall v | v in s'.connections
      ensures ConnectionOk(s'.connections[v])
    {
      if v != u {
        assert ConnectionOk(s.connections[v]);
      } else if u in s.connections {
        assert ConnectionOk(s.connections[u]);
      }
    }
    forall v | CacheKey(v) in s'.cache
      ensures CacheEntryOk(s', v)
    {
      CacheKeyInjective(u, v);
      assert CacheEntryOk(s, v);
    }
  }

  lemma StepPreservesInv(s: State, op: Op, isAdmin: AdminOracle)
    requires Inv(s)
    ensures Inv(Step(s, op, isAdmin))
  {
    match op
    case ResolveOp(m, req, fromId) => ResolvePreservesInv(s, m, req, fromId, isAdmin);
    case SetOp(u, c) => SetConnectedPreservesInv(s, u, c);
    case Tick(dt) =>
      var s' := Elapse(s, dt);
      forall v | CacheKey(v) in s'.cache
        ensures CacheEntryOk(s', v)
      {
        assert CacheEntryOk(s, v);
      }
    case Observe(uc, ct, st) =>
      var s' := Step(s, op, isAdmin);
      forall v | CacheKey(v) in s'.cache
        ensures CacheEntryOk(s', v)
      {
        assert CacheEntryOk(s, v);
      }
  }

  /** Every state reachable by any sequence of operations keeps the invariant. */
  lemma {:induction false} ApplyPreservesInv(s: State, ops: seq<Op>, isAdmin: AdminOracle)
    requires Inv(s)
    ensures Inv(Apply(s, ops, isAdmin))
    decreases |ops|
  {
    if ops != [] {
      StepPreservesInv(s, ops[0], isAdmin);
      ApplyPreservesInv(Step(s, ops[0], isAdmin), ops[1..], isAdmin);
    }
  }

  /** Reachable states: every state reached from a fresh deployment (no
      connection documents, no cached resolution) by any sequence of
      operations keeps the invariant. */
  lemma ReachableStatesKeepInv(s0: State, ops: seq<Op>, isAdmin: AdminOracle)
    requires s0.connections == map[] && s0.cache == map[]
    ensures Inv(Apply(s0, ops, isAdmin))
  {
    InitialInv(s0);
    ApplyPreservesInv(s0, ops, isAdmin);
  }

  /** A resolution served from the cache targets a chat the user is connected
      to now or was connected to before. */
  lemma CachedTargetFromHistory(s: State, m: Message, req: Requirements, fromId: Option<UserId>,
                                isAdmin: AdminOracle)
    requires Inv(s)
    requires m.chatType == Private
    ensures var r := Resolve(s, m, req, fromId, isAdmin);
            r.outcome.Returned? && r.outcome.res.Resolved? && r.outcome.res.status == CachedStatus ==>
              r.outcome.res.chatId in HistoryOf(s, ActingUser(m, fromId))
  {
    var u := ActingUser(m, fromId);
    if CachedFor(s, u).Some? {
      assert CacheEntryOk(s, u);
    }
  }

  /** No cached resolution outlives 900 seconds: once the clock has advanced
      by the TTL every private resolution is re-derived from the store. */
  lemma CacheExpiresWithinTtl(s: State, u: UserId)
    requires Inv(s)
    ensures CachedFor(Elapse(s, CacheTtl), u).None?
  {
    if CacheKey(u) in s.cache {
      assert CacheEntryOk(s, u);
    }
  }

  /** After a disconnect the next private resolution cannot come from the
      cache: it falls back to the unconnected branch. */
  lemma DisconnectForcesFallback(s: State, m: Message, req: Requirements, isAdmin: AdminOracle)
    requires m.chatType == Private
    ensures var s' := SetConnected(s, m.senderId, None).state;
            var r := Resolve(s', m, req, None, isAdmin);
            && CachedFor(s', m.senderId).None?
            && r.outcome == (if req.onlyGroups then Returned(Refused(UsageOnlyInGroups))
                             else Returned(Resolved(PrivateStatus, m.senderId, LocalChatTitle)))
            && r.state == s'
  {
  }

  /** Round trip: connecting to `c` and then resolving, with every check
      satisfied and no live cache entry, reports `c` and caches it; a second
      resolution within the TTL is served from the cache with the same
      target and a single cache read; a disconnect then makes the next
      resolution fall back to the unconnected branch. */
  lemma ConnectResolveDisconnect(s: State, m: Message, req: Requirements, isAdmin: AdminOracle,
                                 c: ChatId, dt: nat)
    requires c != 0 && m.chatType == Private
    requires CachedFor(s, m.senderId).None?
    requires m.senderId in s.userChats && c in s.userChats[m.senderId]
    requires c in s.chatTitles
    requires req.admin ==> isAdmin(c, m.senderId)
    requires PolicyForbids(s, c) ==> req.admin
    requires dt < CacheTtl
    ensures var u := m.senderId;
            var s1 := SetConnected(s, u, Some(c)).state;
            var r1 := Resolve(s1, m, req, None, isAdmin);
            var s2 := Elapse(r1.state, dt);
            var r2 := Resolve(s2, m, req, None, isAdmin);
            var s3 := SetConnected(r2.state, u, None).state;
            var r3 := Resolve(s3, m, req, None, isAdmin);
            && r1.outcome == Returned(Resolved(ConnectedStatus, c, s.chatTitles[c]))
            && r2.outcome == Returned(Resolved(CachedStatus, c, s.chatTitles[c]))
            && r2.accesses == [CacheRead(CacheKey(u))]
            && r3.outcome == (if req.onlyGroups then Returned(Refused(UsageOnlyInGroups))
                              else Returned(Resolved(PrivateStatus, u, LocalChatTitle)))
  {
    var u := m.senderId;
    var s1 := SetConnected(s, u, Some(c)).state;
    assert CachedFor(s1, u).None?;
    assert ConnectedChat(s1, u) == Some(c);
    var r1 := Resolve(s1, m, req, None, isAdmin);
    assert Authorized(s1, u, c, req, isAdmin);
    assert r1.outcome == Returned(Resolved(ConnectedStatus, c, s.chatTitles[c]));
    var s2 := Elapse(r1.state, dt);
    assert CachedFor(s2, u) == Some(CacheEntry(c, s.chatTitles[c], s1.now + CacheTtl));
  }

  /** Connecting to another chat does not invalidate the cache: while the old
      entry lives, resolutions keep targeting the previously cached chat. */
  lemma ConnectKeepsLiveCache(s: State, m: Message, req: Requirements, isAdmin: AdminOracle,
                              c: ChatId, e: CacheEntry)
    requires c != 0 && m.chatType == Private
    requires CachedFor(s, m.senderId) == Some(e)
    ensures var s1 := SetConnected(s, m.senderId, Some(c)).state;
            Resolve(s1, m, req, None, isAdmin).outcome == Returned(Resolved(CachedStatus, e.chatId, e.chatTitle))
  {
  }

  /** The cache key depends on the user only, not on the requirements: an
      entry written by an `admin=False` resolution is served to a later
      `admin=True` resolution of a non-admin, with no admin query, although
      the same resolution without the entry is refused `u_should_be_admin`. */
  lemma CacheBypassesAdminCheck(s: State, m: Message, isAdmin: AdminOracle, c: ChatId)
    requires c != 0 && m.chatType == Private
    requires CachedFor(s, m.senderId).None?
    requires m.senderId in s.userChats && c in s.userChats[m.senderId]
    requires c in s.chatTitles
    requires !PolicyForbids(s, c)
    requires !isAdmin(c, m.senderId)
    ensures var u := m.senderId;
            var s1 := SetConnected(s, u, Some(c)).state;
            var r1 := Resolve(s1, m, Requirements(false, false), None, isAdmin);
            var r2 := Resolve(r1.state, m, Requirements(true, false), None, isAdmin);
            && Resolve(s1, m, Requirements(true, false), None, isAdmin).outcome
                 == Returned(Refused(ShouldBeAdmin))
            && r2.outcome == Returned(Resolved(CachedStatus, c, s.chatTitles[c]))
            && r2.accesses == [CacheRead(CacheKey(u))]
  {
    var u := m.senderId;
    var s1 := SetConnected(s, u, Some(c)).state;
    assert CachedFor(s1, u).None?;
    assert ConnectedChat(s1, u) == Some(c);
    var r1 := Resolve(s1, m, Requirements(false, false), None, isAdmin);
    assert Authorized(s1, u, c, Requirements(false, false), isAdmin);
    assert CachedFor(r1.state, u) == Some(CacheEntry(c, s.chatTitles[c], s1.now + CacheTtl));
  }
}

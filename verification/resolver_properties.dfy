/** What `get_connected_chat` promises, one branch of its decision order at a
    time, and the facts that tie the branches together: which collaborator
    calls each branch makes, which outcomes are reachable, and that a cache
    write happens exactly on a fully validated connection. */
module ResolverProperties {
  import opened Store
  import opened Resolver

  /** The trace never reaches the admin check or the policy lookup. */
  predicate NoRightsChecks(trace: seq<Access>)
  {
    forall i :: 0 <= i < |trace| ==> !trace[i].AdminQuery? && !trace[i].SettingsLookup?
  }

  /** A private chat of user `u` with no live cache entry and a stored
      connection to `c`. */
  predicate ConnectedUncached(s: State, m: Message, fromId: Option<UserId>, c: ChatId)
  {
    && m.chatType == Private
    && CachedFor(s, ActingUser(m, fromId)).None?
    && ConnectedChat(s, ActingUser(m, fromId)) == Some(c)
  }

  /** `from_id or message.from_user.id`: an override of 0 is falsy, so it
      resolves exactly as if no override were given. */
  lemma ZeroOverrideFallsBack(s: State, m: Message, req: Requirements, isAdmin: AdminOracle)
    ensures Resolve(s, m, req, Some(0), isAdmin) == Resolve(s, m, req, None, isAdmin)
    ensures ActingUser(m, Some(0)) == m.senderId
  {
  }

  /** Outside a private chat the target is the chat itself, titled from
      `chat_list` when stored and from the message otherwise; the only call
      made is that `chat_list` lookup, so neither the cache nor any
      connection, admin or policy state is consulted. */
  lemma GroupTargetsItself(s: State, m: Message, req: Requirements, fromId: Option<UserId>,
                           isAdmin: AdminOracle)
    requires m.chatType != Private
    ensures var r := Resolve(s, m, req, fromId, isAdmin);
            && r.outcome == Returned(Resolved(ChatStatus, m.chatId,
                 if m.chatId in s.chatTitles then s.chatTitles[m.chatId] else m.chatTitle))
            && r.state == s
            && r.accesses == [ChatLookup(m.chatId)]
  {
  }

  /** In a private chat a live cache entry of the acting user is returned
      with status `True`, after a single cache read and no store or admin
      call. */
  lemma CacheHitServesEntry(s: State, m: Message, req: Requirements, fromId: Option<UserId>,
                            isAdmin: AdminOracle, e: CacheEntry)
    requires m.chatType == Private
    requires CachedFor(s, ActingUser(m, fromId)) == Some(e)
    ensures var r := Resolve(s, m, req, fromId, isAdmin);
            && r.outcome == Returned(Resolved(CachedStatus, e.chatId, e.chatTitle))
            && r.state == s
            && r.accesses == [CacheRead(CacheKey(ActingUser(m, fromId)))]
  {
  }

  /** A private chat without a live cache entry and without a connected chat
      is refused with `usage_only_in_groups` when only groups are allowed and
      otherwise targets the user's own chat as 'Local chat'; neither writes
      the cache. */
  lemma UnconnectedFallsBack(s: State, m: Message, req: Requirements, fromId: Option<UserId>,
                             isAdmin: AdminOracle)
    requires m.chatType == Private
    requires CachedFor(s, ActingUser(m, fromId)).None?
    requires ConnectedChat(s, ActingUser(m, fromId)).None?
    ensures var r := Resolve(s, m, req, fromId, isAdmin);
            && r.outcome == (if req.onlyGroups then Returned(Refused(UsageOnlyInGroups))
                             else Returned(Resolved(PrivateStatus, ActingUser(m, fromId), LocalChatTitle)))
            && r.state == s
            && NoRightsChecks(r.accesses)
  {
  }

  /** A connected chat the user was never seen in is refused with
      `not_in_chat` before any admin or policy check. */
  lemma NotInChatBeforeRights(s: State, m: Message, req: Requirements, fromId: Option<UserId>,
                              isAdmin: AdminOracle, c: ChatId)
    requires ConnectedUncached(s, m, fromId, c)
    requires ActingUser(m, fromId) in s.userChats
    requires c !in s.userChats[ActingUser(m, fromId)]
    ensures var r := Resolve(s, m, req, fromId, isAdmin);
            && r.outcome == Returned(Refused(NotInChat))
            && r.state == s
            && NoRightsChecks(r.accesses)
  {
  }

  /** A missing `user_list` document, or a missing `chat_list` document for a
      connected chat the user belongs to, raises instead of returning. */
  lemma MissingRecordsCrash(s: State, m: Message, req: Requirements, fromId: Option<UserId>,
                            isAdmin: AdminOracle, c: ChatId)
    requires ConnectedUncached(s, m, fromId, c)
    ensures var r := Resolve(s, m, req, fromId, isAdmin);
            && (ActingUser(m, fromId) !in s.userChats ==> r.outcome == Raised(NoUserRecord))
            && ((ActingUser(m, fromId) in s.userChats && c in s.userChats[ActingUser(m, fromId)]
                 && c !in s.chatTitles) ==> r.outcome == Raised(NoChatRecord))
  {
  }

  /** With `admin=True` a member who is not an admin is refused with
      `u_should_be_admin`, and the policy is never looked up. */
  lemma AdminRequiredRefusesNonAdmin(s: State, m: Message, req: Requirements, fromId: Option<UserId>,
                                     isAdmin: AdminOracle, c: ChatId)
    requires ConnectedUncached(s, m, fromId, c)
    requires ActingUser(m, fromId) in s.userChats && c in s.userChats[ActingUser(m, fromId)]
    requires c in s.chatTitles
    requires req.admin && !isAdmin(c, ActingUser(m, fromId))
    ensures var r := Resolve(s, m, req, fromId, isAdmin);
            && r.outcome == Returned(Refused(ShouldBeAdmin))
            && r.state == s
            && SettingsLookup(c) !in r.accesses
  {
    var u := ActingUser(m, fromId);
    var r := Resolve(s, m, req, fromId, isAdmin);
    assert r.accesses == [CacheRead(CacheKey(u)), ConnectionLookup(u), UserLookup(u), ChatLookup(c), AdminQuery(c, u)];
  }

  /** With `admin=True` an admin connects whatever the chat's policy says. */
  lemma AdminBypassesPolicy(s: State, m: Message, req: Requirements, fromId: Option<UserId>,
                            isAdmin: AdminOracle, c: ChatId)
    requires ConnectedUncached(s, m, fromId, c)
    requires ActingUser(m, fromId) in s.userChats && c in s.userChats[ActingUser(m, fromId)]
    requires c in s.chatTitles
    requires req.admin && isAdmin(c, ActingUser(m, fromId))
    ensures Resolve(s, m, req, fromId, isAdmin).outcome
              == Returned(Resolved(ConnectedStatus, c, s.chatTitles[c]))
  {
  }

  /** The unbound `user_admin`: the resolver raises on reading it exactly when
      a connected member reaches the policy check with `admin=False` and the
      chat's `allow_users_connect` is `False`. */
  lemma UnboundUserAdminIff(s: State, m: Message, req: Requirements, fromId: Option<UserId>,
                            isAdmin: AdminOracle)
    ensures var u := ActingUser(m, fromId);
            Resolve(s, m, req, fromId, isAdmin).outcome == Raised(UnboundUserAdmin)
            <==>
            exists c :: && ConnectedUncached(s, m, fromId, c)
                        && u in s.userChats && c in s.userChats[u]
                        && c in s.chatTitles
                        && !req.admin && PolicyForbids(s, c)
  {
    var u := ActingUser(m, fromId);
    if Resolve(s, m, req, fromId, isAdmin).outcome == Raised(UnboundUserAdmin) {
      var c := ConnectedChat(s, u).value;
      assert ConnectedUncached(s, m, fromId, c);
    }
  }

  /** `conn_not_allowed` is never returned: with `admin=True` the user got
      past the admin check, so `not user_admin` is false; with `admin=False`
      reading `user_admin` raises first. */
  lemma ConnNotAllowedUnreachable(s: State, m: Message, req: Requirements, fromId: Option<UserId>,
                                  isAdmin: AdminOracle)
    ensures Resolve(s, m, req, fromId, isAdmin).outcome != Returned(Refused(ConnNotAllowed))
  {
  }

  /** A freshly validated connection to `c` is returned (status 1) exactly
      when the private chat has no live cache entry and every check on the
      user's connection to `c` passes; its title is the stored one. */
  lemma ConnectedIffAuthorized(s: State, m: Message, req: Requirements, fromId: Option<UserId>,
                               isAdmin: AdminOracle, c: ChatId, title: string)
    ensures var u := ActingUser(m, fromId);
            Resolve(s, m, req, fromId, isAdmin).outcome == Returned(Resolved(ConnectedStatus, c, title))
            <==>
            && m.chatType == Private
            && CachedFor(s, u).None?
            && Authorized(s, u, c, req, isAdmin)
            && title == s.chatTitles[c]
  {
  }

  /** The admin oracle is consulted only when `admin=True`. */
  lemma OracleQueriedOnlyWhenAdminRequired(s: State, m: Message, req: Requirements,
                                           fromId: Option<UserId>, isAdmin: AdminOracle)
    requires !req.admin
    ensures var trace := Resolve(s, m, req, fromId, isAdmin).accesses;
            forall i :: 0 <= i < |trace| ==> !trace[i].AdminQuery?
  {
    var u := ActingUser(m, fromId);
    var trace := Resolve(s, m, req, fromId, isAdmin).accesses;
    if m.chatType == Private && CachedFor(s, u).None? && ConnectedChat(s, u).Some? {
      var c := ConnectedChat(s, u).value;
      var key := CacheKey(u);
      var full := [CacheRead(key), ConnectionLookup(u), UserLookup(u), ChatLookup(c),
                   SettingsLookup(c), CacheWrite(key), CacheExpire(key, CacheTtl)];
      assert trace <= full;
    }
  }

  /** With `admin=False` the resolution does not depend on the admin oracle. */
  lemma OracleIrrelevantWithoutAdmin(s: State, m: Message, req: Requirements, fromId: Option<UserId>,
                                     f: AdminOracle, g: AdminOracle)
    requires !req.admin
    ensures Resolve(s, m, req, fromId, f) == Resolve(s, m, req, fromId, g)
  {
    var u := ActingUser(m, fromId);
    if m.chatType == Private && CachedFor(s, u).None? && ConnectedChat(s, u).Some? {
      var c := ConnectedChat(s, u).value;
      var trace := [CacheRead(CacheKey(u)), ConnectionLookup(u), UserLookup(u), ChatLookup(c)];
      if u in s.userChats && c in s.userChats[u] && c in s.chatTitles {
        assert CheckRights(s, u, c, s.chatTitles[c], req, f, trace)
            == CheckRights(s, u, c, s.chatTitles[c], req, g, trace);
      }
    }
  }

  /** The status tells where a successful result came from: `'chat'` from a
      group, `True` from a live cache entry, `'private'` from an unconnected
      private chat, `1` from a fresh validation. `True` and `1` are told apart
      here as distinct objects, as `is True` does; since `1 == True` in
      Python, a caller comparing with `==` cannot tell a cache hit from a
      fresh validation. */
  lemma StatusIdentifiesSource(s: State, m: Message, req: Requirements, fromId: Option<UserId>,
                               isAdmin: AdminOracle)
    ensures var r := Resolve(s, m, req, fromId, isAdmin);
            var u := ActingUser(m, fromId);
            r.outcome.Returned? && r.outcome.res.Resolved? ==>
              && (r.outcome.res.status == ChatStatus <==> m.chatType != Private)
              && (r.outcome.res.status == CachedStatus <==> m.chatType == Private && CachedFor(s, u).Some?)
              && (r.outcome.res.status == PrivateStatus <==>
                    m.chatType == Private && CachedFor(s, u).None? && ConnectedChat(s, u).None?)
  {
  }

  /** Resolving for one user never changes what is cached for another, because
      cache keys of distinct users differ. */
  lemma ResolveIsolatesUsers(s: State, m: Message, req: Requirements, fromId: Option<UserId>,
                             isAdmin: AdminOracle, v: UserId)
    requires v != ActingUser(m, fromId)
    ensures CachedFor(Resolve(s, m, req, fromId, isAdmin).state, v) == CachedFor(s, v)
  {
    CacheKeyInjective(ActingUser(m, fromId), v);
  }

  /** The intended rights check agrees with the code whenever the code does
      not raise on the unbound `user_admin`: same outcome, state and calls. */
  lemma IntendedAgreesWhenNoUnbound(s: State, u: UserId, c: ChatId, title: string,
                                    req: Requirements, isAdmin: AdminOracle, trace: seq<Access>)
    requires CheckRights(s, u, c, title, req, isAdmin, trace).outcome != Raised(UnboundUserAdmin)
    ensures CheckRightsIntended(s, u, c, title, req, isAdmin, trace)
              == CheckRights(s, u, c, title, req, isAdmin, trace)
  {
  }

  /** Where the code raises, the intended check asks the oracle and refuses
      `conn_not_allowed` to a non-admin and connects an admin. */
  lemma IntendedReplacesUnbound(s: State, u: UserId, c: ChatId, title: string,
                                req: Requirements, isAdmin: AdminOracle, trace: seq<Access>)
    requires CheckRights(s, u, c, title, req, isAdmin, trace).outcome == Raised(UnboundUserAdmin)
    ensures var r := CheckRightsIntended(s, u, c, title, req, isAdmin, trace);
            && !req.admin && PolicyForbids(s, c)
            && r.outcome == (if isAdmin(c, u) then Returned(Resolved(ConnectedStatus, c, title))
                             else Returned(Refused(ConnNotAllowed)))
            && AdminQuery(c, u) in r.accesses
  {
  }
}

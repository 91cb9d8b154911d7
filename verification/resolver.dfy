/** `get_connected_chat`: which chat a command acts on. In a group it is the
    group itself; in a private chat it is the user's cached resolution, else
    the user's stored connection once membership, admin rights and the
    chat's connection policy have been checked, else the private chat. */
module Resolver {
  import opened Store

  /** The `err_msg` of a refusal (a localisation key). */
  datatype ErrMsg = UsageOnlyInGroups | NotInChat | ShouldBeAdmin | ConnNotAllowed

  function ErrKey(e: ErrMsg): string
  {
    match e
    case UsageOnlyInGroups => "usage_only_in_groups"
    case NotInChat => "not_in_chat"
    case ShouldBeAdmin => "u_should_be_admin"
    case ConnNotAllowed => "conn_not_allowed"
  }

  /** The `status` of a successful result: `'chat'`, `'private'`, `True` (read
      from the cache) or `1` (freshly validated connection; the result aliases
      the dict whose status was set to 1 for the cache). */
  datatype Status = ChatStatus | PrivateStatus | CachedStatus | ConnectedStatus

  /** A result dict: a target chat, or `status None` with an `err_msg`. */
  datatype Resolution =
    | Resolved(status: Status, chatId: ChatId, chatTitle: string)
    | Refused(err: ErrMsg)

  /** Exceptions the resolver lets escape. */
  datatype Crash =
    | NoUserRecord      // `user_list` has no document for the user
    | NoChatRecord      // `chat_list` has no document for the connected chat
    | NoMessage         // the event carried no message, so `message.chat` fails
    | UnboundUserAdmin  // `user_admin` read while unbound (admin was not True)

  datatype Outcome = Returned(res: Resolution) | Raised(crash: Crash)

  /** The decorator keyword arguments `admin` and `only_groups`. */
  datatype Requirements = Requirements(admin: bool, onlyGroups: bool)

  /** `is_user_admin(chat_id, user_id)`, whose implementation is outside the core. */
  type AdminOracle = (ChatId, UserId) -> bool

  /** An outcome, the state after it, and the collaborator calls made. */
  datatype Run = Run(outcome: Outcome, state: State, accesses: seq<Access>)

  const LocalChatTitle: string := "Local chat"

  /** `from_id or message.from_user.id`: an absent or zero override falls back
      to the sender. */
  function ActingUser(m: Message, fromId: Option<UserId>): UserId
  {
    if fromId.Some? && fromId.value != 0 then fromId.value else m.senderId
  }

  /** The chat's settings forbid connecting: `allow_users_connect` is present
      and is `False`. */
  predicate PolicyForbids(s: State, c: ChatId)
  {
    c in s.settings && s.settings[c].allowUsersConnect == Some(false)
  }

  /** The connected chat of `u`, when the `connections` document has a `chat_id`. */
  function ConnectedChat(s: State, u: UserId): Option<ChatId>
  {
    if u in s.connections then s.connections[u].chatId else None
  }

  /** Every check a freshly validated connection of `u` to `c` has passed. */
  predicate Authorized(s: State, u: UserId, c: ChatId, req: Requirements, isAdmin: AdminOracle)
  {
    && ConnectedChat(s, u) == Some(c)
    && u in s.userChats && c in s.userChats[u]
    && c in s.chatTitles
    && (req.admin ==> isAdmin(c, u))
    && (PolicyForbids(s, c) ==> req.admin)
  }

  /** Lines 61-68: the admin check and the policy check for a user whose
      connection, membership and chat record are already known. `userAdmin`
      models the walrus-bound local, which is bound only when `admin is True`. */
  function CheckRights(s: State, u: UserId, c: ChatId, title: string, req: Requirements,
                       isAdmin: AdminOracle, trace: seq<Access>): Run
  {
    var userAdmin: Option<bool> := if req.admin then Some(isAdmin(c, u)) else None;
    var trace := if req.admin then trace + [AdminQuery(c, u)] else trace;
    if req.admin && !isAdmin(c, u) then
      Run(Returned(Refused(ShouldBeAdmin)), s, trace)
    else
      var trace := trace + [SettingsLookup(c)];
      if PolicyForbids(s, c) && userAdmin.None? then
        Run(Raised(UnboundUserAdmin), s, trace)
      else if PolicyForbids(s, c) && userAdmin == Some(false) then
        Run(Returned(Refused(ConnNotAllowed)), s, trace)
      else
        var key := CacheKey(u);
        var s' := s.(cache := s.cache[key := CacheEntry(c, title, s.now + CacheTtl)]);
        Run(Returned(Resolved(ConnectedStatus, c, title)), s',
            trace + [CacheWrite(key), CacheExpire(key, CacheTtl)])
  }

  /** Lines 61-68 as evidently intended: when the policy forbids connecting
      and `admin` was not requested, admin status is computed on demand
      instead of reading an unbound local. It never raises, refuses
      `conn_not_allowed` exactly for a non-admin under a forbidding policy,
      and otherwise agrees with `CheckRights`. */
  function CheckRightsIntended(s: State, u: UserId, c: ChatId, title: string, req: Requirements,
                               isAdmin: AdminOracle, trace: seq<Access>): (r: Run)
    ensures r.outcome.Returned?
    ensures r.outcome == Returned(Refused(ConnNotAllowed)) <==>
              (req.admin ==> isAdmin(c, u)) && PolicyForbids(s, c) && !isAdmin(c, u)
  {
    var trace := if req.admin then trace + [AdminQuery(c, u)] else trace;
    if req.admin && !isAdmin(c, u) then
      Run(Returned(Refused(ShouldBeAdmin)), s, trace)
    else
      var trace := trace + [SettingsLookup(c)];
      if PolicyForbids(s, c) && !req.admin && !isAdmin(c, u) then
        Run(Returned(Refused(ConnNotAllowed)), s, trace + [AdminQuery(c, u)])
      else
        var trace := if PolicyForbids(s, c) && !req.admin then trace + [AdminQuery(c, u)] else trace;
        var key := CacheKey(u);
        var s' := s.(cache := s.cache[key := CacheEntry(c, title, s.now + CacheTtl)]);
        Run(Returned(Resolved(ConnectedStatus, c, title)), s',
            trace + [CacheWrite(key), CacheExpire(key, CacheTtl)])
  }

  /** Lines 44-82: a private chat whose user has no live cache entry. */
  function ResolveUncached(s: State, u: UserId, req: Requirements, isAdmin: AdminOracle): Run
  {
    var trace := [CacheRead(CacheKey(u)), ConnectionLookup(u)];
    match ConnectedChat(s, u)
    case None =>
      if req.onlyGroups then Run(Returned(Refused(UsageOnlyInGroups)), s, trace)
      else Run(Returned(Resolved(PrivateStatus, u, LocalChatTitle)), s, trace)
    case Some(c) =>
      var trace := trace + [UserLookup(u)];
      if u !in s.userChats then Run(Raised(NoUserRecord), s, trace)
      else if c !in s.userChats[u] then Run(Returned(Refused(NotInChat)), s, trace)
      else
        var trace := trace + [ChatLookup(c)];
        if c !in s.chatTitles then Run(Raised(NoChatRecord), s, trace)
        else CheckRights(s, u, c, s.chatTitles[c], req, isAdmin, trace)
  }

  /** `get_connected_chat(message, admin, only_groups, from_id)`. Only the
      cache entry of the acting user may change, and only when a connection
      has passed every check; every refusal and every crash leaves the state
      as it was. */
  function Resolve(s: State, m: Message, req: Requirements, fromId: Option<UserId>,
                   isAdmin: AdminOracle): (r: Run)
    ensures r.state == s.(cache := r.state.cache)
    ensures r.state.cache != s.cache ==>
              && r.outcome.Returned? && r.outcome.res.Resolved?
              && r.outcome.res.status == ConnectedStatus
              && r.state.cache == s.cache[CacheKey(ActingUser(m, fromId)) :=
                   CacheEntry(r.outcome.res.chatId, r.outcome.res.chatTitle, s.now + CacheTtl)]
    ensures r.outcome.Raised? || r.outcome.res.Refused? ==> r.state == s
    ensures r.outcome.Returned? && r.outcome.res.Resolved? && r.outcome.res.status == ConnectedStatus ==>
              && m.chatType == Private
              && CachedFor(s, ActingUser(m, fromId)).None?
              && Authorized(s, ActingUser(m, fromId), r.outcome.res.chatId, req, isAdmin)
              && r.outcome.res.chatTitle == s.chatTitles[r.outcome.res.chatId]
              && r.state.cache != s.cache
  {
    var u := ActingUser(m, fromId);
    if m.chatType != Private then
      var title := if m.chatId in s.chatTitles then s.chatTitles[m.chatId] else m.chatTitle;
      Run(Returned(Resolved(ChatStatus, m.chatId, title)), s, [ChatLookup(m.chatId)])
    else
      match CachedFor(s, u)
      case Some(e) =>
        Run(Returned(Resolved(CachedStatus, e.chatId, e.chatTitle)), s, [CacheRead(CacheKey(u))])
      case None =>
        ResolveUncached(s, u, req, isAdmin)
  }
}

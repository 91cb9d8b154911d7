/** `set_connected_chat`: connects a user's private chat to a group, or
    disconnects it. */
module Manager {
  import opened Store

  /** `not chat_id`: an absent id and the id 0 both mean "disconnect". */
  predicate Falsy(chatId: Option<ChatId>)
  {
    chatId.None? || chatId.value == 0
  }

  /** No chat id occurs twice. */
  predicate NoDuplicates(h: seq<ChatId>)
  {
    forall i, j :: 0 <= i < j < |h| ==> h[i] != h[j]
  }

  /** `$addToSet` with a single element: appended unless already present. */
  function AddToSet(h: seq<ChatId>, c: ChatId): (r: seq<ChatId>)
    ensures forall x :: x in r <==> x in h || x == c
    ensures h <= r && |r| <= |h| + 1
    ensures NoDuplicates(h) ==> NoDuplicates(r)
  {
    if c in h then h else h + [c]
  }

  /** The user's `history`, empty when there is no document. */
  function HistoryOf(s: State, u: UserId): seq<ChatId>
  {
    if u in s.connections then s.connections[u].history else []
  }

  /** A state after an update, and the collaborator calls made. */
  datatype Update = Update(state: State, accesses: seq<Access>)

  /** `set_connected_chat(user_id, chat_id)`. A falsy id unsets `chat_id`
      (upserting the document) and always deletes the user's cache key; a
      truthy id sets `chat_id`, adds it to `history` and leaves the cache
      alone. Only the user's own document and cache key can change. */
  function SetConnected(s: State, u: UserId, chatId: Option<ChatId>): (r: Update)
    ensures r.state.userChats == s.userChats && r.state.chatTitles == s.chatTitles
    ensures r.state.settings == s.settings && r.state.now == s.now
    ensures r.state.connections.Keys == s.connections.Keys + {u}
    ensures forall v :: v in s.connections && v != u ==> r.state.connections[v] == s.connections[v]
    ensures HistoryOf(s, u) <= HistoryOf(r.state, u)
    ensures NoDuplicates(HistoryOf(s, u)) ==> NoDuplicates(HistoryOf(r.state, u))
    ensures Falsy(chatId) ==>
              && r.state.connections[u].chatId.None?
              && HistoryOf(r.state, u) == HistoryOf(s, u)
              && r.state.cache.Keys == s.cache.Keys - {CacheKey(u)}
              && forall k :: k in r.state.cache ==> r.state.cache[k] == s.cache[k]
    ensures !Falsy(chatId) ==>
              && r.state.connections[u].chatId == chatId
              && chatId.value in HistoryOf(r.state, u)
              && (forall x :: x in HistoryOf(r.state, u) ==> x in HistoryOf(s, u) || x == chatId.value)
              && r.state.cache == s.cache
  {
    var history := HistoryOf(s, u);
    if Falsy(chatId) then
      var key := CacheKey(u);
      Update(s.(connections := s.connections[u := Connection(None, history)],
                cache := s.cache - {key}),
             [ConnectionUpdate(u), CacheDelete(key)])
    else
      Update(s.(connections := s.connections[u := Connection(chatId, AddToSet(history, chatId.value))]),
             [ConnectionUpdate(u)])
  }

  /** Disconnecting is idempotent, and `Some(0)` disconnects like `None`. */
  lemma DisconnectIdempotent(s: State, u: UserId)
    ensures SetConnected(SetConnected(s, u, None).state, u, None).state == SetConnected(s, u, None).state
    ensures SetConnected(s, u, Some(0)) == SetConnected(s, u, None)
  {
  }

  /** Connecting twice to the same chat is the same as connecting once: the
      second `$addToSet` adds nothing. */
  lemma ConnectIdempotent(s: State, u: UserId, c: ChatId)
    requires c != 0
    ensures var s1 := SetConnected(s, u, Some(c)).state;
            SetConnected(s1, u, Some(c)).state == s1
  {
  }

  /** Connects `u` to each chat of `cs` in turn. */
  function ConnectAll(s: State, u: UserId, cs: seq<ChatId>): State
    decreases |cs|
  {
    if cs == [] then s else ConnectAll(SetConnected(s, u, Some(cs[0])).state, u, cs[1..])
  }

  /** After any series of connections the history is an insertion-ordered set:
      it extends the old history, has no duplicates, and holds exactly the old
      entries and every chat connected to. */
  lemma {:induction false} ConnectAllHistory(s: State, u: UserId, cs: seq<ChatId>)
    requires NoDuplicates(HistoryOf(s, u))
    requires forall i :: 0 <= i < |cs| ==> cs[i] != 0
    ensures var h := HistoryOf(ConnectAll(s, u, cs), u);
            && HistoryOf(s, u) <= h
            && NoDuplicates(h)
            && forall x :: x in h <==> x in HistoryOf(s, u) || x in cs
    decreases |cs|
  {
    if cs != [] {
      var s1 := SetConnected(s, u, Some(cs[0])).state;
      ConnectAllHistory(s1, u, cs[1..]);
      assert forall x :: x in cs <==> x == cs[0] || x in cs[1..];
    }
  }
}

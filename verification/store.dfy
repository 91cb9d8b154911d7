/** The state the connection core reads and writes: four Mongo collections
    (`connections`, `user_list`, `chat_list`, `chat_connection_settings`), the
    Redis key space holding resolution caches, and the Redis clock that drives
    key expiry. Each collection is a finite map from its unique key to the
    fields of the document that the core looks at. */
module Store {

  type UserId = int
  type ChatId = int

  datatype Option<T> = None | Some(value: T)

  /** Seconds a cached resolution stays alive (`redis.expire(key, 900)`). */
  const CacheTtl: nat := 900

  /** Prefix of the Redis key under which a user's resolution is cached. */
  const CacheKeyPrefix: string := "connection_cache_"

  /** The `type` of a Telegram chat; only `Private` is told apart by the core. */
  datatype ChatType = Private | Group | Supergroup | Channel

  /** The part of an incoming message the core reads: `chat.id`, `chat.type`,
      `chat.title` and `from_user.id`. */
  datatype Message = Message(chatId: ChatId, chatType: ChatType, chatTitle: string, senderId: UserId)

  /** A `connections` document. `chatId` is `None` when the `chat_id` field is
      absent; `history` is the `$addToSet` array (empty when never set). */
  datatype Connection = Connection(chatId: Option<ChatId>, history: seq<ChatId>)

  /** A `chat_connection_settings` document; `None` when the
      `allow_users_connect` key is absent. */
  datatype ConnectionSettings = ConnectionSettings(allowUsersConnect: Option<bool>)

  /** The Redis hash written for a validated resolution, with the absolute
      time at which Redis expires it. The stored `status` field is always 1
      and is overwritten on read, so it is not kept here. */
  datatype CacheEntry = CacheEntry(chatId: ChatId, chatTitle: string, expiresAt: nat)

  datatype State = State(
    connections: map<UserId, Connection>,        // connections, by user_id
    userChats: map<UserId, set<ChatId>>,         // user_list, by user_id: its chats
    chatTitles: map<ChatId, string>,             // chat_list, by chat_id: its chat_title
    settings: map<ChatId, ConnectionSettings>,   // chat_connection_settings, by chat_id
    cache: map<string, CacheEntry>,              // the Redis hashes, by key
    now: nat)                                    // the Redis clock, in seconds

  /** One call the core makes to a collaborator, in the order it makes them. */
  datatype Access =
    | CacheRead(key: string)
    | CacheWrite(key: string)
    | CacheExpire(key: string, seconds: nat)
    | CacheDelete(key: string)
    | ChatLookup(chat: ChatId)
    | ConnectionLookup(user: UserId)
    | ConnectionUpdate(user: UserId)
    | UserLookup(user: UserId)
    | AdminQuery(chat: ChatId, user: UserId)
    | SettingsLookup(chat: ChatId)

  /** The character Python's `str` uses for decimal digit `d`. */
  function DigitChar(d: int): (c: char)
    requires 0 <= d < 10
    ensures '0' <= c <= '9'
    ensures c as int - '0' as int == d
  {
    ('0' as int + d) as char
  }

  /** Decimal rendering of a natural number, most significant digit first,
      without leading zeros. */
  function NatToDecimal(n: nat): (r: string)
    ensures 1 <= |r|
    ensures forall i :: 0 <= i < |r| ==> '0' <= r[i] <= '9'
    ensures n < 10 <==> |r| == 1
    decreases n
  {
    if n < 10 then [DigitChar(n)] else NatToDecimal(n / 10) + [DigitChar(n % 10)]
  }

  /** Python's `str` on an integer: a leading '-' for negative values. */
  function IntToDecimal(i: int): (r: string)
    ensures 1 <= |r|
    ensures r[0] == '-' <==> i < 0
  {
    if i < 0 then "-" + NatToDecimal(-i) else NatToDecimal(i)
  }

  /** `'connection_cache_' + str(user_id)`. */
  function CacheKey(u: UserId): (k: string)
    ensures |CacheKeyPrefix| < |k|
    ensures k[..|CacheKeyPrefix|] == CacheKeyPrefix
    ensures k[|CacheKeyPrefix|..] == IntToDecimal(u)
  {
    CacheKeyPrefix + IntToDecimal(u)
  }

  lemma {:induction false} NatToDecimalInjective(a: nat, b: nat)
    requires NatToDecimal(a) == NatToDecimal(b)
    ensures a == b
    decreases a
  {
    var sa, sb := NatToDecimal(a), NatToDecimal(b);
    if a >= 10 && b >= 10 {
      assert sa[..|sa| - 1] == NatToDecimal(a / 10);
      assert sb[..|sb| - 1] == NatToDecimal(b / 10);
      NatToDecimalInjective(a / 10, b / 10);
      assert sa[|sa| - 1] == DigitChar(a % 10);
      assert sb[|sb| - 1] == DigitChar(b % 10);
    } else if a < 10 && b < 10 {
      assert sa[0] == DigitChar(a) && sb[0] == DigitChar(b);
    }
  }

  lemma IntToDecimalInjective(a: int, b: int)
    requires IntToDecimal(a) == IntToDecimal(b)
    ensures a == b
  {
    var sa, sb := IntToDecimal(a), IntToDecimal(b);
    if a < 0 && b < 0 {
      assert sa[1..] == NatToDecimal(-a);
      assert sb[1..] == NatToDecimal(-b);
      NatToDecimalInjective(-a, -b);
    } else if a >= 0 && b >= 0 {
      NatToDecimalInjective(a, b);
    }
  }

  /** Distinct users never share a cache key, so one user's cached
      resolution can never be served to another. */
  lemma CacheKeyInjective(u: UserId, v: UserId)
    ensures CacheKey(u) == CacheKey(v) <==> u == v
  {
    if CacheKey(u) == CacheKey(v) {
      IntToDecimalInjective(u, v);
    }
  }

  /** `redis.hgetall(key)` is non-empty: the key exists and Redis has not yet
      expired it. */
  predicate Live(s: State, key: string)
  {
    key in s.cache && s.now < s.cache[key].expiresAt
  }

  /** The cached resolution of user `u`, if a live one exists. */
  function CachedFor(s: State, u: UserId): Option<CacheEntry>
  {
    if Live(s, CacheKey(u)) then Some(s.cache[CacheKey(u)]) else None
  }

  /** Redis' clock advancing by `dt` seconds; nothing else changes. */
  function Elapse(s: State, dt: nat): State
  {
    s.(now := s.now + dt)
  }
}

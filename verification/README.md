# Connection resolution of a Telegram group-management bot, in Dafny

This project models how the bot decides which chat a command acts on. It
covers `sophie_bot/modules/utils/connections.py`:

- `get_connected_chat` is the resolver. In a group, the target is the group.
  In a private chat, the sources are tried in this order:
  1. the user's Redis cache entry;
  2. the user's stored connection;
  3. a membership check;
  4. an optional admin check;
  5. the chat's `allow_users_connect` policy.
- `chat_connection` is the decorator. It unwraps callback-style events,
  resolves, and then either replies with the refusal or calls the handler
  with the resolution appended.
- `set_connected_chat` connects or disconnects a user.

The Mongo collections `connections`, `user_list`, `chat_list` and
`chat_connection_settings` are finite maps in one `Store.State` record. The
Redis key space is a map from the real key string
(`'connection_cache_' + str(user_id)`) to a typed entry. Redis expiry is a
logical clock. `is_user_admin` is an oracle parameter `(ChatId, UserId) -> bool`.
Each operation is a pure function. It returns its outcome, the new state,
and the calls it made to the store, the cache and the oracle, in order. That
call list makes "no store call on a cache hit" statable.

Modules:

- `Store` (store.dfy): collections, cache entries, the cache key with decimal
  rendering, and the proof that the key is injective.
- `Resolver` (resolver.dfy): `get_connected_chat`.
- `ResolverProperties` (resolver_properties.dfy): one lemma per branch, plus
  reachability facts.
- `Manager` (manager.dfy): `set_connected_chat` and `$addToSet`.
- `Guard` (guard.dfy): `chat_connection`.
- `Invariants` (invariants.dfy): the invariant every reachable state keeps,
  and the connect / resolve / disconnect round trips.

Quirks of the code that are kept as written:

- `user_admin` is bound only when `admin is True`. So with `admin=False`, a
  chat whose `allow_users_connect` is `False` raises `UnboundLocalError`.
  The model returns `Raised(UnboundUserAdmin)` for this case.
- A missing `user_list` document (line 55) raises. So does a missing
  `chat_list` document for the connected chat (line 59).
- `from_id or ...` treats an override of 0 as absent.
- `if not chat_id` treats chat id 0 as a disconnect.
- A freshly validated result carries `status` 1 because it aliases the dict
  written to the cache (`ConnectedStatus`). A cached result carries `True`
  (`CachedStatus`).

### `conn_not_allowed` is unreachable

Lines 66-68 look meant to refuse a non-admin when the chat's policy forbids
connecting. In the code that refusal can never happen:

- with `admin=True`, `user_admin` is truthy once the admin check has passed;
- with `admin=False`, reading `user_admin` raises first.

The model follows the code. `ResolverProperties.ConnNotAllowedUnreachable`
proves that the refusal is unreachable. `ResolverProperties.UnboundUserAdminIff`
characterises exactly when the code raises instead.

`Resolver.CheckRightsIntended` is the corrected check: with `admin=False`
and a forbidding policy it asks `is_user_admin` on demand. It never raises,
and it refuses `conn_not_allowed` exactly to a non-admin under a forbidding
policy. `ResolverProperties.IntendedAgreesWhenNoUnbound` proves it behaves
like the code wherever the code does not raise. `Resolve` keeps the code's
behaviour; the corrected check is not wired into it.

The cache key depends on the user only (line 29), not on the `admin`
requirement. An entry cached by an `admin=False` command is therefore
served to a later `admin=True` command of a non-admin without any admin
query (`Invariants.CacheBypassesAdminCheck`).

Connecting to a new chat leaves the cache untouched (lines 113-120). So a
live entry for the old chat keeps being served until it expires, at most
900 seconds later (`Invariants.ConnectKeepsLiveCache`,
`Invariants.CacheExpiresWithinTtl`).

## Model

| member | source | states |
|---|---|---|
| Store.CacheKeyInjective | sophie_bot/modules/utils/connections.py:29 | Two users share the key `'connection_cache_' + str(user_id)` only if they are the same user, so a cached resolution is never served to anyone else. |
| Resolver.Resolve | sophie_bot/modules/utils/connections.py:24-82 | Only the acting user's cache key can change, and only on a status-1 result, which it then holds with a 900-second expiry. Every refusal and every exception leaves the state unchanged. A status-1 result implies all of these: the chat is private, there was no live cache entry, the user is connected to that chat, the user is recorded in it, the chat is stored, admin rights are held when required, the policy is passed, and the title is the stored one. |
| ResolverProperties.ZeroOverrideFallsBack | sophie_bot/modules/utils/connections.py:28 | A `from_id` of 0 resolves exactly like no override, acting for the sender. |
| ResolverProperties.GroupTargetsItself | sophie_bot/modules/utils/connections.py:31-36 | Outside a private chat, the result is `'chat'` with the message's chat id. The title comes from `chat_list` when stored, else from the message. The state is unchanged and the only call is that `chat_list` lookup: no cache, connection, admin or policy access. |
| ResolverProperties.CacheHitServesEntry | sophie_bot/modules/utils/connections.py:39-42 | In a private chat, a live cache entry of the acting user is returned with status `True` and its stored chat id and title. The only call is one cache read, and the state is unchanged. |
| ResolverProperties.UnconnectedFallsBack | sophie_bot/modules/utils/connections.py:44-49 | With no live cache entry and no connected chat, `only_groups` gives `usage_only_in_groups`. Otherwise the result is `'private'`, the user's own id and 'Local chat'. The cache is not written and no admin or policy check is made. |
| ResolverProperties.NotInChatBeforeRights | sophie_bot/modules/utils/connections.py:53-57 | A connected chat missing from the user's recorded chats is refused `not_in_chat`, with no admin or policy call and no state change. |
| ResolverProperties.MissingRecordsCrash | sophie_bot/modules/utils/connections.py:55-59 | A missing `user_list` document raises. So does a missing `chat_list` document for a connected chat the user belongs to. |
| ResolverProperties.AdminRequiredRefusesNonAdmin | sophie_bot/modules/utils/connections.py:61-63 | With `admin=True`, a non-admin is refused `u_should_be_admin` before the policy is ever looked up. |
| ResolverProperties.AdminBypassesPolicy | sophie_bot/modules/utils/connections.py:61-70 | With `admin=True`, an admin who passed membership gets the validated connection whatever the policy says. |
| ResolverProperties.UnboundUserAdminIff | sophie_bot/modules/utils/connections.py:62-67 | The resolver raises on the unbound `user_admin` exactly when a connected member with `admin=False` reaches a chat whose `allow_users_connect` is `False`. |
| ResolverProperties.ConnNotAllowedUnreachable | sophie_bot/modules/utils/connections.py:61-68 | `conn_not_allowed` is never returned, for any input. |
| Resolver.CheckRightsIntended | sophie_bot/modules/utils/connections.py:61-68 | The corrected rights check never raises, and refuses `conn_not_allowed` exactly when the `admin` requirement is met, the chat's policy forbids connecting and the user is not an admin. |
| ResolverProperties.IntendedAgreesWhenNoUnbound | sophie_bot/modules/utils/connections.py:61-68 | Wherever the code's rights check does not raise on the unbound `user_admin`, the corrected check gives the same outcome, state and calls. |
| ResolverProperties.IntendedReplacesUnbound | sophie_bot/modules/utils/connections.py:62-68 | Wherever the code raises on the unbound `user_admin`, the corrected check queries `is_user_admin`, connects an admin and refuses `conn_not_allowed` to a non-admin. |
| ResolverProperties.ConnectedIffAuthorized | sophie_bot/modules/utils/connections.py:44-82 | The result is a fresh status-1 connection to chat c with title t exactly when all of these hold: the chat is private, there is no live cache entry, every check on the connection to c passes, and t is c's stored title. |
| ResolverProperties.OracleQueriedOnlyWhenAdminRequired | sophie_bot/modules/utils/connections.py:62 | With `admin=False`, the call list contains no admin query. |
| ResolverProperties.OracleIrrelevantWithoutAdmin | sophie_bot/modules/utils/connections.py:61-68 | With `admin=False`, the outcome, state and calls are the same for every admin oracle. |
| ResolverProperties.StatusIdentifiesSource | sophie_bot/modules/utils/connections.py:31-82 | On success the status shows where the result came from: `'chat'` exactly for non-private chats, `True` exactly for a live cache entry, and `'private'` exactly for an unconnected private chat. `True` and `1` are told apart as `is True` would; a caller testing `== True` cannot tell a cache hit from a fresh validation, since `1 == True` in Python. |
| ResolverProperties.ResolveIsolatesUsers | sophie_bot/modules/utils/connections.py:76-80 | Resolving for one user never changes another user's cached resolution. |
| Manager.AddToSet | sophie_bot/modules/utils/connections.py:117 | `$addToSet` keeps the old array as a prefix and adds at most one element. Its elements are exactly the old ones plus the new id, and it keeps the array free of duplicates. |
| Manager.SetConnected | sophie_bot/modules/utils/connections.py:106-120 | Only the user's own document and cache key change, and the document is upserted. A falsy id clears `chat_id`, keeps `history` and deletes the user's cache key. A truthy id sets `chat_id`, adds it to `history` and leaves the cache untouched. `history` only grows and stays free of duplicates. |
| Manager.DisconnectIdempotent | sophie_bot/modules/utils/connections.py:106-111 | Disconnecting twice equals disconnecting once, and chat id 0 disconnects exactly like an absent id. |
| Manager.ConnectIdempotent | sophie_bot/modules/utils/connections.py:113-120 | Connecting to the same chat twice equals connecting once. |
| Manager.ConnectAllHistory | sophie_bot/modules/utils/connections.py:113-120 | After any series of connections, `history` extends the old one, has no duplicates, and holds exactly the old entries and every chat connected to. |
| Guard.ChatConnection | sophie_bot/modules/utils/connections.py:85-103 | A wrapped event without a message (a button on an inline-mode message) raises before any call is made, as `message.chat` fails at line 27. Otherwise the handler runs exactly when the resolution succeeded. It gets the original arguments and keyword arguments with the resolution appended as the last positional argument. A refusal is replied to the unwrapped message with its `err_msg` key. An exception propagates. State and calls are the resolver's. |
| Guard.WrappedEventActsForOuterUser | sophie_bot/modules/utils/connections.py:89-93 | For a wrapped event, the message is the inner one and the acting user is the outer event's user. In a group, the handler's target is the inner message's chat. |
| Guard.RefusalChangesNothing | sophie_bot/modules/utils/connections.py:95-97 | When the handler is not called, the state is unchanged. |
| Invariants.ResolvePreservesInv | sophie_bot/modules/utils/connections.py:70-80 | A resolution keeps the invariant: every cache entry belongs to a connected user, names a chat in that user's history, and expires within 900 seconds. |
| Invariants.SetConnectedPreservesInv | sophie_bot/modules/utils/connections.py:106-120 | Connecting and disconnecting keep the invariant: histories have no duplicates and hold a truthy active chat, and cache entries are consistent. |
| Invariants.ApplyPreservesInv | sophie_bot/modules/utils/connections.py:24-120 | Every state reachable from an invariant state keeps the invariant. Reachable means by any sequence of resolutions, connection changes, clock ticks and rewrites of the read-only collections. |
| Invariants.InitialInv | sophie_bot/modules/utils/connections.py:24-120 | A fresh deployment, with no connection documents and nothing cached, keeps the invariant whatever the read-only collections hold. |
| Invariants.ReachableStatesKeepInv | sophie_bot/modules/utils/connections.py:24-120 | Every state reached from a fresh deployment (no connection documents, nothing cached) by any sequence of operations keeps the invariant. These are the reachable states of the rows below. |
| Invariants.CachedTargetFromHistory | sophie_bot/modules/utils/connections.py:39-42 | In every state keeping the invariant (so in every reachable state), a resolution served from the cache targets a chat in the user's connection history. |
| Invariants.CacheExpiresWithinTtl | sophie_bot/modules/utils/connections.py:80 | In every state keeping the invariant (so in every reachable state), after 900 seconds no user has a live cached resolution. |
| Invariants.DisconnectForcesFallback | sophie_bot/modules/utils/connections.py:106-111 | Right after a disconnect, the user has no live cache entry. The next private resolution follows the unconnected branch. |
| Invariants.ConnectResolveDisconnect | sophie_bot/modules/utils/connections.py:24-120 | Round trip. Connect to c, then resolve with all checks satisfied: the result is c with status 1. Resolve again within 900 seconds: the cached c comes back with status `True` after one cache read. Disconnect, then resolve: the result falls back to the unconnected branch. |
| Invariants.ConnectKeepsLiveCache | sophie_bot/modules/utils/connections.py:113-120 | Connecting to another chat does not invalidate a live cache entry, which keeps being served. |
| Invariants.CacheBypassesAdminCheck | sophie_bot/modules/utils/connections.py:29-42 | A non-admin connected without admin rights gets `u_should_be_admin` from an `admin=True` resolution on the store path. Once an `admin=False` resolution has cached the connection, the same `admin=True` resolution is served from the cache with status `True` and no admin query. |

## Findings

| source | as written | input that shows it | evidently intended | confidence | as-written member | corrected member |
|---|---|---|---|---|---|---|
| sophie_bot/modules/utils/connections.py:62-68 | `user_admin` is bound only when `admin is True`, so the `conn_not_allowed` refusal can never be returned | a connected member, `admin=False`, chat settings with `allow_users_connect: False`: `UnboundLocalError` instead of `conn_not_allowed` | a non-admin is refused `conn_not_allowed` when the policy forbids connecting, with admin status computed when `admin` was not requested | high (not executed) | ResolverProperties.ConnNotAllowedUnreachable, ResolverProperties.UnboundUserAdminIff | Resolver.CheckRightsIntended, ResolverProperties.IntendedAgreesWhenNoUnbound, ResolverProperties.IntendedReplacesUnbound |

## Left out

- Async execution, and the concrete Mongo and Redis clients (lines 20-21): modelled as maps in one state record.
- Failures of the store or the cache themselves (connection errors, timeouts): not modelled. Such failures propagate to the caller.
- The implementation of `is_user_admin` (line 19): not part of this model. It is an oracle parameter.
- `message.reply` transport and localisation: the reply is an action carrying the `err_msg` key.
- Redis TTL timing: a logical clock in whole seconds. An entry is live while the clock is below its expiry time. `hmset` and `expire` are applied together, so the instant between them is not modelled.
- Cache payload typing (`int(cached['chat_id'])` and the stored `status` field): the entry is a typed record. Its `status` is always 1 and is overwritten on read.
- Documents with a missing field, such as a `user_list` document without `chats` or a `chat_list` document without `chat_title`, would raise `KeyError` in the source. They cannot be represented here: a stored record always has those fields.
- Resolver.ActingUser: every message has a sender. A message without `from_user`, such as a channel post, raises at line 28 when no `from_id` is given. The model does not represent that case.
- Values of `admin`, `only_groups` and `allow_users_connect` other than booleans: not representable. `admin is True` and `is False` become plain boolean tests.
- The return value of `set_connected_chat` (Mongo's update result): the model does not return it.
- Invariants.DisconnectForcesFallback: holds only because each operation is one atomic step. In the source, a resolution can read the connection (line 45) and suspend at an `await` (lines 55-66) while `set_connected_chat(u, None)` unsets the chat and deletes the key (lines 108-110). The resolution then writes the cache (lines 79-80), leaving a disconnected user with a live entry for up to 900 seconds. The same race breaks the `Invariants.Inv` clause that every cache entry belongs to a connected user. Interleavings are not modelled.

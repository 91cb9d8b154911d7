/** `chat_connection`: the decorator that resolves the target chat before a
    command handler runs, replying with the refusal instead of running the
    handler when the resolution is refused. */
module Guard {
  import opened Store
  import opened Resolver

  /** The first handler argument: a message, or an event (a callback query)
      that carries the user who acted and the message it belongs to, which
      is absent for a button on an inline-mode message. */
  datatype Event = Bare(message: Message) | Wrapped(fromUser: UserId, inner: Option<Message>)

  /** A handler argument: the event, any other positional value, or the
      resolution the decorator appends. */
  datatype Arg = EventArg(event: Event) | Value(text: string) | CheckArg(check: Resolution)

  /** What the decorated handler does: reply to the message with a refusal
      key, call the wrapped handler, or let the resolver's exception escape. */
  datatype Action =
    | Reply(to: Message, errKey: string)
    | Invoke(args: seq<Arg>, kwargs: map<string, Arg>)
    | Propagate(crash: Crash)

  datatype GuardRun = GuardRun(action: Action, state: State, accesses: seq<Access>)

  /** Lines 89-93: the message to resolve, if any, and the `from_id` override. */
  function Unwrap(e: Event): (Option<Message>, Option<UserId>)
  {
    match e
    case Bare(m) => (Some(m), None)
    case Wrapped(u, m) => (m, Some(u))
  }

  /** `chat_connection(**req)(func)(event, *rest, **kwargs)`. An event
      without a message raises on `message.chat` before any call is made.
      Otherwise the state and the collaborator calls are the resolver's; the
      handler runs exactly when the resolution succeeded, with the resolution
      appended to the original arguments, and a refusal is replied to the
      unwrapped message. */
  function ChatConnection(s: State, req: Requirements, event: Event, rest: seq<Arg>,
                          kwargs: map<string, Arg>, isAdmin: AdminOracle): (g: GuardRun)
    ensures Unwrap(event).0.None? ==> g == GuardRun(Propagate(NoMessage), s, [])
    ensures var (msg, fromId) := Unwrap(event);
            msg.Some? ==>
            var m := msg.value;
            var r := Resolve(s, m, req, fromId, isAdmin);
            && g.state == r.state
            && g.accesses == r.accesses
            && (g.action.Invoke? <==> r.outcome.Returned? && r.outcome.res.Resolved?)
            && (g.action.Invoke? ==>
                  && |g.action.args| == |rest| + 2
                  && g.action.args[0] == EventArg(event)
                  && g.action.args[1..|rest| + 1] == rest
                  && g.action.args[|rest| + 1] == CheckArg(r.outcome.res)
                  && g.action.kwargs == kwargs)
            && (g.action.Reply? <==> r.outcome.Returned? && r.outcome.res.Refused?)
            && (g.action.Reply? ==> g.action.to == m && g.action.errKey == ErrKey(r.outcome.res.err))
            && (g.action.Propagate? <==> r.outcome.Raised?)
  {
    var (msg, fromId) := Unwrap(event);
    match msg
    case None => GuardRun(Propagate(NoMessage), s, [])
    case Some(m) =>
      var r := Resolve(s, m, req, fromId, isAdmin);
      var action :=
        match r.outcome
        case Raised(c) => Propagate(c)
        case Returned(Refused(err)) => Reply(m, ErrKey(err))
        case Returned(res) => Invoke([EventArg(event)] + rest + [CheckArg(res)], kwargs);
      GuardRun(action, r.state, r.accesses)
  }

  /** For a wrapped event the acting user is the outer event's user (unless
      that id is 0) while the chat is the inner message's: in a group the
      handler receives the inner message's chat as its target. */
  lemma WrappedEventActsForOuterUser(s: State, req: Requirements, u: UserId, m: Message,
                                     rest: seq<Arg>, kwargs: map<string, Arg>, isAdmin: AdminOracle)
    requires u != 0
    ensures var (m', fromId) := Unwrap(Wrapped(u, Some(m)));
            m' == Some(m) && ActingUser(m, fromId) == u
    ensures m.chatType != Private ==>
              var g := ChatConnection(s, req, Wrapped(u, Some(m)), rest, kwargs, isAdmin);
              g.action.Invoke? && g.action.args[|rest| + 1].check.chatId == m.chatId
  {
  }

  /** A refusal is the only way the handler is skipped without an exception,
      and then the state is untouched: a refused command changes nothing. */
  lemma RefusalChangesNothing(s: State, req: Requirements, event: Event, rest: seq<Arg>,
                              kwargs: map<string, Arg>, isAdmin: AdminOracle)
    ensures var g := ChatConnection(s, req, event, rest, kwargs, isAdmin);
            !g.action.Invoke? ==> g.state == s
  {
  }
}

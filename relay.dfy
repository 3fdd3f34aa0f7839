/** The message handler of the Slack bridge and the pause route: the pause
    gate, the chain of skip conditions, the text cleanup, the per-channel
    session registry and the request record sent to api.ai.
 */
module Relay {
  import opened JsValue
  import opened JsString

  /** The fields of a Slack message event the handler reads. `text` is a
      JavaScript value: events without a string text exist. */
  datatype Message = Message(kind: string, user: string, channel: string, text: Value)

  /** The connected bot: its own user id and its team's id. */
  datatype Bot = Bot(identityId: string, teamId: string)

  /** An api.ai context: a name and its parameters. */
  datatype Context = Context(name: string, parameters: map<string, string>)

  /** The options of `textRequest` together with the text. */
  datatype Request = Request(text: string, sessionId: string, contexts: seq<Context>)

  /** What the handler does with one event. */
  datatype Action = Skip | Ask(request: Request)

  /** Why the handler stops, or that it goes on to relay. */
  datatype Verdict = Paused | NotAMessage | FromSelf | MentionsOtherUser | HandlerThrew | Relayed

  /** The new session registry together with the action taken. */
  datatype Step = Step(sessions: map<string, string>, action: Action)

  const MessageKind := "message"
  const DirectMentionPrefix := "<@U"
  /** The UTF-8 bytes of U+2019 read as Windows-1252: "â€™". */
  const MisencodedApostrophe := "\U{00E2}\U{20AC}\U{2122}"
  const Apostrophe := "'"
  const ContextName := "generic"
  const UserIdParameter := "slack_user_id"
  const ChannelParameter := "slack_channel"

  // ---------------------------------------------------------------- pauses

  /** The key of the pause registry: `channelId + '-' + teamId`. */
  function PauseKey(channelId: string, teamId: string): (key: string)
    ensures |key| == |channelId| + 1 + |teamId|
    ensures key[..|channelId|] == channelId && key[|channelId|] == '-'
    ensures key[|channelId| + 1..] == teamId
  {
    channelId + "-" + teamId
  }

  /** `pausedChannels[channelId + '-' + teamId]` read as a condition. */
  predicate IsPaused(paused: map<string, Value>, channelId: string, teamId: string)
    ensures IsPaused(paused, channelId, teamId) <==>
            PauseKey(channelId, teamId) in paused && Truthy(paused[PauseKey(channelId, teamId)])
  {
    PauseKeyNotInherited(channelId, teamId);
    Truthy(Get(Object(paused), PauseKey(channelId, teamId)).value)
  }

  /** The `/pause` route's update: that one key gets the body's `paused`. */
  function SetPaused(paused: map<string, Value>, channelId: string, teamId: string, flag: Value)
    : (r: map<string, Value>)
    ensures PauseKey(channelId, teamId) in r && r[PauseKey(channelId, teamId)] == flag
    ensures r.Keys == paused.Keys + {PauseKey(channelId, teamId)}
    ensures forall k :: k in paused && k != PauseKey(channelId, teamId) ==> r[k] == paused[k]
  {
    paused[PauseKey(channelId, teamId) := flag]
  }

  /** A pause key never names an inherited `Object.prototype` member, since
      it contains a dash and none of them does. */
  lemma PauseKeyNotInherited(channelId: string, teamId: string)
    ensures PauseKey(channelId, teamId) !in ObjectPrototypeMembers
  {
    var key := PauseKey(channelId, teamId);
    assert key[|channelId|] == '-';
    NoMemberHasDash();
  }

  /** A (channel, team) pair whose key was never written is not paused. */
  lemma NeverSetIsNotPaused(paused: map<string, Value>, channelId: string, teamId: string)
    requires PauseKey(channelId, teamId) !in paused
    ensures !IsPaused(paused, channelId, teamId)
  {
    PauseKeyNotInherited(channelId, teamId);
  }

  /** After the route stores `flag`, the pair is paused exactly when `flag`
      is truthy: a later falsy value re-enables relaying. */
  lemma SetPausedDecides(paused: map<string, Value>, channelId: string, teamId: string, flag: Value)
    ensures IsPaused(SetPaused(paused, channelId, teamId, flag), channelId, teamId) <==> Truthy(flag)
  {
  }

  /** Pairs with another key keep their pause state. */
  lemma SetPausedLeavesOtherKeys(paused: map<string, Value>, channelId: string, teamId: string,
                                 flag: Value, otherChannel: string, otherTeam: string)
    requires PauseKey(otherChannel, otherTeam) != PauseKey(channelId, teamId)
    ensures IsPaused(SetPaused(paused, channelId, teamId, flag), otherChannel, otherTeam)
            <==> IsPaused(paused, otherChannel, otherTeam)
  {
  }

  /** The key is not injective: two different pairs can share one key, and
      pausing one of them pauses the other. */
  lemma PauseKeyCollides()
    ensures ("C1-T", "1") != ("C1", "T-1")
    ensures PauseKey("C1-T", "1") == PauseKey("C1", "T-1")
    ensures IsPaused(SetPaused(map[], "C1", "T-1", Bool(true)), "C1-T", "1")
  {
    assert PauseKey("C1-T", "1") == "C1-T-1" == PauseKey("C1", "T-1");
  }

  // ---------------------------------------------------------------- filter

  /** The handler's checks, in the order it makes them. A non-string text
      makes `message.text.indexOf` throw; the handler's catch ends it. */
  function Screen(paused: map<string, Value>, bot: Bot, msg: Message): (v: Verdict)
    ensures v == Paused <==> IsPaused(paused, msg.channel, bot.teamId)
    ensures v == NotAMessage <==> !IsPaused(paused, msg.channel, bot.teamId) && msg.kind != MessageKind
    ensures v == FromSelf <==>
              !IsPaused(paused, msg.channel, bot.teamId) && msg.kind == MessageKind
              && msg.user == bot.identityId
    ensures v == HandlerThrew <==>
              !IsPaused(paused, msg.channel, bot.teamId) && msg.kind == MessageKind
              && msg.user != bot.identityId && !msg.text.Str?
    ensures v == MentionsOtherUser <==>
              !IsPaused(paused, msg.channel, bot.teamId) && msg.kind == MessageKind
              && msg.user != bot.identityId && msg.text.Str?
              && DirectMentionPrefix <= msg.text.s && !Contains(msg.text.s, bot.identityId)
  {
    if IsPaused(paused, msg.channel, bot.teamId) then Paused
    else if msg.kind != MessageKind then NotAMessage
    else if msg.user == bot.identityId then FromSelf
    else if !msg.text.Str? then HandlerThrew
    else
      MentionTestMeans(msg.text.s, bot.identityId);
      if IndexOf(msg.text.s, DirectMentionPrefix) == 0 && IndexOf(msg.text.s, bot.identityId) == -1
      then MentionsOtherUser
      else Relayed
  }

  /** The mention-to-other-users test reads: the raw text starts with "<@U"
      and holds the bot's id nowhere. */
  lemma MentionTestMeans(text: string, identityId: string)
    ensures (IndexOf(text, DirectMentionPrefix) == 0 && IndexOf(text, identityId) == -1)
            <==> (DirectMentionPrefix <= text && !Contains(text, identityId))
  {
    IndexOfZeroIffPrefix(text, DirectMentionPrefix);
  }

  /** A message is relayed exactly when none of the skip conditions holds. */
  lemma RelayedIff(paused: map<string, Value>, bot: Bot, msg: Message)
    ensures Screen(paused, bot, msg) == Relayed <==>
            && !IsPaused(paused, msg.channel, bot.teamId)
            && msg.kind == MessageKind
            && msg.user != bot.identityId
            && msg.text.Str?
            && !(DirectMentionPrefix <= msg.text.s && !Contains(msg.text.s, bot.identityId))
  {
    if msg.text.Str? {
      MentionTestMeans(msg.text.s, bot.identityId);
    }
  }

  // ---------------------------------------------------------------- cleanup

  /** `'<@' + bot.identity.id + '>'` */
  function BotMention(identityId: string): (mention: string)
    ensures |mention| == |identityId| + 3
    ensures mention[..2] == "<@" && mention[2..|mention| - 1] == identityId
    ensures mention[|mention| - 1] == '>'
  {
    "<@" + identityId + ">"
  }

  /** The request text: decoded, the first misencoded apostrophe fixed, the
      first mention of the bot removed. */
  function CleanText(decode: string -> string, raw: string, identityId: string): (r: string)
    ensures var fixed := Replace(decode(raw), MisencodedApostrophe, Apostrophe);
            |r| == if Contains(fixed, BotMention(identityId)) then |fixed| - |identityId| - 3 else |fixed|
    ensures !Contains(decode(raw), MisencodedApostrophe) && !Contains(decode(raw), BotMention(identityId))
            ==> r == decode(raw)
  {
    var fixed := Replace(decode(raw), MisencodedApostrophe, Apostrophe);
    if IndexOf(fixed, BotMention(identityId)) > -1 then Replace(fixed, BotMention(identityId), "")
    else fixed
  }

  /** The cleanup in explicit terms: with `fixed` the decoded text after the
      apostrophe step, the first bot mention in it, if any, is cut out, and
      a text without one is passed on as it is. */
  lemma CleanTextSpec(decode: string -> string, raw: string, identityId: string)
    ensures var fixed := Replace(decode(raw), MisencodedApostrophe, Apostrophe);
            var mention := BotMention(identityId);
            var r := CleanText(decode, raw, identityId);
            && (!Contains(fixed, mention) ==> r == fixed)
            && (Contains(fixed, mention) ==>
                  exists i :: FirstOccurrence(fixed, mention, i) && r == fixed[..i] + fixed[i + |mention|..])
  {
    var fixed := Replace(decode(raw), MisencodedApostrophe, Apostrophe);
    var mention := BotMention(identityId);
    if Contains(fixed, mention) {
      var i := IndexOf(fixed, mention);
      assert fixed[..i] + "" + fixed[i + |mention|..] == fixed[..i] + fixed[i + |mention|..];
    }
  }

  /** A decoded text with neither a misencoded apostrophe nor a bot mention
      is sent as decoded. */
  lemma CleanTextOfPlainText(decode: string -> string, raw: string, identityId: string)
    requires !Contains(decode(raw), MisencodedApostrophe) && '<' !in decode(raw)
    ensures CleanText(decode, raw, identityId) == decode(raw)
  {
    AbsentLeadNotContained(decode(raw), BotMention(identityId));
  }

  // ---------------------------------------------------------------- sessions

  /** `if (!sessionIds.has(channel)) sessionIds.set(channel, token)` */
  function GetOrCreate(sessions: map<string, string>, channel: string, token: string)
    : (r: map<string, string>)
    ensures r.Keys == sessions.Keys + {channel}
    ensures forall c :: c in sessions ==> r[c] == sessions[c]
    ensures channel !in sessions ==> r[channel] == token
  {
    if channel !in sessions then sessions[channel := token] else sessions
  }

  /** The request of line 118: one context, "generic", carrying the sender
      and the channel. */
  function BuildRequest(text: string, sessionId: string, msg: Message): (r: Request)
    ensures r.text == text && r.sessionId == sessionId
    ensures |r.contexts| == 1 && r.contexts[0].name == ContextName
    ensures r.contexts[0].parameters.Keys == {UserIdParameter, ChannelParameter}
    ensures r.contexts[0].parameters[UserIdParameter] == msg.user
    ensures r.contexts[0].parameters[ChannelParameter] == msg.channel
  {
    Request(text, sessionId,
      [Context(ContextName, map[UserIdParameter := msg.user, ChannelParameter := msg.channel])])
  }

  // ---------------------------------------------------------------- handler

  /** One event through the handler: `token` is what `uuid.v1()` would give. */
  function Handle(sessions: map<string, string>, paused: map<string, Value>, bot: Bot,
                  msg: Message, decode: string -> string, token: string): (st: Step)
    ensures st.action.Ask? <==> Screen(paused, bot, msg) == Relayed
    ensures st.action.Skip? ==> st.sessions == sessions
    ensures st.action.Ask? ==> st.sessions == GetOrCreate(sessions, msg.channel, token)
                               && st.action.request.sessionId == st.sessions[msg.channel]
  {
    if Screen(paused, bot, msg) != Relayed then Step(sessions, Skip)
    else
      var sessions' := GetOrCreate(sessions, msg.channel, token);
      Step(sessions', Ask(BuildRequest(CleanText(decode, msg.text.s, bot.identityId),
                                       sessions'[msg.channel], msg)))
  }

  /** A skipped event issues no request and leaves the sessions alone; a
      paused pair is skipped whatever the message. */
  lemma PausedIsSkipped(sessions: map<string, string>, paused: map<string, Value>, bot: Bot,
                        msg: Message, decode: string -> string, token: string)
    requires IsPaused(paused, msg.channel, bot.teamId)
    ensures Handle(sessions, paused, bot, msg, decode, token) == Step(sessions, Skip)
  {
  }

  /** The three filters after the pause gate each skip the event with no
      request and no session change. */
  lemma FiltersSkip(sessions: map<string, string>, paused: map<string, Value>, bot: Bot,
                    msg: Message, decode: string -> string, token: string)
    requires || msg.kind != MessageKind
             || msg.user == bot.identityId
             || (msg.text.Str? && DirectMentionPrefix <= msg.text.s
                 && !Contains(msg.text.s, bot.identityId))
    ensures Handle(sessions, paused, bot, msg, decode, token) == Step(sessions, Skip)
  {
    RelayedIff(paused, bot, msg);
  }

  /** The handler asks api.ai exactly when the event passes the filters, and
      then with the cleaned text, this channel's session and the one
      "generic" context. */
  lemma HandleAsksIff(sessions: map<string, string>, paused: map<string, Value>, bot: Bot,
                      msg: Message, decode: string -> string, token: string)
    ensures var st := Handle(sessions, paused, bot, msg, decode, token);
            && (st.action.Ask? <==> Screen(paused, bot, msg) == Relayed)
            && (st.action.Ask? ==>
                  && msg.text.Str?
                  && st.action.request.text == CleanText(decode, msg.text.s, bot.identityId)
                  && st.action.request.sessionId == st.sessions[msg.channel]
                  && |st.action.request.contexts| == 1
                  && st.action.request.contexts[0] ==
                     Context(ContextName, map[UserIdParameter := msg.user,
                                              ChannelParameter := msg.channel]))
  {
  }

  /** The registry only grows, by at most the message's channel, and never
      changes an existing session. */
  lemma HandleKeepsSessions(sessions: map<string, string>, paused: map<string, Value>, bot: Bot,
                            msg: Message, decode: string -> string, token: string)
    ensures var st := Handle(sessions, paused, bot, msg, decode, token);
            && sessions.Keys <= st.sessions.Keys <= sessions.Keys + {msg.channel}
            && (forall c :: c in sessions ==> st.sessions[c] == sessions[c])
            && (st.action.Skip? ==> st.sessions == sessions)
  {
  }

  /** Two relayed messages on one channel, one after the other, carry the
      same session id, whatever token the second would have been given. */
  lemma SessionReused(sessions: map<string, string>, paused: map<string, Value>, bot: Bot,
                      first: Message, second: Message, decode: string -> string,
                      token1: string, token2: string)
    requires first.channel == second.channel
    requires Handle(sessions, paused, bot, first, decode, token1).action.Ask?
    requires Handle(Handle(sessions, paused, bot, first, decode, token1).sessions,
                    paused, bot, second, decode, token2).action.Ask?
    ensures var st1 := Handle(sessions, paused, bot, first, decode, token1);
            var st2 := Handle(st1.sessions, paused, bot, second, decode, token2);
            && st2.sessions == st1.sessions
            && st2.action.request.sessionId == st1.action.request.sessionId
  {
  }

  /** An ambient "hello" from another user on an unpaused channel becomes
      one request with text "hello" and the fresh session token. */
  lemma HelloScenario(decode: string -> string, token: string)
    requires decode("hello") == "hello"
    ensures var msg := Message(MessageKind, "U2", "C1", Str("hello"));
            Handle(map[], map[], Bot("UB", "T1"), msg, decode, token)
            == Step(map["C1" := token],
                    Ask(Request("hello", token,
                                [Context(ContextName, map[UserIdParameter := "U2",
                                                          ChannelParameter := "C1"])])))
  {
    var msg := Message(MessageKind, "U2", "C1", Str("hello"));
    NeverSetIsNotPaused(map[], "C1", "T1");
    AbsentLeadNotContained("hello", DirectMentionPrefix);
    AbsentLeadNotContained("hello", MisencodedApostrophe);
    CleanTextOfPlainText(decode, "hello", "UB");
  }

  // ---------------------------------------------------------------- state

  /** The module-level registries of the bridge process. */
  class Bridge {
    var sessionIds: map<string, string>
    var pausedChannels: map<string, Value>

    constructor ()
      ensures sessionIds == map[] && pausedChannels == map[]
    {
      sessionIds := map[];
      pausedChannels := map[];
    }

    /** The `/pause` route's registry update. */
    method SetPause(channelId: string, teamId: string, paused: Value)
      modifies this`pausedChannels
      ensures pausedChannels == SetPaused(old(pausedChannels), channelId, teamId, paused)
    {
      pausedChannels := pausedChannels[channelId + "-" + teamId := paused];
    }

    /** The `controller.hears` handler, up to the api.ai call: `decode` is
        the entity decoder and `token` what `uuid.v1()` returns. */
    method OnMessage(bot: Bot, msg: Message, decode: string -> string, token: string)
      returns (action: Action)
      modifies this`sessionIds
      ensures Step(sessionIds, action)
              == Handle(old(sessionIds), pausedChannels, bot, msg, decode, token)
    {
      action := Skip;
      var channelId := msg.channel;
      var teamId := bot.teamId;
      if Truthy(Get(Object(pausedChannels), channelId + "-" + teamId).value) {
        return;
      }
      if msg.kind == MessageKind {
        if msg.user == bot.identityId {
          // the bot's own message
        } else if !msg.text.Str? {
          // `message.text.indexOf` throws; the handler's catch swallows it
        } else if IndexOf(msg.text.s, DirectMentionPrefix) == 0
                  && IndexOf(msg.text.s, bot.identityId) == -1 {
          // a direct mention of another user
        } else {
          var requestText := decode(msg.text.s);
          requestText := Replace(requestText, MisencodedApostrophe, Apostrophe);
          var channel := msg.channel;
          var botId := "<@" + bot.identityId + ">";
          var userId := msg.user;
          if IndexOf(requestText, botId) > -1 {
            requestText := Replace(requestText, botId, "");
          }
          if channel !in sessionIds {
            sessionIds := sessionIds[channel := token];
          }
          assert requestText == CleanText(decode, msg.text.s, bot.identityId);
          action := Ask(Request(requestText, sessionIds[channel],
            [Context(ContextName, map[UserIdParameter := userId, ChannelParameter := channel])]));
        }
      }
    }
  }
}

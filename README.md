# Slack ⇄ api.ai relay: the decision layer

The bot (`src/index.js`) listens to Slack messages, sends their text to
api.ai, and posts api.ai's answer back to the channel. An HTTP route,
`POST /pause`, turns relaying off and on for a (channel, team) pair. This
project models the bot's sequential decision logic and proves what it does:

- **Pause registry** (`Relay.SetPaused`, `Relay.IsPaused`, `Relay.Bridge.SetPause`).
  This is the `pausedChannels` object. Its key is `channelId + '-' + teamId`.
  The route stores the body's `paused` value under that key. The message
  handler reads the key as a JavaScript condition. The key is not injective,
  and `Relay.PauseKeyCollides` shows two pairs that share one key.
- **Relay filter** (`Relay.Screen`). Its checks run in the source's order:
  pause flag, event type, the bot's own message, a text that is not a string
  (so `indexOf` throws and the handler's `catch` ends the event), and a
  direct mention of another user. The last test reads the raw text.
- **Text cleanup and sessions** (`Relay.CleanText`, `Relay.GetOrCreate`,
  `Relay.BuildRequest`, `Relay.Handle`, `Relay.Bridge.OnMessage`). Decoding
  comes first. Then the first `â€™` is replaced by `'`. Then the first
  `<@id>` is removed. After that comes the session get-or-create on the
  `sessionIds` map, and finally the request record with its single
  `"generic"` context.
- **Reply dispatch** (`Dispatch.ChooseReply`). It chooses between the
  structured reply (`data.slack`), the text reply (`speech`) and no reply.
  Both the choice and `isDefined` are exact JavaScript truthiness
  (`JsValue.IsDefined`, `JsValue.Truthy`). A property read on `undefined`
  or `null` throws.

JavaScript values are the datatype `JsValue.Value`. `indexOf` and
string-pattern `replace` are `JsString.IndexOf` and `JsString.Replace`.
`replace` changes only the first occurrence. The entity decoder
(`decoder.decode`) is a parameter `decode: string -> string`, with no
assumptions made about it. `uuid.v1()` is a parameter `token`. The two
module-level registries are the fields of the class `Relay.Bridge`. Its
methods update the fields in place, as the route and the handler do.
Each method is proved equal to the pure function that the lemmas talk
about.

Property reads model the names inherited from `Object.prototype`, such as
`constructor`, `toString` and `__proto__`. A plain object returns these
even when it has no own property of that name. `Relay.PauseKeyNotInherited`
proves that a pause key never hits one, because every pause key contains
`-` and none of those names does. So a pair whose key was never written
is not paused.

## Model

| member | source | states |
|---|---|---|
| `JsValue.IsDefined` | src/index.js:70-80 | `isDefined(v)` is true exactly when `v` is truthy, and then `v` is neither `undefined` nor `null` |
| `JsValue.Get` | src/index.js:135-139 | a property read throws a TypeError exactly on `undefined` or `null`; otherwise it gives the own property, or `undefined` for a name that is neither own nor inherited |
| `JsValue.TruthyReadIsSafe` | src/index.js:139 | reading `data.slack` after `isDefined(data)` cannot throw |
| `JsString.IndexOf` | src/index.js:93 | `indexOf` is -1 exactly when the pattern does not occur; otherwise it is the first index where it occurs |
| `JsString.IndexOfZeroIffPrefix` | src/index.js:93 | `text.indexOf("<@U") == 0` holds exactly when the text starts with `<@U` |
| `JsString.Replace` | src/index.js:99 | string-pattern `replace` leaves a text without the pattern unchanged; otherwise it replaces the first occurrence only, and the length changes by `|rep| - |pat|` |
| `JsString.ReplaceKeepsRest` | src/index.js:109-111 | replacing the first occurrence keeps the text before it unchanged and free of the pattern, and keeps everything after it, later occurrences included |
| `Relay.PauseKey` | src/index.js:86 | the key is the channel id, a `-`, then the team id, exactly as `channelId + '-' + teamId` lays them out (it is not claimed injective); specified further by `Relay.PauseKeyNotInherited` and `Relay.PauseKeyCollides` |
| `Relay.IsPaused` | src/index.js:86-88 | the gate's truthiness read of `pausedChannels[key]` holds exactly when the key was written with a truthy value, since an absent key reads as `undefined` and never hits an inherited member; specified further by `Relay.NeverSetIsNotPaused` and `Relay.SetPausedDecides` |
| `Relay.SetPaused` | src/index.js:184 | the route sets exactly the key `channelId + '-' + teamId` to the body's `paused`, adds no other key and changes no other key |
| `Relay.PauseKeyNotInherited` | src/index.js:86 | a pause key never names an inherited `Object.prototype` member |
| `Relay.NeverSetIsNotPaused` | src/index.js:86-88 | a pair whose key was never written is not paused |
| `Relay.SetPausedDecides` | src/index.js:184 | after the route stores `flag`, the pair is paused exactly when `flag` is truthy, so a later falsy value re-enables relaying |
| `Relay.SetPausedLeavesOtherKeys` | src/index.js:184 | a pair with a different key keeps its pause state |
| `Relay.PauseKeyCollides` | src/index.js:86 | the distinct pairs ("C1-T", "1") and ("C1", "T-1") share a key, and pausing one pauses the other |
| `Relay.Screen` | src/index.js:86-95 | the skip chain in source order: paused first; then not a `message`; then the bot's own message; then a non-string text (where `indexOf` throws); then a raw text starting with `<@U` that lacks the bot id. Each verdict holds exactly when its condition holds and every earlier one fails; specified further by `Relay.RelayedIff` |
| `Relay.MentionTestMeans` | src/index.js:93 | the mention filter holds exactly when the raw text starts with `<@U` and does not contain the bot's id |
| `Relay.RelayedIff` | src/index.js:84-96 | a message passes the filter exactly when it is not paused, is of type `message`, is not from the bot, has a string text, and is not a direct mention that leaves the bot's id out |
| `Relay.Handle` | src/index.js:84-130 | one event asks api.ai exactly when `Screen` relays it; a skipped event leaves the sessions as they were; a relayed one applies the get-or-create and carries the map's session for the channel; specified further by `Relay.HandleAsksIff`, `Relay.HandleKeepsSessions` and `Relay.SessionReused` |
| `Relay.PausedIsSkipped` | src/index.js:84-88 | a paused pair issues no request and adds no session, whatever the message |
| `Relay.FiltersSkip` | src/index.js:89-95 | a non-`message` type, the bot's own message, or a raw text starting with `<@U` without the bot's id each give no request and no session change |
| `Relay.BotMention` | src/index.js:103 | the mention token is `<@`, the bot id, then `>` |
| `Relay.CleanText` | src/index.js:98-111 | the cleaned text is the apostrophe-fixed decoded text, shortened by one mention token exactly when it contains one, and equal to the decoded text when that has neither `â€™` nor a mention; specified in full by `Relay.CleanTextSpec` |
| `Relay.CleanTextSpec` | src/index.js:98-111 | after decoding and fixing the apostrophe, the first `<@id>` is cut out when present, and the text is left unchanged otherwise |
| `Relay.CleanTextOfPlainText` | src/index.js:98-111 | a decoded text that contains no occurrence of the sequence `â€™` and no `<` character is sent exactly as decoded |
| `Relay.GetOrCreate` | src/index.js:113-115 | the session map gains at most the message's channel, which gets the fresh token only if it was absent, and no existing session is overwritten |
| `Relay.BuildRequest` | src/index.js:118-130 | the request carries the text and the session id, and exactly one context, `"generic"`, whose parameters are `slack_user_id = user` and `slack_channel = channel` |
| `Relay.HandleAsksIff` | src/index.js:113-130 | the handler sends a request exactly when the filter lets the message through, with the cleaned text, the map's session for the channel and the single generic context |
| `Relay.HandleKeepsSessions` | src/index.js:113-115 | the registry grows by at most the message's channel, never changes an existing entry, and is untouched when the message is skipped |
| `Relay.SessionReused` | src/index.js:113-120 | two relayed messages in a row on one channel carry the same session id, and the second adds no entry |
| `Relay.HelloScenario` | src/index.js:84-130 | an ambient "hello" from another user on an unpaused channel gives one request with text "hello" and the new session token |
| `Relay.Bridge.constructor` | src/index.js:25-26 | both registries start empty |
| `Relay.Bridge.SetPause` | src/index.js:182-186 | the route's in-place update is `SetPaused` applied to the old registry |
| `Relay.Bridge.OnMessage` | src/index.js:82-131 | the handler's step-by-step run yields the same action and the same new session map as `Handle` |
| `Dispatch.ChooseReply` | src/index.js:132-146 | any reply needs a truthy `response.result` with a readable fulfillment; a structured reply needs a truthy `data` and carries exactly `data.slack`, which is truthy; a text reply carries exactly `fulfillment.speech`, which is truthy |
| `Dispatch.FalsyResultSendsNothing` | src/index.js:135 | a falsy `response.result` sends nothing |
| `Dispatch.ThrowsIff` | src/index.js:135-137 | the callback throws exactly when the response is `undefined` or `null`, or when the result is truthy but its fulfillment is `undefined` or `null` |
| `Dispatch.SlackDataWins` | src/index.js:139-140 | when `data` and `data.slack` are truthy, only the structured reply with `data.slack` is chosen |
| `Dispatch.SpeechOtherwise` | src/index.js:141-143 | otherwise a truthy speech is sent as text, and anything else sends nothing |
| `Dispatch.SpeechScenarios` | src/index.js:135-143 | speech "hi!" gives the text reply "hi!", and empty speech gives no reply |

## Left out

- RTM connection, Botkit controller setup and the `rtm_close` restart (src/index.js:28-68). These are calls into the Slack SDK. The restart is tried only when `bot.doNotRestart != true`, and that is not modelled.
- The api.ai network request and its `'response'`/`'error'` events (src/index.js:118, 132-149). This is asynchronous I/O. The model stops at the request record and at the reply choice for a given response value. An `'error'` event only logs.
- The TypeError of `Dispatch.ThrowsIff` escapes: the `'response'` callback (src/index.js:132-146) runs after the handler's `try` has returned, so the `catch` at src/index.js:152-154 does not see it. What the process then does is up to Node.js and is not modelled.
- `bot.reply` and the try/catch fallback in `replyWithData` (src/index.js:157-171). These are foreign sends. `Dispatch.Reply` names which reply would be sent and what it carries.
- `html-entities` decoding and `uuid.v1()`. They are an arbitrary `decode` function and a `token` parameter. The model does not know which entities exist or that tokens are unique.
- Express routing, body parsing, `GET /` and `listen` (src/index.js:173-198). This is HTTP plumbing. Only the registry update at line 184 is modelled.
- dashbot middleware and `console` logging (src/index.js:33-34). These are passive observers. The outer `catch` (src/index.js:152-154) is modelled only for the non-string text that makes `indexOf` throw.
- `Relay.Message`: `type`, `user` and `channel` are strings, and `bot.team_info.id` is always present. The model does not cover how JavaScript coerces missing or non-string values in `==` and `+`.
- `Relay.Screen`: any `text` that is not a string is treated as making `indexOf` throw. An array `text` has its own `indexOf` and would not throw; that case is not modelled.
- `Relay.SetPaused`: `channelId` and `teamId` from the body are strings. JavaScript would turn other JSON values such as `undefined` or numbers into strings in the key, and that is not modelled.
- `JsString.Replace`: `$` patterns in the replacement string are not interpreted. The source's replacements (`'` and the empty string) contain none.
- `JsValue.Get`: a primitive's own properties (a string's `length` and its indices) and the methods of `String.prototype`, `Number.prototype` and `Boolean.prototype` are not modelled. None of the names the source reads is one of them.
- `JsValue.Value`: numbers are reals plus NaN. Floating-point rounding does not arise, because only truthiness is tested.
- `JsString.IndexOf`: Dafny strings are sequences of Unicode scalar values, while JavaScript strings are UTF-16 code units. After an astral character the index differs from JavaScript's, and a lone surrogate cannot be represented. The source only compares `indexOf` with 0 and -1 and uses `replace`, so none of the modelled behaviour changes.

# Ninjatube subscription verification — a Dafny model

The Ninjatube bot (`index.js`) lets a Discord server hand out a role to
members who prove, with a screenshot, that they are subscribed to a YouTube
channel. An administrator runs `/setup` with a channel, a role and the
YouTube channel name. The bot stores these per guild in an in-memory
`settings` table and posts a panel with a **Verify** button whose custom id
is `verify_<guildId>`. Pressing the button sends the member a DM and, once
it has been sent, records a *pending* request for them in a second table
(`pending`, user id → guild, name, role). The member answers in DM with a screenshot. The bot has
Gemini read the text in it, lower-cases that text and the expected name,
and grants the role when the name occurs in the text.

The model has five modules:

- `Wrappers` (`wrappers.dfy`): `Option`, standing for JavaScript's `undefined`.
- `Text` (`text.dfy`): the JavaScript string operations the bot relies on.
  These are ASCII `toLowerCase` (`Lower`), `includes` (`Includes`, proved
  equal to "occurs at some position", `Contains`), `join` and `split` on one
  character, with their round trips.
- `Gemini` (`gemini.dfy`): the shape of a `generateContent` answer, the text
  read out of it (`ExtractedText`, index.js:142-144) and the decision
  (`Verdict`, index.js:146). It also holds the lemmas that pin the decision
  down.
- `Bot` (`bot.dfy`): the class `Verifier`, which owns the two tables as
  `map` fields, and the handlers `OnSetup`, `OnButton`, `OnMessage` and the
  `interactionCreate` dispatcher `OnInteraction`. Each handler changes the
  tables in place and returns the platform actions it asks for (`Reply`,
  `PostPanel`, `AskForScreenshot`, `GrantRole`). The empty list means the
  handler does nothing. The class invariant `Valid` says every pending
  request names a configured guild; every handler keeps it.
- `Scenarios` (`scenarios.dfy`): whole conversations with a freshly
  constructed `Verifier`, with what the member ends up with stated in each
  method's contract.

The outside world enters as plain inputs. `/setup` gets an `isAdmin` flag.
A message gets `inGuild`, `fromBot` and `hasAttachment` flags. The button
gets `dmDelivered`, which says whether the DM could be delivered. The
screenshot analysis gets an `Analysis`: `DownloadFailed`, `GeminiFailed` or
`Answered(json)`.

Behaviour of the code worth knowing:

- A failed Gemini call does not end the attempt: the handler returns
  before `pending.delete` (index.js:304-312), so the pending request stays
  and the member can simply send another screenshot
  (`Scenarios.RetryAfterOcrFailure`).
- A failed download of the attachment (index.js:299-301) is outside the
  `try`, so its exception escapes the handler after the "processing" reply
  and before `pending.delete`. The model stops the handler at that point
  with both tables as they were (see "## Left out" for what the runtime
  does next).
- The pending request is written only after the DM has been sent
  (index.js:272-278). If sending the DM fails, its exception escapes before
  `pending.set`; the model records nothing and stops there
  (`Scenarios.UndeliveredPromptIgnoresScreenshot`).
- A request keeps the role and name it was started with, even if `/setup`
  reconfigures the guild in between (`Scenarios.RequestKeepsOldRole`).
- Any answer passes for an empty expected name (`Gemini.EmptyNameAccepts`).
- The client's gateway intents (index.js:62-67) are `Guilds`,
  `GuildMembers`, `GuildMessages` and `MessageContent`, without
  `DirectMessages`. Under Discord's gateway rules, `messageCreate` events for
  DMs are delivered only with that intent, so the screenshot handler would
  not receive the member's DM as configured. This is a reading of the code,
  not something observed; the model treats a DM as delivered to the handler.

## Model

| member | source | states |
|---|---|---|
| `Text.LowerChar` | index.js:146 | an upper-case ASCII letter becomes the letter 32 code points above it, every other character stays, and no upper-case letter is left |
| `Text.Lower` | index.js:146 | `toLowerCase` keeps the length and lower-cases each character on its own (ASCII letters only) |
| `Text.Includes` | index.js:146 | the search succeeds when the needle is a prefix, and whatever it reports found really occurs in the text |
| `Text.IncludesIsContains` | index.js:146 | the left-to-right `includes` search is true exactly when the needle occurs at some position of the text |
| `Text.Join` | index.js:143 | with a non-empty separator the join is "" exactly when there are no pieces or a single empty one |
| `Text.JoinSplit` | index.js:251 | joining the pieces of `split(c)` with `c` gives back the original string |
| `Text.SplitJoin` | index.js:251 | splitting a `join` of one or more separator-free pieces gives back exactly those pieces |
| `Text.Split` | index.js:251 | `split` yields at least one piece, no piece contains the separator, and the first piece is the string up to the first separator |
| `Text.ContainsPiece` | index.js:143-146 | whatever occurs in one joined piece occurs in the joined string |
| `Text.ContainsJoin` | index.js:143-146 | a needle without the separator occurs in the joined string iff it occurs in one of the pieces |
| `Gemini.ReturnedParts` | index.js:143 | the optional chain yields parts exactly when candidates, a first candidate, its content and its parts are all present, and then they are the first candidate's parts |
| `Gemini.PartText` | index.js:143 | `p.text \|\| ""` is "" exactly when the text is missing or empty, and the text itself otherwise |
| `Gemini.PartTexts` | index.js:143 | `map(p => p.text \|\| "")` gives one string per part, a missing `text` read as "" |
| `Gemini.ExtractedText` | index.js:142-144 | the extracted text is empty exactly when no parts came back, the parts list is empty, or its only part has no text |
| `Gemini.Verdict` | index.js:142-146 | the verdict is true iff the lower-cased expected name occurs somewhere in the lower-cased extracted text |
| `Gemini.ExtractedTextSplitsIntoParts` | index.js:142-144 | when at least one part came back and no part's text holds a newline, splitting the extracted text on newlines returns each part's `text`, or "" where it is missing, in order |
| `Gemini.NothingReturnedMeansNoText` | index.js:142-144 | no candidates, an empty candidate list or an empty parts list gives the empty text |
| `Gemini.NoTextRejects` | index.js:142-146 | with an empty text the verdict is true iff the expected name is empty, so every non-empty name is rejected |
| `Gemini.EmptyNameAccepts` | index.js:146 | an empty expected name is accepted whatever the answer |
| `Gemini.VerdictIgnoresNameCase` | index.js:146 | the verdict for a name equals the verdict for its lower-cased form |
| `Gemini.LowerJoin` | index.js:143-146 | lower-casing the joined text equals joining the lower-cased parts |
| `Gemini.VerdictPerPart` | index.js:142-146 | for a name without a newline, the verdict is true iff some single part's lower-cased text contains the lower-cased name |
| `Gemini.PartContainingNamePasses` | index.js:142-146 | one part that contains the name in any letter case makes the verdict true |
| `Gemini.LetterMissingRejects` | index.js:142-146 | a letter of the name that the text has in neither case makes the verdict false |
| `Bot.PanelButtonId` | index.js:229 | the button id is "verify_" followed by the guild id |
| `Bot.ButtonGuildId` | index.js:249-251 | a custom id yields a guild iff it starts with "verify_"; the guild is the `_`-free segment right after "verify_", ended by the next `_` or the end of the id |
| `Bot.PanelButtonRoundTrip` | index.js:229 | for a guild id without `_`, the button id `/setup` posts names that guild again |
| `Bot.Verifier.constructor` | index.js:38-56 | the bot starts with the settings loaded from disk and no pending requests |
| `Bot.Verifier.OnSetup` | index.js:205-245 | a non-administrator gets a refusal and nothing changes; an administrator replaces exactly that guild's settings with `{channelId, roleId, youtubeName}` and gets the panel with button `verify_<guildId>` and a confirmation; pending requests never change |
| `Bot.Verifier.OnButton` | index.js:248-279 | an id not starting with "verify_" does nothing; an unconfigured guild gets a refusal and no entry; otherwise the DM is sent, and once it is delivered `pending[user]` becomes that guild's `{guildId, youtubeName, roleId}`, replacing any earlier entry and leaving other users' entries as they were; settings never change |
| `Bot.Verifier.OnMessage` | index.js:285-327 | guild, bot and non-pending messages do nothing; no attachment asks for an image and keeps the entry; a failed download or Gemini call keeps the entry; an answer removes the entry and grants the entry's role iff `Verdict` holds for the entry's name; a granted role is always in a configured guild |
| `Bot.Verifier.OnInteraction` | index.js:204-280 | the `setup` command has exactly the effect and actions of the settings update (`SetupOutcome`) and leaves pending requests alone; a button has exactly the effect and actions of the button handler (`ButtonOutcome`) and leaves settings alone; any other interaction changes nothing and does nothing |
| `Scenarios.MatchingScreenshotPasses` | index.js:142-146 | the text "Subscribed to Glitch Ninja channel" passes for the name "Glitch Ninja" |
| `Scenarios.OtherChannelFails` | index.js:142-146 | the text "Subscribed to Other Channel" fails for the name "Glitch Ninja" |
| `Scenarios.LetterMissingAnswerFails` | index.js:142-146 | an answer fails when the name has an upper-case letter that its text holds in neither case |
| `Scenarios.VerbatimAnswerPasses` | index.js:142-146 | an answer whose text holds the name verbatim, surrounded by anything, passes |
| `Scenarios.SetupThenVerify` | index.js:205-327 | setup, a press of the posted button and a screenshot leave the member with nothing pending, with the configured role granted iff the verdict holds |
| `Scenarios.RetryAfterOcrFailure` | index.js:304-312 | after a failed Gemini call the request survives, and the next screenshot is judged against it |
| `Scenarios.TextOnlyMessageKeepsEntry` | index.js:292-295 | a message without an attachment only asks for an image; the next screenshot is still judged, with the role granted iff the verdict holds |
| `Scenarios.LatestButtonWins` | index.js:274-278 | after buttons for two guilds, the screenshot is judged against the second guild's name, and the second guild's role is granted iff that verdict holds |
| `Scenarios.RequestKeepsOldRole` | index.js:274-278 | reconfiguring the guild after a button press does not change the name the pending member is judged against or the role granted iff that verdict holds |
| `Scenarios.UndeliveredPromptIgnoresScreenshot` | index.js:272-278 | when the DM cannot be delivered no request is recorded, and the member's screenshot is ignored |

## Left out

- Discord client setup, command registration (`registerCmds`, `deploy-commands.js`), embeds, buttons and the wording of replies. These are platform plumbing; replies are modelled by kind only.
- The Express keep-alive server: network I/O unrelated to verification.
- Reading and writing `settings.json`: the constructor takes the loaded table, and `saveSettings` is not modelled.
- The HTTP calls (attachment download, base64 encoding, the Gemini POST and its error body). Their outcome is the `Analysis` input.
- Resolving the guild and member and calling `roles.add` after a verdict (index.js:314-318). These are platform calls, emitted as a `GrantRole` action. Their failures raise exceptions after the entry has been removed; the model has them succeed.
- Failures of the remaining platform calls: the interaction replies, `channel.send` in `/setup` (index.js:236), and the DM handler's `msg.reply` calls (index.js:294, 297, 307, 319, 324) are taken to succeed. Only the DM of the verify button (`dmDelivered`) and the attachment download (`DownloadFailed`) may fail in the model.
- Exceptions that escape a handler: index.js catches none of the failures above, nor the download or the DM, and registers no `error` or `unhandledRejection` listener. Such an exception is modelled as the handler stopping at that point with both tables as they were. What the runtime does next is not modelled; by Node's default for an unhandled rejection it ends the process, which loses every entry of `pending` (the settings survive in `settings.json`).
- Interleaving of the asynchronous handlers: each handler is modelled as one atomic step.
- `Gemini.ExtractedTextSplitsIntoParts`: the round trip needs at least one part and no newline inside any part's text. A part whose text spans several lines splits into several pieces, so the split does not give back the parts then. What the decision needs holds for every answer: a name found in any one part passes (`Gemini.PartContainingNamePasses`), and a name without a newline passes only if one part holds it (`Gemini.VerdictPerPart`).
- `Text.Lower`: only ASCII letters are lower-cased; full Unicode `toLowerCase` is not modelled.
- `settings` is a plain JavaScript object, so an id naming one of its inherited properties (such as `constructor`) would look configured. The model uses a map with only the stored keys.
- `Gemini.Response`: the answer is taken to be well-formed JSON of the documented shape. A `null` body, a part that is not an object, or a `text` that is not a string are not modelled.

/**
 * The verification state machine of the Ninjatube bot (index.js): the
 * per-guild settings table, the per-user pending-verification table, and
 * the three event handlers that read and change them.  Each handler
 * returns the list of platform actions it asks for instead of calling
 * Discord; the empty list is "do nothing".
 */
module Bot {
  import opened Wrappers
  import opened Text
  import opened Gemini

  /** What `/setup` stores per guild: `{channelId, roleId, youtubeName}`. */
  datatype GuildConfig = GuildConfig(channelId: string, roleId: string, youtubeName: string)

  /** What a verify button stores per user: `{guildId, youtubeName, roleId}`. */
  datatype PendingEntry = PendingEntry(guildId: string, youtubeName: string, roleId: string)

  /** The replies the handlers send, by kind. */
  datatype ReplyKind =
    | NotAdministrator
    | SetupCompleted
    | NotConfigured
    | DmSent
    | UploadImage
    | Processing
    | OcrFailed
    | Subscribed(youtubeName: string)
    | NotSubscribed(youtubeName: string)

  /** A request to the platform. */
  datatype Action =
    | Reply(kind: ReplyKind)
      /** The verification embed with its Verify button, posted to a channel. */
    | PostPanel(channelId: string, buttonId: string, youtubeName: string)
      /** The DM asking the user for a screenshot. */
    | AskForScreenshot(userId: string, youtubeName: string)
    | GrantRole(guildId: string, userId: string, roleId: string)

  /** An inbound interaction, with the facts the handlers read from it. */
  datatype Interaction =
    | SlashCommand(commandName: string, guildId: string, isAdmin: bool,
                   channelId: string, roleId: string, youtube: string)
    | ButtonClick(customId: string, userId: string)
    | OtherInteraction

  /** An inbound message: where it came from and whether it has an attachment. */
  datatype Message = Message(inGuild: bool, authorId: string, fromBot: bool, hasAttachment: bool)

  /** How reading the attached screenshot went. */
  datatype Analysis =
      /** Downloading the attachment failed (outside the handler's try block). */
    | DownloadFailed
      /** The Gemini call failed or its body was not JSON (caught by the handler). */
    | GeminiFailed
    | Answered(json: Response)

  const VerifyPrefix: string := "verify_"

  /** The custom id `/setup` gives the Verify button of a guild. */
  function PanelButtonId(guildId: string): (id: string)
    ensures VerifyPrefix <= id && id[|VerifyPrefix|..] == guildId
  {
    VerifyPrefix + guildId
  }

  /**
   * The guild a button names: `customId.split("_")[1]` when the id starts with
   * "verify_", that is, everything after the first '_' up to the next '_'.
   */
  function ButtonGuildId(customId: string): (gid: Option<string>)
    ensures gid.Some? <==> VerifyPrefix <= customId
    ensures gid.Some? ==>
              && '_' !in gid.value
              && VerifyPrefix + gid.value <= customId
              && (|VerifyPrefix + gid.value| < |customId| ==> customId[|VerifyPrefix + gid.value|] == '_')
  {
    if VerifyPrefix <= customId then
      var rest := customId[|VerifyPrefix|..];
      assert customId == "verify" + ['_'] + rest;
      SplitAfterPiece("verify", rest, '_');
      Some(Split(customId, '_')[1])
    else
      None
  }

  /** The button posted by `/setup` leads back to the guild it was posted for. */
  lemma PanelButtonRoundTrip(guildId: string)
    requires '_' !in guildId
    ensures ButtonGuildId(PanelButtonId(guildId)) == Some(guildId)
  {
    assert PanelButtonId(guildId) == "verify" + ['_'] + guildId;
    SplitAfterPiece("verify", guildId, '_');
    SplitNoSeparator(guildId, '_');
  }

  /**
   * What `/setup` does to the settings table and which actions it asks for:
   * a non-administrator is refused and nothing changes; an administrator
   * replaces that guild's entry and gets the panel and a confirmation.
   */
  ghost predicate SetupOutcome(before: map<string, GuildConfig>, guildId: string, isAdmin: bool,
                               channelId: string, roleId: string, youtubeName: string,
                               after: map<string, GuildConfig>, actions: seq<Action>)
  {
    if !isAdmin then
      after == before && actions == [Reply(NotAdministrator)]
    else
      && after == before[guildId := GuildConfig(channelId, roleId, youtubeName)]
      && actions == [PostPanel(channelId, PanelButtonId(guildId), youtubeName), Reply(SetupCompleted)]
  }

  /**
   * What a button press does to the pending table and which actions it asks
   * for: an id without the "verify_" prefix is ignored; an unconfigured guild
   * is reported; otherwise the DM is sent, and the user's entry is recorded
   * from the guild's settings only if the DM was delivered.
   */
  ghost predicate ButtonOutcome(before: map<string, PendingEntry>, settings: map<string, GuildConfig>,
                                customId: string, userId: string, dmDelivered: bool,
                                after: map<string, PendingEntry>, actions: seq<Action>)
  {
    match ButtonGuildId(customId)
    case None => after == before && actions == []
    case Some(gid) =>
      if gid !in settings then
        after == before && actions == [Reply(NotConfigured)]
      else
        var cfg := settings[gid];
        && actions == [Reply(DmSent), AskForScreenshot(userId, cfg.youtubeName)]
        && after == if dmDelivered
                    then before[userId := PendingEntry(gid, cfg.youtubeName, cfg.roleId)]
                    else before
  }

  /** The bot's two in-memory tables and its event handlers. */
  class Verifier {
    /** Guild id -> configuration, as loaded from and saved to settings.json. */
    var settings: map<string, GuildConfig>
    /** User id -> the verification that user has started and not finished. */
    var pending: map<string, PendingEntry>

    /** Every pending verification is for a guild that has been configured. */
    ghost predicate Valid()
      reads this
    {
      forall u :: u in pending ==> pending[u].guildId in settings
    }

    /** Start-up: settings as read from disk, nobody pending. */
    constructor (saved: map<string, GuildConfig>)
      ensures Valid()
      ensures settings == saved && pending == map[]
    {
      settings := saved;
      pending := map[];
    }

    /**
     * `/setup`: an administrator (re)configures the guild and gets a
     * Verify panel posted to the chosen channel; anyone else is refused
     * and nothing changes.  Pending verifications are never touched.
     */
    method OnSetup(guildId: string, isAdmin: bool, channelId: string, roleId: string, youtubeName: string)
      returns (actions: seq<Action>)
      requires Valid()
      modifies this`settings
      ensures Valid()
      ensures pending == old(pending)
      ensures SetupOutcome(old(settings), guildId, isAdmin, channelId, roleId, youtubeName, settings, actions)
    {
      if !isAdmin {
        return [Reply(NotAdministrator)];
      }
      settings := settings[guildId := GuildConfig(channelId, roleId, youtubeName)];
      actions := [PostPanel(channelId, PanelButtonId(guildId), youtubeName), Reply(SetupCompleted)];
    }

    /**
     * A button press.  Ids not starting with "verify_" are ignored; an
     * unconfigured guild is reported; otherwise the user is told to look in
     * their DMs, the DM is sent, and only once it has been delivered is the
     * user's pending entry recorded, replacing any earlier one.
     */
    method OnButton(customId: string, userId: string, dmDelivered: bool) returns (actions: seq<Action>)
      requires Valid()
      modifies this`pending
      ensures Valid()
      ensures settings == old(settings)
      ensures ButtonOutcome(old(pending), settings, customId, userId, dmDelivered, pending, actions)
    {
      if !(VerifyPrefix <= customId) {
        return [];
      }
      var gid := ButtonGuildId(customId).value;
      if gid !in settings {
        return [Reply(NotConfigured)];
      }
      var cfg := settings[gid];
      actions := [Reply(DmSent), AskForScreenshot(userId, cfg.youtubeName)];
      if !dmDelivered {
        return;
      }
      pending := pending[userId := PendingEntry(gid, cfg.youtubeName, cfg.roleId)];
    }

    /**
     * A message.  Guild messages, bot messages and users with nothing
     * pending are ignored; without an attachment the user is asked for an
     * image and stays pending.  Otherwise the screenshot is analysed: a
     * failed download (whose exception the handler does not catch) or a
     * failed model call leaves the entry in place, a model
     * answer removes it and grants the entry's role exactly when the
     * answer's text contains the entry's channel name.
     */
    method OnMessage(msg: Message, analysis: Analysis) returns (actions: seq<Action>)
      requires Valid()
      modifies this`pending
      ensures Valid()
      ensures settings == old(settings)
      ensures forall a :: a in actions && a.GrantRole? ==> a.guildId in settings
      ensures msg.inGuild || msg.fromBot || msg.authorId !in old(pending) ==>
                pending == old(pending) && actions == []
      ensures !msg.inGuild && !msg.fromBot && msg.authorId in old(pending) ==>
                var entry := old(pending)[msg.authorId];
                if !msg.hasAttachment then
                  pending == old(pending) && actions == [Reply(UploadImage)]
                else match analysis
                  case DownloadFailed =>
                    pending == old(pending) && actions == [Reply(Processing)]
                  case GeminiFailed =>
                    pending == old(pending) && actions == [Reply(Processing), Reply(OcrFailed)]
                  case Answered(json) =>
                    && pending == old(pending) - {msg.authorId}
                    && actions == [Reply(Processing)] +
                                  if Verdict(json, entry.youtubeName)
                                  then [GrantRole(entry.guildId, msg.authorId, entry.roleId),
                                        Reply(Subscribed(entry.youtubeName))]
                                  else [Reply(NotSubscribed(entry.youtubeName))]
    {
      if msg.inGuild || msg.fromBot {
        return [];
      }
      if msg.authorId !in pending {
        return [];
      }
      var entry := pending[msg.authorId];
      if !msg.hasAttachment {
        return [Reply(UploadImage)];
      }
      actions := [Reply(Processing)];
      match analysis {
        case DownloadFailed =>
          return;
        case GeminiFailed =>
          return actions + [Reply(OcrFailed)];
        case Answered(json) =>
          var ok := Verdict(json, entry.youtubeName);
          pending := pending - {msg.authorId};
          if ok {
            return actions + [GrantRole(entry.guildId, msg.authorId, entry.roleId),
                              Reply(Subscribed(entry.youtubeName))];
          }
          return actions + [Reply(NotSubscribed(entry.youtubeName))];
      }
    }

    /**
     * The `interactionCreate` dispatcher: the `setup` slash command goes to
     * OnSetup, a button to OnButton, and everything else is ignored.
     */
    method OnInteraction(interaction: Interaction, dmDelivered: bool) returns (actions: seq<Action>)
      requires Valid()
      modifies this
      ensures Valid()
      ensures interaction.SlashCommand? && interaction.commandName == "setup" ==>
                var i := interaction;
                && pending == old(pending)
                && SetupOutcome(old(settings), i.guildId, i.isAdmin, i.channelId, i.roleId, i.youtube, settings, actions)
      ensures interaction.ButtonClick? ==>
                && settings == old(settings)
                && ButtonOutcome(old(pending), settings, interaction.customId, interaction.userId, dmDelivered,
                                 pending, actions)
      ensures (interaction.SlashCommand? && interaction.commandName != "setup") || interaction.OtherInteraction? ==>
                settings == old(settings) && pending == old(pending) && actions == []
    {
      match interaction {
        case SlashCommand(name, guildId, isAdmin, channelId, roleId, youtube) =>
          if name == "setup" {
            actions := OnSetup(guildId, isAdmin, channelId, roleId, youtube);
          } else {
            actions := [];
          }
        case ButtonClick(customId, userId) =>
          actions := OnButton(customId, userId, dmDelivered);
        case OtherInteraction =>
          actions := [];
      }
    }
  }
}

/**
 * Whole conversations with a freshly started bot: an administrator runs
 * `/setup`, a member presses the posted Verify button and then sends
 * screenshots by DM.  Each method states what the member ends up with.
 */
module Scenarios {
  import opened Wrappers
  import opened Text
  import opened Gemini
  import opened Bot

  /** An answer whose single returned part reads `text`. */
  function AnswerWith(text: string): Response
  {
    Response(Some([Candidate(Some(Content(Some([Part(Some(text))]))))]))
  }

  /** A DM from a human member, with or without an attachment. */
  function DirectMessage(userId: string, hasAttachment: bool): Message
  {
    Message(false, userId, false, hasAttachment)
  }

  /** A text that holds the name verbatim contains it once both are lower-cased. */
  lemma VerbatimNameFound(before: string, name: string, after: string)
    ensures Contains(Lower(before + name + after), Lower(name))
  {
    LowerAppend(before + name, after);
    LowerAppend(before, name);
    OccursAtRight(Lower(before), Lower(name), Lower(name), 0);
    OccursAtLeft(Lower(before) + Lower(name), Lower(after), Lower(name), |Lower(before)|);
    assert OccursAt(Lower(before + name + after), Lower(name), |before|);
  }

  /** An answer that holds the name verbatim passes. */
  lemma VerbatimAnswerPasses(before: string, name: string, after: string)
    ensures Verdict(AnswerWith(before + name + after), name)
  {
    VerbatimNameFound(before, name, after);
    PartContainingNamePasses(AnswerWith(before + name + after), [Part(Some(before + name + after))], 0, name);
  }

  /** A screenshot that reads "Subscribed to Glitch Ninja channel" passes for "Glitch Ninja". */
  lemma MatchingScreenshotPasses()
    ensures Verdict(AnswerWith("Subscribed to Glitch Ninja channel"), "Glitch Ninja")
  {
    assert "Subscribed to Glitch Ninja channel" == "Subscribed to " + "Glitch Ninja" + " channel";
    VerbatimAnswerPasses("Subscribed to ", "Glitch Ninja", " channel");
  }

  /**
   * An answer fails when the name has an upper-case letter that its text has
   * in neither case.
   */
  lemma LetterMissingAnswerFails(text: string, name: string, j: nat)
    requires j < |name| && 'A' <= name[j] <= 'Z'
    requires forall i :: 0 <= i < |text| ==> text[i] != name[j] && text[i] != LowerChar(name[j])
    ensures !Verdict(AnswerWith(text), name)
  {
    assert ExtractedText(AnswerWith(text)) == text;
    LetterMissingRejects(AnswerWith(text), name, j);
  }

  /** A screenshot that reads "Subscribed to Other Channel" fails for "Glitch Ninja": it has no 'g'. */
  lemma OtherChannelFails()
    ensures !Verdict(AnswerWith("Subscribed to Other Channel"), "Glitch Ninja")
  {
    LetterMissingAnswerFails("Subscribed to Other Channel", "Glitch Ninja", 0);
  }

  /**
   * Setup, button, screenshot: the member ends with nothing pending and is
   * granted the configured role exactly when the answer contains the name.
   */
  method SetupThenVerify(saved: map<string, GuildConfig>, guildId: string, channelId: string,
                         roleId: string, youtubeName: string, userId: string, json: Response)
    returns (actions: seq<Action>, stillPending: bool)
    requires '_' !in guildId
    ensures !stillPending
    ensures actions == [Reply(Processing)] +
                       if Verdict(json, youtubeName)
                       then [GrantRole(guildId, userId, roleId), Reply(Subscribed(youtubeName))]
                       else [Reply(NotSubscribed(youtubeName))]
  {
    var bot := new Verifier(saved);
    var posted := bot.OnSetup(guildId, true, channelId, roleId, youtubeName);
    PanelButtonRoundTrip(guildId);
    var _ := bot.OnButton(posted[0].buttonId, userId, true);
    actions := bot.OnMessage(DirectMessage(userId, true), Answered(json));
    stillPending := userId in bot.pending;
  }

  /**
   * A failed model call is not the end of the attempt: the entry survives,
   * and the next screenshot is judged against the same entry.
   */
  method RetryAfterOcrFailure(saved: map<string, GuildConfig>, guildId: string, userId: string,
                              json: Response)
    returns (first: seq<Action>, second: seq<Action>)
    requires guildId in saved && '_' !in guildId
    ensures first == [Reply(Processing), Reply(OcrFailed)]
    ensures var cfg := saved[guildId];
            second == [Reply(Processing)] +
                      if Verdict(json, cfg.youtubeName)
                      then [GrantRole(guildId, userId, cfg.roleId), Reply(Subscribed(cfg.youtubeName))]
                      else [Reply(NotSubscribed(cfg.youtubeName))]
  {
    var bot := new Verifier(saved);
    PanelButtonRoundTrip(guildId);
    var _ := bot.OnButton(PanelButtonId(guildId), userId, true);
    first := bot.OnMessage(DirectMessage(userId, true), GeminiFailed);
    second := bot.OnMessage(DirectMessage(userId, true), Answered(json));
  }

  /**
   * A message without an attachment only asks for an image; the member
   * stays pending and the next message with a screenshot is judged.
   */
  method TextOnlyMessageKeepsEntry(saved: map<string, GuildConfig>, guildId: string, userId: string,
                                   json: Response)
    returns (first: seq<Action>, second: seq<Action>)
    requires guildId in saved && '_' !in guildId
    ensures first == [Reply(UploadImage)]
    ensures |second| >= 2 && second[0] == Reply(Processing)
    ensures var cfg := saved[guildId];
            Verdict(json, cfg.youtubeName) <==> GrantRole(guildId, userId, cfg.roleId) in second
  {
    var bot := new Verifier(saved);
    PanelButtonRoundTrip(guildId);
    var _ := bot.OnButton(PanelButtonId(guildId), userId, true);
    first := bot.OnMessage(DirectMessage(userId, false), Answered(json));
    second := bot.OnMessage(DirectMessage(userId, true), Answered(json));
  }

  /**
   * Pressing a second guild's button replaces the first request: the
   * screenshot is judged against the second guild's name and its role.
   */
  method LatestButtonWins(saved: map<string, GuildConfig>, first: string, second: string, userId: string,
                          json: Response)
    returns (actions: seq<Action>)
    requires first in saved && second in saved && '_' !in first && '_' !in second
    ensures var cfg := saved[second];
            actions == [Reply(Processing)] +
                       if Verdict(json, cfg.youtubeName)
                       then [GrantRole(second, userId, cfg.roleId), Reply(Subscribed(cfg.youtubeName))]
                       else [Reply(NotSubscribed(cfg.youtubeName))]
  {
    var bot := new Verifier(saved);
    PanelButtonRoundTrip(first);
    PanelButtonRoundTrip(second);
    var _ := bot.OnButton(PanelButtonId(first), userId, true);
    var _ := bot.OnButton(PanelButtonId(second), userId, true);
    actions := bot.OnMessage(DirectMessage(userId, true), Answered(json));
  }

  /**
   * A request keeps the role and name it was started with: reconfiguring the
   * guild afterwards does not change how a pending member is judged or
   * what they are granted.
   */
  method RequestKeepsOldRole(guildId: string, oldCfg: GuildConfig, newCfg: GuildConfig, userId: string,
                             json: Response)
    returns (actions: seq<Action>)
    requires '_' !in guildId
    ensures actions == [Reply(Processing)] +
                       if Verdict(json, oldCfg.youtubeName)
                       then [GrantRole(guildId, userId, oldCfg.roleId), Reply(Subscribed(oldCfg.youtubeName))]
                       else [Reply(NotSubscribed(oldCfg.youtubeName))]
  {
    var bot := new Verifier(map[guildId := oldCfg]);
    PanelButtonRoundTrip(guildId);
    var _ := bot.OnButton(PanelButtonId(guildId), userId, true);
    var _ := bot.OnSetup(guildId, true, newCfg.channelId, newCfg.roleId, newCfg.youtubeName);
    actions := bot.OnMessage(DirectMessage(userId, true), Answered(json));
  }

  /** A DM that could not be delivered leaves the member without a request: their screenshot is ignored. */
  method UndeliveredPromptIgnoresScreenshot(saved: map<string, GuildConfig>, guildId: string, userId: string,
                                           json: Response)
    returns (actions: seq<Action>)
    requires guildId in saved && '_' !in guildId
    ensures actions == []
  {
    var bot := new Verifier(saved);
    PanelButtonRoundTrip(guildId);
    var _ := bot.OnButton(PanelButtonId(guildId), userId, false);
    actions := bot.OnMessage(DirectMessage(userId, true), Answered(json));
  }
}

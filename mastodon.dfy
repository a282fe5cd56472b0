/**
 * The Mastodon output plugin (ikalog/outputs/mastodon.py): the text of the
 * toot sent at the end of a game, the plugin's settings and the small state
 * machine of `enabled` and the stored scoreboard image.
 */
module MastodonOutput {
  import opened Wrappers
  import opened IkaUtils

  // ---------------------------------------------------------------------
  // Inputs of the toot text

  /** The game record fields the text reads: map, rule, outcome, players. */
  datatype GameRecord = GameRecord(
    mapId: Option<string>,
    ruleId: Option<string>,
    won: Option<bool>,
    players: Option<seq<Entry>>)

  /** The lookup tables and the default language list for map2text and
      rule2text, which the plugin calls without a languages argument. */
  datatype Lookup = Lookup(tables: Tables, defaults: seq<string>)

  /** The translated fragments: the unknown-stage and unknown-rule texts,
      the three outcome words, the headline format (result, rule, stage)
      and the rank format. */
  datatype Phrases = Phrases(
    unknownStage: string,
    unknownRule: string,
    wonText: string,
    lostText: string,
    playedText: string,
    headline: (string, string, string) -> string,
    rank: string -> string)

  /** The untranslated message ids. */
  const EnglishPhrases: Phrases := Phrases(
    "unknown stage", "unknown rule", "won", "lost", "played",
    (result, rule, stage) => "Just " + result + " " + rule + " at " + stage,
    udemae => " Rank: " + udemae)

  /** The plugin settings the text depends on. */
  datatype TootSettings = TootSettings(
    tweetMyScore: bool,
    tweetKd: bool,
    tweetUdemae: bool,
    useReply: bool,
    footer: string)

  const ReplyTo: string := "@_ikalog_ "
  const Hashtag: string := " #IkaLogResult"

  // ---------------------------------------------------------------------
  // The pieces of the text, in the order they are appended

  function Headline(g: GameRecord, lk: Lookup, ph: Phrases): string {
    var stage := MapToText(lk.tables, g.mapId, ph.unknownStage, DefaultLanguages, lk.defaults);
    var rule := RuleToText(lk.tables, g.ruleId, ph.unknownRule, DefaultLanguages, lk.defaults);
    var result := WinLoseText(g.won, ph.wonText, ph.lostText, ph.playedText);
    ph.headline(result, rule, stage)
  }

  function ScoreSegment(score: int): string {
    " " + DecimalString(score) + "p"
  }

  function ScorePart(s: TootSettings, me: Entry): string {
    if me.score.Some? && s.tweetMyScore then ScoreSegment(me.score.value) else ""
  }

  function KdSegment(kills: int, deaths: int): string {
    " " + DecimalString(kills) + "k/" + DecimalString(deaths) + "d"
  }

  function KdPart(s: TootSettings, me: Entry): string {
    if me.kills.Some? && me.deaths.Some? && s.tweetKd then KdSegment(me.kills.value, me.deaths.value) else ""
  }

  function RankPart(s: TootSettings, me: Entry, ph: Phrases): string {
    if me.udemaePre.Some? && s.tweetUdemae then ph.rank(me.udemaePre.value) else ""
  }

  function TitlePart(me: Entry): string {
    match PlayerTitle(Some(me))
    case Some(title) => if title == "" then "" else " " + title
    case None => ""
  }

  function Tail(s: TootSettings, time: string): string {
    " (" + time + ") " + s.footer + Hashtag
  }

  /** The text up to the optional segments; they are inserted after it. */
  function Lead(s: TootSettings, g: GameRecord, lk: Lookup, ph: Phrases): (r: string)
    ensures s.useReply ==> StartsWith(r, ReplyTo)
    ensures !s.useReply ==> r == Headline(g, lk, ph)
  {
    var h := Headline(g, lk, ph);
    if s.useReply then StartsAppend(ReplyTo, h); ReplyTo + h else h
  }

  predicate StartsWith(s: string, p: string) {
    |p| <= |s| && s[..|p|] == p
  }

  predicate EndsWith(s: string, t: string) {
    |t| <= |s| && s[|s| - |t|..] == t
  }

  lemma StartsAppend(a: string, b: string)
    ensures StartsWith(a + b, a)
  {
    assert (a + b)[..|a|] == a;
  }

  lemma EndsAppend(a: string, b: string)
    ensures EndsWith(a + b, b)
  {
    assert (a + b)[|a|..] == b;
  }

  lemma StartsTrans(s: string, p: string, q: string)
    requires StartsWith(s, p) && StartsWith(p, q)
    ensures StartsWith(s, q)
  {
    assert s[..|q|] == s[..|p|][..|q|];
  }

  lemma EndsTrans(s: string, t: string, u: string)
    requires EndsWith(s, t) && EndsWith(t, u)
    ensures EndsWith(s, u)
  {
    assert s[|s| - |u|..] == s[|s| - |t|..][|t| - |u|..];
  }

  /** Five pieces of text joined in order. */
  function Join5(a: string, b: string, c: string, d: string, e: string): string {
    a + (b + (c + (d + e)))
  }

  /** The join starts with its first piece and ends with its last. */
  lemma Join5Ends(a: string, b: string, c: string, d: string, e: string)
    ensures StartsWith(Join5(a, b, c, d, e), a)
    ensures EndsWith(Join5(a, b, c, d, e), e)
  {
    StartsAppend(a, b + (c + (d + e)));
    EndsAppend(d, e);
    EndsAppend(c, d + e);
    EndsAppend(b, c + (d + e));
    EndsAppend(a, b + (c + (d + e)));
    EndsTrans(c + (d + e), d + e, e);
    EndsTrans(b + (c + (d + e)), c + (d + e), e);
    EndsTrans(Join5(a, b, c, d, e), b + (c + (d + e)), e);
  }

  /** `on` is `off` with `seg` inserted at position `at`. */
  predicate InsertedAt(on: string, off: string, at: int, seg: string) {
    0 <= at <= |off| && on == off[..at] + (seg + off[at..])
  }

  /** Filling an empty second piece inserts it after the first. */
  lemma FillSecond(on: string, off: string, a: string, seg: string, c: string, d: string, e: string)
    requires on == Join5(a, seg, c, d, e) && off == Join5(a, "", c, d, e)
    ensures InsertedAt(on, off, |a|, seg)
  {
    var rest := c + (d + e);
    assert "" + rest == rest;
    assert off == a + rest;
    assert off[..|a|] == a && off[|a|..] == rest;
  }

  /** Filling an empty third piece inserts it after the first two. */
  lemma FillThird(on: string, off: string, a: string, b: string, seg: string, d: string, e: string, at: int)
    requires on == Join5(a, b, seg, d, e) && off == Join5(a, b, "", d, e) && at == |a| + |b|
    ensures InsertedAt(on, off, at, seg)
  {
    var rest := d + e;
    assert "" + rest == rest;
    assert off == a + (b + rest);
    assert off == (a + b) + rest;
    assert off[..|a| + |b|] == a + b && off[|a| + |b|..] == rest;
    assert a + (b + (seg + rest)) == (a + b) + (seg + rest);
  }

  /** Filling an empty fourth piece inserts it after the first three. */
  lemma FillFourth(on: string, off: string, a: string, b: string, c: string, seg: string, e: string, at: int)
    requires on == Join5(a, b, c, seg, e) && off == Join5(a, b, c, "", e) && at == |a| + |b| + |c|
    ensures InsertedAt(on, off, at, seg)
  {
    assert "" + e == e;
    assert off == a + (b + (c + e));
    assert off == (a + b + c) + e;
    assert off[..|a| + |b| + |c|] == a + b + c && off[|a| + |b| + |c|..] == e;
    assert a + (b + (c + (seg + e))) == (a + b + c) + (seg + e);
  }

  /** The closing: the fes title, if any, then time, footer and hashtag. */
  function Closing(s: TootSettings, me: Entry, time: string): string {
    TitlePart(me) + Tail(s, time)
  }

  /** The text for a present local entry: the lead, the score, kills/deaths
      and rank segments in the order the source appends them, the closing. */
  function Compose(s: TootSettings, lead: string, me: Entry, ph: Phrases, closing: string): string {
    Join5(lead, ScorePart(s, me), KdPart(s, me), RankPart(s, me, ph), closing)
  }

  /** get_text_game_individual_result: None when there is no local player,
      where the source raises on `'score' in None`. The text ends with the
      time, the footer and the hashtag; a non-empty fes title comes right
      before that ending, an empty one adds nothing; the reply prefix opens the text
      when use_reply is set, the headline otherwise. */
  function IndividualResultText(s: TootSettings, g: GameRecord, lk: Lookup, ph: Phrases, time: string): (r: Option<string>)
    ensures r.None? <==> MyEntry(g.players).None?
    ensures r.Some? ==> EndsWith(r.value, Tail(s, time))
    ensures r.Some? && PlayerTitle(MyEntry(g.players)).Some? && PlayerTitle(MyEntry(g.players)).value == "" ==>
      r.value == Compose(s, Lead(s, g, lk, ph), MyEntry(g.players).value, ph, Tail(s, time))
    ensures r.Some? && PlayerTitle(MyEntry(g.players)).Some? && PlayerTitle(MyEntry(g.players)).value != "" ==>
      EndsWith(r.value, " " + PlayerTitle(MyEntry(g.players)).value + Tail(s, time))
    ensures r.Some? && s.useReply ==> StartsWith(r.value, ReplyTo)
    ensures r.Some? && !s.useReply ==> StartsWith(r.value, Headline(g, lk, ph))
    ensures r.Some? ==> r.value == Compose(s, Lead(s, g, lk, ph), MyEntry(g.players).value, ph,
      Closing(s, MyEntry(g.players).value, time))
  {
    match MyEntry(g.players)
    case None => None
    case Some(me) =>
      var lead := Lead(s, g, lk, ph);
      var closing := Closing(s, me, time);
      var text := Compose(s, lead, me, ph, closing);
      Join5Ends(lead, ScorePart(s, me), KdPart(s, me), RankPart(s, me, ph), closing);
      EndsAppend(TitlePart(me), Tail(s, time));
      EndsTrans(text, closing, Tail(s, time));
      assert s.useReply ==> StartsWith(text, ReplyTo) by {
        if s.useReply { StartsTrans(text, lead, ReplyTo); }
      }
      Some(text)
  }

  /** Only the score part depends on the score flag. */
  lemma ComposeWithScoreFlag(s: TootSettings, lead: string, me: Entry, ph: Phrases, closing: string, flag: bool)
    ensures Compose(s.(tweetMyScore := flag), lead, me, ph, closing)
      == Join5(lead, ScorePart(s.(tweetMyScore := flag), me), KdPart(s, me), RankPart(s, me, ph), closing)
  {
  }

  /** Only the kills/deaths part depends on the kills/deaths flag. */
  lemma ComposeWithKdFlag(s: TootSettings, lead: string, me: Entry, ph: Phrases, closing: string, flag: bool)
    ensures Compose(s.(tweetKd := flag), lead, me, ph, closing)
      == Join5(lead, ScorePart(s, me), KdPart(s.(tweetKd := flag), me), RankPart(s, me, ph), closing)
  {
  }

  /** The text with the kills/deaths flag off, and on when both counts exist. */
  lemma ComposeKdOffOn(s: TootSettings, lead: string, me: Entry, ph: Phrases, closing: string)
    requires me.kills.Some? && me.deaths.Some?
    ensures Compose(s.(tweetKd := false), lead, me, ph, closing)
      == Join5(lead, ScorePart(s, me), "", RankPart(s, me, ph), closing)
    ensures Compose(s.(tweetKd := true), lead, me, ph, closing)
      == Join5(lead, ScorePart(s, me), KdSegment(me.kills.value, me.deaths.value), RankPart(s, me, ph), closing)
  {
    ComposeWithKdFlag(s, lead, me, ph, closing, true);
    ComposeWithKdFlag(s, lead, me, ph, closing, false);
  }

  /** Only the rank part depends on the rank flag. */
  lemma ComposeWithRankFlag(s: TootSettings, lead: string, me: Entry, ph: Phrases, closing: string, flag: bool)
    ensures Compose(s.(tweetUdemae := flag), lead, me, ph, closing)
      == Join5(lead, ScorePart(s, me), KdPart(s, me), RankPart(s.(tweetUdemae := flag), me, ph), closing)
  {
  }

  /** The text with the rank flag off, and on when the rank exists. */
  lemma ComposeRankOffOn(s: TootSettings, lead: string, me: Entry, ph: Phrases, closing: string)
    requires me.udemaePre.Some?
    ensures Compose(s.(tweetUdemae := false), lead, me, ph, closing)
      == Join5(lead, ScorePart(s, me), KdPart(s, me), "", closing)
    ensures Compose(s.(tweetUdemae := true), lead, me, ph, closing)
      == Join5(lead, ScorePart(s, me), KdPart(s, me), ph.rank(me.udemaePre.value), closing)
  {
    ComposeWithRankFlag(s, lead, me, ph, closing, true);
    ComposeWithRankFlag(s, lead, me, ph, closing, false);
  }

  /** The score segment: without a score in the local entry the flag changes
      nothing; with one, setting the flag inserts ' <score>p' right after
      the lead and changes nothing else. */
  lemma ScoreSegmentOnlyWithScore(s: TootSettings, lead: string, me: Entry, ph: Phrases, closing: string)
    ensures me.score.None? ==>
      Compose(s.(tweetMyScore := true), lead, me, ph, closing) == Compose(s.(tweetMyScore := false), lead, me, ph, closing)
    ensures me.score.Some? ==>
      InsertedAt(Compose(s.(tweetMyScore := true), lead, me, ph, closing), Compose(s.(tweetMyScore := false), lead, me, ph, closing),
        |lead|, ScoreSegment(me.score.value))
  {
    ComposeWithScoreFlag(s, lead, me, ph, closing, true);
    ComposeWithScoreFlag(s, lead, me, ph, closing, false);
    assert ScorePart(s.(tweetMyScore := false), me) == "";
    if me.score.Some? {
      assert ScorePart(s.(tweetMyScore := true), me) == ScoreSegment(me.score.value);
      FillSecond(Compose(s.(tweetMyScore := true), lead, me, ph, closing), Compose(s.(tweetMyScore := false), lead, me, ph, closing),
        lead, ScoreSegment(me.score.value), KdPart(s, me), RankPart(s, me, ph), closing);
    }
  }

  /** The kills/deaths flag changes nothing unless both counts exist. */
  lemma KdSegmentNeedsBothCounts(s: TootSettings, lead: string, me: Entry, ph: Phrases, closing: string)
    requires me.kills.None? || me.deaths.None?
    ensures Compose(s.(tweetKd := true), lead, me, ph, closing) == Compose(s.(tweetKd := false), lead, me, ph, closing)
  {
    ComposeWithKdFlag(s, lead, me, ph, closing, true);
    ComposeWithKdFlag(s, lead, me, ph, closing, false);
  }

  /** With both counts, setting the kills/deaths flag inserts
      ' <k>k/<d>d' right after the score part and changes nothing else. */
  lemma KdSegmentInserted(s: TootSettings, lead: string, me: Entry, ph: Phrases, closing: string)
    requires me.kills.Some? && me.deaths.Some?
    ensures InsertedAt(Compose(s.(tweetKd := true), lead, me, ph, closing), Compose(s.(tweetKd := false), lead, me, ph, closing),
      |lead| + |ScorePart(s, me)|, KdSegment(me.kills.value, me.deaths.value))
  {
    var on := Compose(s.(tweetKd := true), lead, me, ph, closing);
    var off := Compose(s.(tweetKd := false), lead, me, ph, closing);
    var score, kd, rank := ScorePart(s, me), KdSegment(me.kills.value, me.deaths.value), RankPart(s, me, ph);
    assert on == Join5(lead, score, kd, rank, closing) && off == Join5(lead, score, "", rank, closing) by {
      ComposeKdOffOn(s, lead, me, ph, closing);
    }
    FillThird(on, off, lead, score, kd, rank, closing, |lead| + |score|);
  }

  /** The rank flag changes nothing without the rank before the game. */
  lemma RankSegmentNeedsRank(s: TootSettings, lead: string, me: Entry, ph: Phrases, closing: string)
    requires me.udemaePre.None?
    ensures Compose(s.(tweetUdemae := true), lead, me, ph, closing) == Compose(s.(tweetUdemae := false), lead, me, ph, closing)
  {
    ComposeWithRankFlag(s, lead, me, ph, closing, true);
    ComposeWithRankFlag(s, lead, me, ph, closing, false);
  }

  /** With the rank before the game, setting the rank flag inserts the rank
      text right after the kills/deaths part and changes nothing else. */
  lemma RankSegmentInserted(s: TootSettings, lead: string, me: Entry, ph: Phrases, closing: string)
    requires me.udemaePre.Some?
    ensures InsertedAt(Compose(s.(tweetUdemae := true), lead, me, ph, closing), Compose(s.(tweetUdemae := false), lead, me, ph, closing),
      |lead| + |ScorePart(s, me)| + |KdPart(s, me)|, ph.rank(me.udemaePre.value))
  {
    var on := Compose(s.(tweetUdemae := true), lead, me, ph, closing);
    var off := Compose(s.(tweetUdemae := false), lead, me, ph, closing);
    var score, kd, rank := ScorePart(s, me), KdPart(s, me), ph.rank(me.udemaePre.value);
    assert on == Join5(lead, score, kd, rank, closing) && off == Join5(lead, score, kd, "", closing) by {
      ComposeRankOffOn(s, lead, me, ph, closing);
    }
    FillFourth(on, off, lead, score, kd, rank, closing, |lead| + |score| + |kd|);
  }

  /** With the untranslated phrases the text starts with the reply prefix
      exactly when use_reply is set: the headline itself starts with "Just". */
  lemma ReplyPrefixIffUseReply(s: TootSettings, g: GameRecord, lk: Lookup, time: string)
    requires MyEntry(g.players).Some?
    ensures var t := IndividualResultText(s, g, lk, EnglishPhrases, time).value;
      StartsWith(t, ReplyTo) <==> s.useReply
  {
    var t := IndividualResultText(s, g, lk, EnglishPhrases, time).value;
    var h := Headline(g, lk, EnglishPhrases);
    if !s.useReply {
      assert StartsWith(t, h);
      assert h[0] == 'J';
      assert t[0] == 'J';
      assert ReplyTo[0] == '@';
    }
  }

  // ---------------------------------------------------------------------
  // Saved configuration

  /** A value under config['twitter']: a flag or an optional string. */
  datatype ConfigValue = Flag(flag: bool) | Text(text: Option<string>)

  const TwitterKeys: set<string> :=
    {"Enable", "AttachImage", "TweetMyScore", "TweetKd", "TweetUdemae", "UseReply", "ClientId", "AccessToken", "Footer"}

  /** The caller's configuration dictionary, updated in place. */
  class Config {
    var sections: map<string, map<string, ConfigValue>>

    constructor(sections: map<string, map<string, ConfigValue>>)
      ensures this.sections == sections
    {
      this.sections := sections;
    }
  }

  /** The scoreboard screenshot kept between the result hook and the end
      of the session. */
  datatype Image = Image(rows: seq<seq<int>>)

  // ---------------------------------------------------------------------
  // Posting

  /** Python's default recursion limit. */
  const RecursionLimit: nat := 1000

  /** What a call of toot ends in: a status posted with the given
      credentials, or RecursionError. */
  datatype TootResult = Posted(clientId: Option<string>, accessToken: Option<string>, status: string) | RecursionError

  /** toot as written, entered `depth` frames deep. The plugin class is
      itself named Mastodon, and its definition rebinds that module-level
      name after the client class of the mastodon library was imported
      under it; so the client toot means to build is another plugin, whose
      toot does the same, until Python stops the descent. */
  function TootAsWritten(clientId: Option<string>, accessToken: Option<string>, s: string, depth: nat): TootResult
    decreases RecursionLimit - depth
  {
    if depth >= RecursionLimit then RecursionError
    else TootAsWritten(clientId, accessToken, s, depth + 1)
  }

  /** As written, toot never posts: from any depth it ends in RecursionError. */
  lemma {:induction false} TootAsWrittenNeverPosts(clientId: Option<string>, accessToken: Option<string>, s: string, depth: nat)
    ensures TootAsWritten(clientId, accessToken, s, depth) == RecursionError
    decreases RecursionLimit - depth
  {
    if depth < RecursionLimit {
      TootAsWrittenNeverPosts(clientId, accessToken, s, depth + 1);
    }
  }

  /** toot as intended: the mastodon library's client, built from the
      plugin's credentials, posts the text. */
  function Toot(clientId: Option<string>, accessToken: Option<string>, s: string): (r: TootResult)
    ensures r.Posted? && r.status == s
    ensures r.clientId == clientId && r.accessToken == accessToken
    ensures r != TootAsWritten(clientId, accessToken, s, 0)
  {
    TootAsWrittenNeverPosts(clientId, accessToken, s, 0);
    Posted(clientId, accessToken, s)
  }

  /** The outcome of on_game_session_end: it returns False without posting,
      posts the text and returns None, or raises while building the text. */
  datatype SessionEnd = ReturnedFalse | Tooted(post: TootResult) | Raised

  class Mastodon {
    var enabled: bool
    var attachImage: bool
    var tweetKd: bool
    var tweetMyScore: bool
    var tweetUdemae: bool
    var useReply: bool
    var clientId: Option<string>
    var accessToken: Option<string>
    var footer: string
    var consumerKeyType: string
    var imgResultDetail: Option<Image>

    /** The plugin only ever counts as enabled with both credentials set. */
    predicate Valid()
      reads this
    {
      enabled ==> clientId.Some? && accessToken.Some?
    }

    function Settings(): (s: TootSettings)
      reads this
      ensures s.tweetMyScore == tweetMyScore && s.tweetKd == tweetKd && s.tweetUdemae == tweetUdemae
      ensures s.useReply == useReply && s.footer == footer
    {
      TootSettings(tweetMyScore, tweetKd, tweetUdemae, useReply, footer)
    }

    /** __init__: enabled exactly when both credentials are given; no
        screenshot is stored yet. */
    constructor(clientId: Option<string> := None, accessToken: Option<string> := None,
                attachImage: bool := false, footer: string := "", tweetMyScore: bool := false,
                tweetKd: bool := false, tweetUdemae: bool := false, useReply: bool := true)
      ensures Valid()
      ensures enabled <==> clientId.Some? && accessToken.Some?
      ensures consumerKeyType == "own"
      ensures this.clientId == clientId && this.accessToken == accessToken
      ensures this.attachImage == attachImage && this.footer == footer
      ensures this.tweetMyScore == tweetMyScore && this.tweetKd == tweetKd
      ensures this.tweetUdemae == tweetUdemae && this.useReply == useReply
      ensures imgResultDetail.None?
    {
      enabled := !(clientId.None? || accessToken.None?);
      consumerKeyType := "own";
      this.clientId := clientId;
      this.accessToken := accessToken;
      this.attachImage := attachImage;
      this.tweetMyScore := tweetMyScore;
      this.tweetKd := tweetKd;
      this.tweetUdemae := tweetUdemae;
      this.useReply := useReply;
      this.footer := footer;
      imgResultDetail := None;
    }

    /** config_reset: disabled, every flag off except use_reply, empty
        credentials and footer; the stored screenshot is kept. */
    method ConfigReset()
      modifies this
      ensures Valid()
      ensures !enabled && !attachImage && !tweetKd && !tweetMyScore && !tweetUdemae && useReply
      ensures clientId == Some("") && accessToken == Some("") && footer == ""
      ensures imgResultDetail == old(imgResultDetail) && consumerKeyType == old(consumerKeyType)
    {
      enabled := false;
      attachImage := false;
      tweetKd := false;
      tweetMyScore := false;
      tweetUdemae := false;
      useReply := true;
      clientId := Some("");
      accessToken := Some("");
      footer := "";
    }

    /** The nine settings as saved under config['twitter']. */
    function TwitterSection(): (d: map<string, ConfigValue>)
      reads this
      ensures d.Keys == TwitterKeys
      ensures RestoredSettings(d) == Some(Settings())
      ensures d["Enable"] == Flag(enabled) && d["AttachImage"] == Flag(attachImage)
      ensures d["ClientId"] == Text(clientId) && d["AccessToken"] == Text(accessToken)
    {
      map["Enable" := Flag(enabled),
          "AttachImage" := Flag(attachImage),
          "TweetMyScore" := Flag(tweetMyScore),
          "TweetKd" := Flag(tweetKd),
          "TweetUdemae" := Flag(tweetUdemae),
          "UseReply" := Flag(useReply),
          "ClientId" := Text(clientId),
          "AccessToken" := Text(accessToken),
          "Footer" := Text(Some(footer))]
    }

    /** on_config_save_to_context: config['twitter'] is replaced by the
        nine saved settings; other sections are untouched. */
    method OnConfigSaveToContext(config: Config)
      modifies config
      ensures config.sections == old(config.sections)["twitter" := TwitterSection()]
    {
      config.sections := config.sections["twitter" := TwitterSection()];
    }

    /** on_result_detail_still: keep the game's scoreboard image, which may
        itself be None. */
    method OnResultDetailStill(imageScoreboard: Option<Image>)
      requires Valid()
      modifies this`imgResultDetail
      ensures Valid()
      ensures imgResultDetail == imageScoreboard
    {
      imgResultDetail := imageScoreboard;
    }

    /** on_game_session_end: nothing is posted, and False returned, while
        the plugin is disabled or no screenshot is stored; otherwise the
        individual-result text is posted with the plugin's credentials
        (through the corrected Toot) and the screenshot dropped. Without
        a local player the text cannot be built and the hook raises before
        posting. */
    method OnGameSessionEnd(g: GameRecord, lk: Lookup, ph: Phrases, time: string) returns (outcome: SessionEnd)
      requires Valid()
      modifies this`imgResultDetail
      ensures Valid()
      ensures outcome.Tooted? ==> outcome.post.Posted? && outcome.post.clientId.Some? && outcome.post.accessToken.Some?
      ensures !old(enabled) || old(imgResultDetail).None? ==> outcome == ReturnedFalse && imgResultDetail == old(imgResultDetail)
      ensures old(enabled) && old(imgResultDetail).Some? ==>
        match IndividualResultText(old(Settings()), g, lk, ph, time)
        case None => outcome == Raised && imgResultDetail == old(imgResultDetail)
        case Some(text) => outcome == Tooted(Toot(clientId, accessToken, text)) && imgResultDetail.None?
    {
      if !enabled {
        return ReturnedFalse;
      }
      if imgResultDetail.None? {
        return ReturnedFalse;
      }
      var text := IndividualResultText(Settings(), g, lk, ph, time);
      if text.None? {
        return Raised;
      }
      outcome := Tooted(Toot(clientId, accessToken, text.value));
      imgResultDetail := None;
    }
  }

  /** Reading the toot settings back from a saved section. */
  function RestoredSettings(d: map<string, ConfigValue>): (r: Option<TootSettings>)
    ensures r.Some? ==> d.Keys >= {"TweetMyScore", "TweetKd", "TweetUdemae", "UseReply", "Footer"}
  {
    if "TweetMyScore" in d && d["TweetMyScore"].Flag?
       && "TweetKd" in d && d["TweetKd"].Flag?
       && "TweetUdemae" in d && d["TweetUdemae"].Flag?
       && "UseReply" in d && d["UseReply"].Flag?
       && "Footer" in d && d["Footer"].Text? && d["Footer"].text.Some?
    then Some(TootSettings(d["TweetMyScore"].flag, d["TweetKd"].flag, d["TweetUdemae"].flag,
                           d["UseReply"].flag, d["Footer"].text.value))
    else None
  }
}
